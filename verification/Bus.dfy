/** What a bus message means for the pipeline's fate (src/stream/bus.rs). */
module Bus {
  import opened Prelude
  import Naming

  /** A GStreamer object and the chain of its parents. */
  datatype GstObject = GstObject(name: string, parent: Option<GstObject>)

  datatype Message = Eos | Error(src: Option<GstObject>) | Other

  datatype BusAction = Quit | ReapBranch(id: string) | Ignore

  /** The names met when walking from `cursor` to the top of its hierarchy. */
  function Ancestry(cursor: Option<GstObject>): seq<string> {
    match cursor
    case None => []
    case Some(obj) => [obj.name] + Ancestry(obj.parent)
  }

  /** The first branch-named entry of a chain of names is `chain[k]`, owned by `id`. */
  ghost predicate NearestBranch(chain: seq<string>, k: nat, id: string) {
    && k < |chain|
    && chain[k] in Naming.BranchNames(id)
    && forall j, other :: 0 <= j < k ==> chain[j] !in Naming.BranchNames(other)
  }

  ghost predicate NoBranch(chain: seq<string>) {
    forall j, other :: 0 <= j < |chain| ==> chain[j] !in Naming.BranchNames(other)
  }

  /** Each object of the path is the parent of the one before. */
  ghost predicate Climbs(path: seq<GstObject>) {
    && path != []
    && forall j, k :: 0 <= j && k == j + 1 < |path| ==> path[j].parent == Some(path[k])
  }

  ghost predicate NamesBranch(obj: GstObject, id: string) {
    obj.name in Naming.BranchNames(id)
  }

  /** The first object of the path with a branch's name is the `k`-th, and the branch is `id`'s. */
  ghost predicate MeetsFirst(path: seq<GstObject>, k: nat, id: string) {
    && k < |path|
    && NamesBranch(path[k], id)
    && forall j, other :: 0 <= j < k ==> !NamesBranch(path[j], other)
  }

  /** The path goes to the top of the hierarchy and meets no branch. */
  ghost predicate MeetsNone(path: seq<GstObject>) {
    && path != [] && path[|path| - 1].parent.None?
    && forall j, other :: 0 <= j < |path| ==> !NamesBranch(path[j], other)
  }

  /** Climbing from an object goes through its ancestry. */
  lemma {:induction false} PathIsAncestry(path: seq<GstObject>)
    requires Climbs(path)
    ensures
      var chain := Ancestry(Some(path[0]));
      && |path| <= |chain|
      && (forall k :: 0 <= k < |path| ==> chain[k] == path[k].name)
      && (path[|path| - 1].parent.None? ==> |chain| == |path|)
  {
    if |path| == 1 {
    } else {
      var rest := path[1..];
      assert path[0].parent == Some(path[1]);
      forall j, k | 0 <= j && k == j + 1 < |rest| ensures rest[j].parent == Some(rest[k]) {
        assert path[j + 1].parent == Some(path[k + 1]);
      }
      PathIsAncestry(rest);
      assert forall k :: 1 <= k < |path| ==> path[k] == rest[k - 1];
    }
  }

  lemma MetByPath(path: seq<GstObject>)
    requires Climbs(path)
    ensures forall k: nat, id :: MeetsFirst(path, k, id) ==> NearestBranch(Ancestry(Some(path[0])), k, id)
    ensures MeetsNone(path) ==> NoBranch(Ancestry(Some(path[0])))
  {
    PathIsAncestry(path);
    var chain := Ancestry(Some(path[0]));
    forall k: nat, id | MeetsFirst(path, k, id) ensures NearestBranch(chain, k, id) {
      forall j, other | 0 <= j < k ensures chain[j] !in Naming.BranchNames(other) {
        assert !NamesBranch(path[j], other);
      }
    }
    if MeetsNone(path) {
      forall j, other | 0 <= j < |chain| ensures chain[j] !in Naming.BranchNames(other) {
        assert !NamesBranch(path[j], other);
      }
    }
  }

  /** The ancestry walk. It reaps exactly the nearest branch-named self or ancestor
      and quits exactly when the whole ancestry holds none. */
  method ClassifyBusMessage(msg: Message) returns (action: BusAction)
    ensures msg.Eos? ==> action == Quit
    ensures msg.Other? ==> action == Ignore
    ensures msg.Error? ==> !action.Ignore?
    ensures msg.Error? ==>
              forall id :: action == ReapBranch(id) <==> exists k :: NearestBranch(Ancestry(msg.src), k, id)
    ensures msg.Error? ==> (action == Quit <==> NoBranch(Ancestry(msg.src)))
    ensures msg == Error(None) ==> action == Quit
    ensures forall path, k, id ::
              Climbs(path) && msg == Error(Some(path[0])) && MeetsFirst(path, k, id) ==> action == ReapBranch(id)
    ensures forall path :: Climbs(path) && msg == Error(Some(path[0])) && MeetsNone(path) ==> action == Quit
  {
    forall path | Climbs(path)
      ensures forall k: nat, id :: MeetsFirst(path, k, id) ==> NearestBranch(Ancestry(Some(path[0])), k, id)
      ensures MeetsNone(path) ==> NoBranch(Ancestry(Some(path[0])))
    {
      MetByPath(path);
    }
    hide MeetsFirst, MeetsNone, Climbs;
    match msg {
      case Eos => return Quit;
      case Other => return Ignore;
      case Error(src) =>
        var cursor := src;
        ghost var chain := Ancestry(src);
        ghost var k := 0;
        while cursor.Some?
          invariant k <= |chain| && Ancestry(cursor) == chain[k..]
          invariant NoBranch(chain[..k])
          decreases cursor
        {
          var obj := cursor.value;
          assert chain[k] == obj.name;
          var found := Naming.BranchIdFromName(obj.name);
          forall id ensures found == Some(id) <==> obj.name in Naming.BranchNames(id) {
            Naming.ClassifierInvertsNames(obj.name, id);
          }
          if found.Some? {
            FirstFoundIsNearest(chain, k, found.value);
            return ReapBranch(found.value);
          }
          assert chain[..k + 1] == chain[..k] + [chain[k]];
          assert chain[k + 1..] == chain[k..][1..];
          cursor := obj.parent;
          k := k + 1;
        }
        assert chain[..k] == chain;
        return Quit;
    }
  }

  /** Nearest is unique, so the walk's answer is the only possible one. */
  lemma FirstFoundIsNearest(chain: seq<string>, k: nat, id: string)
    requires k < |chain| && NoBranch(chain[..k]) && chain[k] in Naming.BranchNames(id)
    ensures NearestBranch(chain, k, id) && !NoBranch(chain)
    ensures forall k', id' :: NearestBranch(chain, k', id') ==> k' == k && id' == id
  {
    forall j, other | 0 <= j < k ensures chain[j] !in Naming.BranchNames(other) {
      assert chain[j] == chain[..k][j];
    }
    forall k': nat, id' | NearestBranch(chain, k', id') ensures k' == k && id' == id {
      assert k' >= k && k >= k';
      Naming.BranchesShareNoName(id, id');
    }
  }

  /** Containment at the hierarchy level: an object whose ancestry below the branch
      element carries no branch name is attributed to that branch. */
  lemma NestedErrorReachesItsBranch(inner: seq<string>, kind: Naming.BranchKind, id: string, outer: seq<string>)
    requires NoBranch(inner)
    ensures NearestBranch(inner + [Naming.BranchName(kind, id)] + outer, |inner|, id)
  {
    var chain := inner + [Naming.BranchName(kind, id)] + outer;
    assert chain[..|inner|] == inner;
    assert chain[|inner|] == Naming.BranchName(kind, id);
    FirstFoundIsNearest(chain, |inner|, id);
  }

  /** A core element that sits at the top of the pipeline (its only ancestor is the
      unclassified pipeline itself) is fatal. */
  lemma CoreErrorIsFatal(core: string, above: seq<string>)
    requires core in Naming.CORE_NAMES && NoBranch(above)
    ensures NoBranch([core] + above)
  {
    forall other ensures core !in Naming.BranchNames(other) {
      Naming.BranchesShareNoName(other, other);
    }
  }
}
