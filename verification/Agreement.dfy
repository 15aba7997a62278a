/** Map and pipeline together: what the coordinator's runs and the branch calls they make
    say about the graph of one pipeline. */
module Agreement {
  import opened Prelude
  import opened Naming
  import opened PipelineGraph
  import opened Signaling
  import opened Ledger
  import opened BranchCalls
  import opened Invariants
  import opened Rebase

  /* ----- the pipeline under all branches ----- */

  predicate OfNoBranch(name: string) {
    BranchIdFromName(name).None?
  }

  predicate BranchFree(g: Graph) {
    forall e :: e in g.elements ==> OfNoBranch(e)
  }

  /** The pipeline with every branch taken away, whatever its id. */
  function Core(g: Graph): Graph {
    Graph(
      (set e | e in g.elements && OfNoBranch(e)),
      g.demuxPads,
      (set p | p in g.teePads && forall l :: l in g.links && l.src == FromTee(p) ==> OfNoBranch(l.sink)),
      set l | l in g.links && OfNoBranch(l.src.Owner()) && OfNoBranch(l.sink))
  }

  lemma BranchNamesAreOfABranch(name: string, id: string)
    requires name in BranchNames(id)
    ensures !OfNoBranch(name)
  {
    ClassifierInvertsNames(name, id);
  }

  lemma CoreIsUnderOneBranch(g: Graph, id: string)
    requires WellFormed(g)
    ensures Core(Without(g, id, {})) == Core(g)
  {
    hide BranchName, OfNoBranch;
    var w := Without(g, id, {});
    forall name | name in BranchNames(id) ensures !OfNoBranch(name) {
      BranchNamesAreOfABranch(name, id);
    }
    assert Queues(id) <= BranchNames(id);
    assert Core(w).elements == Core(g).elements;
    assert Core(w).links == Core(g).links;
    forall p | p in Core(w).teePads ensures p in Core(g).teePads {
      forall l | l in g.links && l.src == FromTee(p) ensures OfNoBranch(l.sink) {
        assert l == Link(FromTee(p), l.sink);
        if l.sink !in Queues(id) {
          assert l in w.links;
        }
      }
    }
    forall p | p in Core(g).teePads ensures p in Core(w).teePads {
      forall q | q in Queues(id) ensures Link(FromTee(p), q) !in g.links {
        assert Link(FromTee(p), q).sink == q;
      }
    }
    assert Core(w).teePads == Core(g).teePads;
  }

  lemma CallsKeepTheCore(g: Graph, g': Graph, id: string)
    requires WellFormed(g) && Partly(g, g', id)
    ensures Core(g') == Core(g)
  {
    hide Without, Core, WellFormed;
    CoreIsUnderOneBranch(g, id);
    CoreIsUnderOneBranch(g', id);
  }

  lemma CoreOfBranchFree(g: Graph)
    requires WellFormed(g) && BranchFree(g)
    ensures Core(g) == g
  {
    hide OfNoBranch;
    assert Core(g).elements == g.elements;
    assert Core(g).links == g.links;
    assert Core(g).teePads == g.teePads;
  }

  /* ----- a whole branch ----- */

  ghost predicate VideoLeg(g: Graph, id: string, decode: bool, index: nat) {
    var whip, vq, dec := BranchName(WhipSink, id), BranchName(VideoQueue, id), BranchName(VideoDecoder, id);
    && vq in g.elements
    && TeePad(OUTPUT_TEE_VIDEO, index) in g.teePads
    && Link(FromTee(TeePad(OUTPUT_TEE_VIDEO, index)), vq) in g.links
    && if decode then dec in g.elements && Link(Static(vq), dec) in g.links && Link(Static(dec), whip) in g.links
       else Link(Static(vq), whip) in g.links
  }

  ghost predicate AudioLeg(g: Graph, id: string, index: nat) {
    var whip, aq := BranchName(WhipSink, id), BranchName(AudioQueue, id);
    && aq in g.elements
    && TeePad(OUTPUT_TEE_AUDIO, index) in g.teePads
    && Link(FromTee(TeePad(OUTPUT_TEE_AUDIO, index)), aq) in g.links
    && Link(Static(aq), whip) in g.links
  }

  /** The whip sink is there, and for each demuxed medium a leg linked all the way from its
      tee to it. */
  ghost predicate Whole(g: Graph, id: string, decode: bool) {
    && BranchName(WhipSink, id) in g.elements
    && (HasMedia(g, "video") ==> exists index :: VideoLeg(g, id, decode, index))
    && (HasMedia(g, "audio") ==> exists index :: AudioLeg(g, id, index))
  }

  lemma AddedIsWhole(g: Graph, id: string, decode: bool, videoPad: nat, audioPad: nat)
    ensures Whole(WithBranch(g, id, decode, videoPad, audioPad), id, decode)
  {
    hide BranchName;
    var g' := WithBranch(g, id, decode, videoPad, audioPad);
    assert HasMedia(g', "video") == HasMedia(g, "video") && HasMedia(g', "audio") == HasMedia(g, "audio");
    if HasMedia(g, "video") {
      assert VideoLeg(g', id, decode, videoPad);
    }
    if HasMedia(g, "audio") {
      assert AudioLeg(g', id, audioPad);
    }
  }

  /** A call on one branch keeps every link into another, with the pad it may start from. */
  lemma OtherLinksStay(g: Graph, g': Graph, other: string, id: string, l: Link)
    requires WellFormed(g) && Partly(g, g', other) && other != id && l in g.links && l.sink in BranchNames(id)
    ensures l in g'.links && (l.src.FromTee? ==> l.src.pad in g'.teePads)
  {
    hide BranchName;
    BranchesShareNoName(id, other);
    assert Queues(other) <= BranchNames(other);
    assert l in Without(g, other, {}).links;
    assert l in Without(g', other, {}).links;
  }

  lemma OtherElementsStay(g: Graph, g': Graph, other: string, id: string, name: string)
    requires Partly(g, g', other) && other != id && name in BranchNames(id)
    ensures name in g'.elements <==> name in g.elements
  {
    hide BranchName, Without, WellFormed;
    BranchesShareNoName(id, other);
    assert name in g.elements - BranchNames(other) <==> name in g'.elements - BranchNames(other);
  }

  lemma OtherLegsStay(g: Graph, g': Graph, other: string, id: string, decode: bool, index: nat)
    requires WellFormed(g) && Partly(g, g', other) && other != id
    ensures VideoLeg(g, id, decode, index) ==> VideoLeg(g', id, decode, index)
    ensures AudioLeg(g, id, index) ==> AudioLeg(g', id, index)
  {
    hide BranchName, Partly, WellFormed;
    var whip, vq, aq := BranchName(WhipSink, id), BranchName(VideoQueue, id), BranchName(AudioQueue, id);
    var dec := BranchName(VideoDecoder, id);
    forall l | l in g.links && l.sink in BranchNames(id)
      ensures l in g'.links && (l.src.FromTee? ==> l.src.pad in g'.teePads)
    {
      OtherLinksStay(g, g', other, id, l);
    }
    forall name | name in BranchNames(id) ensures name in g'.elements <==> name in g.elements {
      OtherElementsStay(g, g', other, id, name);
    }
    if VideoLeg(g, id, decode, index) {
      assert Link(FromTee(TeePad(OUTPUT_TEE_VIDEO, index)), vq).src.pad in g'.teePads;
    }
    if AudioLeg(g, id, index) {
      assert Link(FromTee(TeePad(OUTPUT_TEE_AUDIO, index)), aq).src.pad in g'.teePads;
    }
  }

  /** A whole branch survives every call on another. */
  lemma WholeSurvives(g: Graph, g': Graph, other: string, id: string, decode: bool)
    requires WellFormed(g) && Partly(g, g', other) && other != id && Whole(g, id, decode)
    ensures Whole(g', id, decode)
  {
    hide BranchName, WellFormed, Without, VideoLeg, AudioLeg;
    OtherElementsStay(g, g', other, id, BranchName(WhipSink, id));
    assert g'.demuxPads == g.demuxPads;
    if HasMedia(g, "video") {
      var index :| VideoLeg(g, id, decode, index);
      OtherLegsStay(g, g', other, id, decode, index);
    }
    if HasMedia(g, "audio") {
      var index :| AudioLeg(g, id, index);
      OtherLegsStay(g, g', other, id, decode, index);
    }
  }

  lemma OthersStayAbsent(g: Graph, g': Graph, other: string, id: string)
    requires Partly(g, g', other) && other != id
    ensures NoBranch(g', id) <==> NoBranch(g, id)
  {
    hide BranchName, BranchNames, Partly;
    forall name | name in BranchNames(id) ensures name in g'.elements <==> name in g.elements {
      OtherElementsStay(g, g', other, id, name);
    }
  }

  /* ----- what the calls leave in the pipeline ----- */

  /** The ids that may have elements in the pipeline without being attached: an add was cut
      off or could not be undone, or a removal left something that refused to go. */
  function Leftovers(cfg: Config, hs: seq<Happening>): set<Id> {
    if hs == [] then {}
    else LeftoversAfter(cfg, Leftovers(cfg, hs[..|hs| - 1]), hs[|hs| - 1])
  }

  function LeftoversAfter(cfg: Config, past: set<Id>, h: Happening): set<Id> {
    if h.LateStep? then past
    else
      var outcome := OutcomeOf(cfg, h.c);
      if outcome == Returned(None) then (if h.c.AddBranch? || h.tidy then past - {h.c.id} else past + {h.c.id})
      else if h.c.AddBranch? && outcome.Botched() && (outcome.CutOff? || !h.tidy) then past + {h.c.id}
      else past
  }

  /** The happening may have left elements of `id` that no entry accounts for. */
  predicate Litters(cfg: Config, h: Happening, id: Id) {
    && h.Made?
    && (|| AddCutOff(cfg, h.c, id)
        || (!h.tidy && AddBreaks(cfg, h.c, id))
        || (!h.tidy && RemovesOk(cfg, h.c, id)))
  }

  /** The happening accounts for all elements of `id`: its branch was added, or all removed. */
  predicate Settles(cfg: Config, h: Happening, id: Id) {
    h.Made? && (AddsOk(cfg, h.c, id) || (h.tidy && RemovesOk(cfg, h.c, id)))
  }

  /** Left over: littered, and not settled since. */
  lemma {:induction false} LeftoversExactly(cfg: Config, hs: seq<Happening>, id: Id)
    ensures id in Leftovers(cfg, hs) <==>
            exists k :: 0 <= k < |hs| && Litters(cfg, hs[k], id)
                        && forall j :: k < j < |hs| ==> !Settles(cfg, hs[j], id)
  {
    if hs == [] {
    } else {
      var n := |hs| - 1;
      LeftoversExactly(cfg, hs[..n], id);
      assert forall k :: 0 <= k < n ==> hs[..n][k] == hs[k];
      if Litters(cfg, hs[n], id) {
        assert id in Leftovers(cfg, hs);
      }
    }
  }

  /** A new pipeline as `init` leaves it, linked however it likes among its own elements, has
      the shape that branch calls keep. */
  lemma NewPipelinesAreWellFormed(g: Graph)
    requires BranchFree(g)
    requires forall l :: l in g.links ==> l.src.Static? && l.src.element in g.elements && l.sink in g.elements
    ensures WellFormed(g)
  {
    hide BranchName;
    forall l, id | l in g.links ensures l.sink !in BranchNames(id) && l.src.Owner() !in BranchNames(id) {
      if l.sink in BranchNames(id) {
        BranchNamesAreOfABranch(l.sink, id);
      }
      if l.src.Owner() in BranchNames(id) {
        BranchNamesAreOfABranch(l.src.Owner(), id);
      }
    }
    assert forall id :: Queues(id) <= BranchNames(id);
  }

  /** Every attached and undamaged branch is whole, and no element belongs to any id that is
      neither attached nor left over. */
  ghost predicate Agrees(g: Graph, decode: bool, attached: set<Id>, damaged: set<Id>, leftovers: set<Id>) {
    && WellFormed(g)
    && (forall id :: id in attached && id !in damaged ==> Whole(g, id, decode))
    && (forall id :: !NoBranch(g, id) ==> id in attached || id in leftovers)
  }

  ghost predicate AgreesWithCalls(cfg: Config, g: Graph, decode: bool, hs: seq<Happening>) {
    Agrees(g, decode, Attached(cfg, CallsIn(hs)), Damaged(cfg, CallsIn(hs)), Leftovers(cfg, hs))
  }

  lemma WithoutHasNone(g: Graph, id: string)
    ensures NoBranch(Without(g, id, {}), id)
  {
  }

  /** What a call does to its own branch. */
  lemma OwnBranch(cfg: Config, g: Graph, decode: bool, c: BranchCall, tidy: bool, g': Graph)
    requires WellFormed(g) && Did(cfg, g, decode, c, tidy, g')
    ensures
      var outcome := OutcomeOf(cfg, c);
      && (outcome == Returned(None) && c.AddBranch? ==>
           Whole(g', c.id, decode) && BranchName(WhipSink, c.id) !in g.elements)
      && (outcome != Returned(None) && !outcome.Botched() ==> g' == g)
      && (outcome == Returned(None) && c.RemoveBranch? && tidy ==> NoBranch(g', c.id))
      && (outcome != Returned(None) && c.RemoveBranch? && NoBranch(g, c.id) ==> NoBranch(g', c.id))
      && (c.AddBranch? && outcome.Returned? && outcome.error.Some? && tidy && NoBranch(g, c.id) ==> NoBranch(g', c.id))
  {
    hide BranchName, BranchNames, WellFormed, Whole, Without, Partly, WithBranch;
    WithoutHasNone(g, c.id);
    forall v, a ensures Whole(WithBranch(g, c.id, decode, v, a), c.id, decode) {
      AddedIsWhole(g, c.id, decode, v, a);
    }
  }

  /** A happening leaves every other branch as it was. */
  lemma OthersAgree(cfg: Config, past: seq<BranchCall>, g: Graph, decode: bool, h: Happening, g': Graph)
    requires WellFormed(g) && Happened(cfg, past, g, decode, h, g')
    ensures WellFormed(g')
    ensures forall id :: id != h.Subject() ==> (NoBranch(g', id) <==> NoBranch(g, id))
    ensures forall id :: id != h.Subject() && Whole(g, id, decode) ==> Whole(g', id, decode)
  {
    hide WellFormed, Whole, NoBranch, Partly, Happened;
    HappeningsArePartial(cfg, past, g, decode, h, g');
    forall id | id != h.Subject()
      ensures (NoBranch(g', id) <==> NoBranch(g, id)) && (Whole(g, id, decode) ==> Whole(g', id, decode))
    {
      OthersStayAbsent(g, g', h.Subject(), id);
      if Whole(g, id, decode) {
        WholeSurvives(g, g', h.Subject(), id, decode);
      }
    }
  }

  lemma OneMoreCallAgrees(
      cfg: Config, g: Graph, decode: bool, hs: seq<Happening>, c: BranchCall, tidy: bool, g': Graph)
    requires AgreesWithCalls(cfg, g, decode, hs) && Did(cfg, g, decode, c, tidy, g')
    ensures AgreesWithCalls(cfg, g', decode, hs + [Made(c, tidy)])
  {
    hide BranchName, BranchNames, Did, WellFormed, Whole, NoBranch, Partly, Attached, Damaged, TeardownFailed, CallsIn;
    var h := Made(c, tidy);
    OneMoreHappening(hs, h);
    OneMoreCall(cfg, CallsIn(hs), c);
    assert (hs + [h])[..|hs|] == hs;
    OwnBranch(cfg, g, decode, c, tidy, g');
    OthersAgree(cfg, CallsIn(hs), g, decode, h, g');
  }

  lemma LateStepAgrees(cfg: Config, g: Graph, decode: bool, hs: seq<Happening>, id: Id, g': Graph)
    requires AgreesWithCalls(cfg, g, decode, hs) && Happened(cfg, CallsIn(hs), g, decode, LateStep(id), g')
    ensures AgreesWithCalls(cfg, g', decode, hs + [LateStep(id)])
  {
    hide BranchName, BranchNames, WellFormed, Whole, Partly, Attached, Damaged, TeardownFailed, CallsIn;
    OneMoreHappening(hs, LateStep(id));
    assert (hs + [LateStep(id)])[..|hs|] == hs;
    OthersAgree(cfg, CallsIn(hs), g, decode, LateStep(id), g');
  }

  lemma NothingAgrees(cfg: Config, g: Graph, decode: bool)
    requires WellFormed(g) && BranchFree(g)
    ensures AgreesWithCalls(cfg, g, decode, [])
  {
    hide BranchName, OfNoBranch;
    forall id ensures NoBranch(g, id) {
      forall name | name in BranchNames(id) ensures name !in g.elements {
        BranchNamesAreOfABranch(name, id);
      }
    }
  }

  /** Over any sequence of branch calls, however they fail, the pipeline under the branches
      stays as it was, and the branches are what the history of calls says. */
  lemma {:induction false} CallsAgree(cfg: Config, decode: bool, hs: seq<Happening>, gs: seq<Graph>)
    requires Worked(cfg, decode, hs, gs) && WellFormed(gs[0]) && BranchFree(gs[0])
    ensures AgreesWithCalls(cfg, gs[|hs|], decode, hs) && Core(gs[|hs|]) == gs[0]
  {
    hide AgreesWithCalls, Happened, Core, Partly, WellFormed, BranchFree;
    var n := |hs|;
    if n == 0 {
      NothingAgrees(cfg, gs[0], decode);
      CoreOfBranchFree(gs[0]);
      assert hs == [];
    } else {
      var past, h := hs[..n - 1], hs[n - 1];
      AllButTheLast(cfg, decode, hs, gs);
      CallsAgree(cfg, decode, past, gs[..n]);
      assert hs == past + [h];
      AgreementIsWellFormed(cfg, gs[n - 1], decode, past);
      OneMoreAgrees(cfg, gs[n - 1], decode, past, h, gs[n]);
      HappeningsArePartial(cfg, CallsIn(past), gs[n - 1], decode, h, gs[n]);
      CallsKeepTheCore(gs[n - 1], gs[n], h.Subject());
    }
  }

  lemma OneMoreAgrees(cfg: Config, g: Graph, decode: bool, hs: seq<Happening>, h: Happening, g': Graph)
    requires AgreesWithCalls(cfg, g, decode, hs) && Happened(cfg, CallsIn(hs), g, decode, h, g')
    ensures AgreesWithCalls(cfg, g', decode, hs + [h])
  {
    hide AgreesWithCalls, Did, Partly;
    match h
    case Made(c, tidy) => OneMoreCallAgrees(cfg, g, decode, hs, c, tidy, g');
    case LateStep(id) => LateStepAgrees(cfg, g, decode, hs, id, g');
  }

  lemma AgreementIsWellFormed(cfg: Config, g: Graph, decode: bool, hs: seq<Happening>)
    requires AgreesWithCalls(cfg, g, decode, hs)
    ensures WellFormed(g)
  {
  }

  /* ----- the coordinator and its pipeline ----- */

  /** The happenings `hs`, through the pipeline's states `gs`, are those of the `calls` made
      on a pipeline that was new then. */
  ghost predicate OnANewPipeline(
      cfg: Config, decode: bool, calls: seq<BranchCall>, hs: seq<Happening>, gs: seq<Graph>)
  {
    CallsIn(hs) == calls && Worked(cfg, decode, hs, gs) && WellFormed(gs[0]) && BranchFree(gs[0])
  }

  /** The pipeline `g` is what the map and its orphans say, given the `calls` made on it: each
      live connection has its whole branch in it unless a teardown of it failed midway, and
      every branch element belongs to a live connection, an orphan or a leftover. */
  ghost predicate MapAgrees(
      cfg: Config, decode: bool, s: State, calls: seq<BranchCall>, hs: seq<Happening>, g: Graph)
  {
    && (forall id :: id in s.connections && !TeardownFailed(cfg, calls, id) ==> Whole(g, id, decode))
    && (forall id :: !NoBranch(g, id) ==>
          id in s.connections || (id in s.orphans && id in Attached(cfg, calls)) || id in Leftovers(cfg, hs))
  }

  /** Map and pipeline agree over every run from a state with an empty map, such as a clean
      run boundary, however the branch calls on the new pipeline come out; and under the
      branches the pipeline stays as it was. */
  lemma MapAndPipelineAgree(
      cfg: Config, decode: bool, start: State, events: seq<Event>, n: nat, hs: seq<Happening>, gs: seq<Graph>)
    requires Inv(cfg, start) && start.connections == map[] && Possible(cfg, start, events) && n <= |events|
    requires OnANewPipeline(cfg, decode, CallsSince(start, At(cfg, start, events, n)), hs, gs)
    ensures
      var s := At(cfg, start, events, n);
      MapAgrees(cfg, decode, s, CallsSince(start, s), hs, gs[|hs|]) && Core(gs[|hs|]) == gs[0]
  {
    hide At, Possible, Worked, Whole, NoBranch, Core, Leftovers, TeardownFailed, Damaged, Attached, Inv;
    BooksFrom(cfg, start, events, n);
    WorkedLengths(cfg, decode, hs, gs);
    CallsAgree(cfg, decode, hs, gs);
  }

  lemma WorkedLengths(cfg: Config, decode: bool, hs: seq<Happening>, gs: seq<Graph>)
    requires Worked(cfg, decode, hs, gs)
    ensures |gs| == |hs| + 1
  {
  }

  /** Nothing leaks: once every connection has left without an orphan or a leftover, the
      pipeline is exactly the one the run began with. */
  lemma NothingLeaks(
      cfg: Config, decode: bool, start: State, events: seq<Event>, n: nat, hs: seq<Happening>, gs: seq<Graph>)
    requires Inv(cfg, start) && start.connections == map[] && Possible(cfg, start, events) && n <= |events|
    requires OnANewPipeline(cfg, decode, CallsSince(start, At(cfg, start, events, n)), hs, gs)
    requires
      var s := At(cfg, start, events, n);
      s.connections == map[] && s.orphans !! Attached(cfg, CallsSince(start, s)) && Leftovers(cfg, hs) == {}
    ensures gs[|hs|] == gs[0]
  {
    hide At, Possible, Worked, Whole, Core, Leftovers, TeardownFailed, Damaged, Attached, AgreesWithCalls, Inv;
    WorkedLengths(cfg, decode, hs, gs);
    MapAndPipelineAgree(cfg, decode, start, events, n, hs, gs);
    CallsAgree(cfg, decode, hs, gs);
    AgreementIsWellFormed(cfg, gs[|hs|], decode, hs);
    EmptyIsBranchFree(gs[|hs|]);
    CoreOfBranchFree(gs[|hs|]);
  }

  lemma EmptyIsBranchFree(g: Graph)
    requires forall id :: NoBranch(g, id)
    ensures BranchFree(g)
  {
    forall e | e in g.elements ensures OfNoBranch(e) {
      forall id ensures BranchIdFromName(e) != Some(id) {
        assert NoBranch(g, id);
        ClassifierInvertsNames(e, id);
      }
    }
  }

  /** No id ever has two branches: an `add_branch` for one whose branch is still whole, a
      live one's or an orphan's, never answers Ok. */
  lemma WholeBranchesAreNotAddedAgain(
      cfg: Config, decode: bool, hs: seq<Happening>, gs: seq<Graph>, c: BranchCall, tidy: bool)
    requires Worked(cfg, decode, hs, gs) && WellFormed(gs[0]) && BranchFree(gs[0])
    requires hs != [] && hs[|hs| - 1] == Made(c, tidy) && c.AddBranch?
    requires c.id in Attached(cfg, CallsIn(hs[..|hs| - 1])) - Damaged(cfg, CallsIn(hs[..|hs| - 1]))
    ensures OutcomeOf(cfg, c) != Returned(None)
  {
    hide Did, Partly, WellFormed, BranchFree, VideoLeg, AudioLeg, Damaged, Attached, Leftovers, BranchName, CallsIn;
    var n := |hs| - 1;
    AllButTheLast(cfg, decode, hs, gs);
    CallsAgree(cfg, decode, hs[..n], gs[..n + 1]);
    OwnBranch(cfg, gs[n], decode, c, tidy, gs[n + 1]);
  }
}
