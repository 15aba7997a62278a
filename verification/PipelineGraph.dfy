/** GStreamer reduced to what branches depend on: named elements, request pads of tees,
    links, and the pads the demux exposes. */
module PipelineGraph {
  import opened Naming

  datatype TeePad = TeePad(tee: string, index: nat)

  /** Where a link starts: an element's own source pad, or a request pad of a tee. */
  datatype Source = Static(element: string) | FromTee(pad: TeePad)
  {
    function Owner(): string {
      if Static? then element else pad.tee
    }
  }

  datatype Link = Link(src: Source, sink: string)

  datatype Graph = Graph(elements: set<string>, demuxPads: set<string>, teePads: set<TeePad>, links: set<Link>)

  predicate Touches(l: Link, name: string) {
    l.src.Owner() == name || l.sink == name
  }

  /** `Bin::remove`: the element goes and its pads are unlinked. */
  function RemoveElement(g: Graph, name: string): Graph {
    g.(elements := g.elements - {name}, links := set l | l in g.links && !Touches(l, name))
  }

  /** `Element::remove_pad` on a tee: the pad goes and its peer is unlinked. */
  function RemoveTeePad(g: Graph, pad: TeePad): Graph {
    g.(teePads := g.teePads - {pad}, links := set l | l in g.links && l.src != FromTee(pad))
  }

  function AddLink(g: Graph, l: Link): Graph {
    g.(links := g.links + {l}, teePads := g.teePads + if l.src.FromTee? then {l.src.pad} else {})
  }

  function Queues(id: string): set<string> {
    {BranchName(VideoQueue, id), BranchName(AudioQueue, id)}
  }

  /** The demux exposes a pad of this media. */
  predicate HasMedia(g: Graph, media: string) {
    exists pad :: pad in g.demuxPads && media <= pad
  }

  datatype Readiness = NoDemux | NotYet | Ready

  /** `input_ready`: demuxed, and every demuxed medium has its output tee. */
  function InputReady(g: Graph): Readiness {
    if DEMUX !in g.elements then NoDemux
    else if !HasMedia(g, "video") && !HasMedia(g, "audio") then NotYet
    else if HasMedia(g, "video") && OUTPUT_TEE_VIDEO !in g.elements then NotYet
    else if HasMedia(g, "audio") && OUTPUT_TEE_AUDIO !in g.elements then NotYet
    else Ready
  }

  /** Links join elements that are there, tee links leave pads that are there, a branch
      queue is fed by one tee pad and by nothing else, a tee pad feeds one sink, and no
      link enters a branch from elsewhere than a tee or its own elements. */
  ghost predicate WellFormed(g: Graph) {
    && (forall l :: l in g.links ==> l.src.Owner() in g.elements && l.sink in g.elements)
    && (forall l :: l in g.links && l.src.FromTee? ==> l.src.pad in g.teePads)
    && (forall l, m :: l in g.links && m in g.links && l.src == m.src && l.src.FromTee? ==> l == m)
    && (forall l, id :: l in g.links && l.sink in Queues(id) ==> l.src.FromTee?)
    && (forall l, m, id :: l in g.links && m in g.links && l.sink == m.sink && l.sink in Queues(id) ==> l == m)
    && (forall l, id :: l in g.links && l.src.FromTee? && l.sink in BranchNames(id) ==> l.sink in Queues(id))
    && (forall l, id :: l in g.links && l.src.Owner() in BranchNames(id) ==> l.src.Static? && l.sink in BranchNames(id))
    && (forall l, id :: l in g.links && l.src.Static? && l.sink in BranchNames(id) ==> l.src.element in BranchNames(id))
  }

  /** The pipeline as if the branch `id` were not there, except for elements that refuse
      to be removed (`stuck`). */
  function Without(g: Graph, id: string, stuck: set<string>): Graph {
    var gone := BranchNames(id) - stuck;
    Graph(
      g.elements - gone,
      g.demuxPads,
      set p | p in g.teePads && forall q :: q in Queues(id) ==> Link(FromTee(p), q) !in g.links,
      set l | l in g.links && l.src.Owner() !in gone && l.sink !in gone && (l.src.Static? || l.sink !in Queues(id)))
  }

  /** One per-media queue taken out, with the tee pad that feeds it. */
  function QueueRemoved(g: Graph, queue: string, stuck: set<string>): Graph {
    Graph(
      g.elements - (if queue in stuck then {} else {queue}),
      g.demuxPads,
      set p | p in g.teePads && Link(FromTee(p), queue) !in g.links,
      set l | l in g.links && (l.src.Static? || l.sink != queue) && (queue in stuck || !Touches(l, queue)))
  }

  function ElementRemoved(g: Graph, name: string, stuck: set<string>): Graph {
    if name in stuck || name !in g.elements then g else RemoveElement(g, name)
  }

  /** What a removal may rely on: the queue is fed by at most one tee pad that feeds
      nothing else, and a queue that is not there is not linked. */
  ghost predicate FedByOnePad(g: Graph, queue: string) {
    && (forall l :: l in g.links && l.sink == queue ==> l.src.FromTee?)
    && (forall l, m :: l in g.links && m in g.links && l.sink == queue == m.sink ==> l == m)
    && (forall l, m :: l in g.links && m in g.links && l.src == m.src && l.src.FromTee? ==> l == m)
    && (forall l :: l in g.links && l.src.Owner() == queue ==> l.src.Static?)
    && (queue !in g.elements ==> forall l :: l in g.links ==> !Touches(l, queue))
  }

  lemma UnfedQueueRemoved(g: Graph, queue: string, stuck: set<string>)
    requires FedByOnePad(g, queue) && forall l :: l in g.links ==> l.sink != queue
    ensures QueueRemoved(g, queue, stuck) == ElementRemoved(g, queue, stuck)
  {
    var r, e := QueueRemoved(g, queue, stuck), ElementRemoved(g, queue, stuck);
    forall p ensures Link(FromTee(p), queue) !in g.links {
      assert Link(FromTee(p), queue).sink == queue;
    }
    assert r.teePads == e.teePads;
    assert r.links == e.links;
    assert r.elements == e.elements;
  }

  lemma FedQueueRemoved(g: Graph, queue: string, pad: TeePad, stuck: set<string>)
    requires FedByOnePad(g, queue) && Link(FromTee(pad), queue) in g.links
    ensures QueueRemoved(g, queue, stuck) == ElementRemoved(RemoveTeePad(g, pad), queue, stuck)
  {
    var feed := Link(FromTee(pad), queue);
    var r, e := QueueRemoved(g, queue, stuck), ElementRemoved(RemoveTeePad(g, pad), queue, stuck);
    forall p ensures Link(FromTee(p), queue) in g.links <==> p == pad {
      assert Link(FromTee(p), queue).sink == queue;
      assert Link(FromTee(p), queue) in g.links ==> Link(FromTee(p), queue) == feed;
    }
    assert r.teePads == e.teePads;
    forall l | l in g.links ensures l.src == FromTee(pad) <==> l.src.FromTee? && l.sink == queue {
      assert l.src == feed.src ==> l == feed;
      assert l.sink == feed.sink ==> l == feed;
    }
    assert Touches(feed, queue);
    assert r.links == e.links;
    assert r.elements == e.elements;
  }

  lemma QueuesAreFedByOnePad(g: Graph, id: string, stuck: set<string>)
    requires WellFormed(g)
    ensures FedByOnePad(g, BranchName(VideoQueue, id))
    ensures FedByOnePad(QueueRemoved(g, BranchName(VideoQueue, id), stuck), BranchName(AudioQueue, id))
  {
    hide BranchName, FedByOnePad, QueueRemoved, WellFormed;
    var vq, aq := BranchName(VideoQueue, id), BranchName(AudioQueue, id);
    OwnQueueIsFedByOnePad(g, id, vq);
    RemovedQueueKeepsWellFormed(g, id, vq, stuck);
    OwnQueueIsFedByOnePad(QueueRemoved(g, vq, stuck), id, aq);
  }

  /** Both queues taken out, said at once. */
  function QueuesRemoved(g: Graph, vq: string, aq: string, stuck: set<string>): Graph {
    Graph(
      g.elements - ({vq, aq} - stuck),
      g.demuxPads,
      set p | p in g.teePads && Link(FromTee(p), vq) !in g.links && Link(FromTee(p), aq) !in g.links,
      set l | l in g.links && (l.src.Static? || (l.sink != vq && l.sink != aq))
              && (vq in stuck || !Touches(l, vq)) && (aq in stuck || !Touches(l, aq)))
  }

  lemma QueueByQueue(g: Graph, vq: string, aq: string, stuck: set<string>)
    requires FedByOnePad(g, vq) && vq != aq
    ensures QueueRemoved(QueueRemoved(g, vq, stuck), aq, stuck) == QueuesRemoved(g, vq, aq, stuck)
  {
    var g1 := QueueRemoved(g, vq, stuck);
    var g2, r := QueueRemoved(g1, aq, stuck), QueuesRemoved(g, vq, aq, stuck);
    forall p | p in g1.teePads ensures Link(FromTee(p), aq) in g1.links <==> Link(FromTee(p), aq) in g.links {
      var feed := Link(FromTee(p), aq);
      if feed in g.links {
        assert feed.src.Owner() != vq;
      }
    }
    assert g2.teePads == r.teePads;
    assert g2.links == r.links;
    assert g2.elements == r.elements;
  }

  /** The removals of a detach, one after the other, leave the pipeline without the branch. */
  lemma RemovalsLeaveWithout(g: Graph, id: string, stuck: set<string>)
    requires WellFormed(g)
    ensures
      var vq, aq, dec, whip := BranchName(VideoQueue, id), BranchName(AudioQueue, id), BranchName(VideoDecoder, id),
        BranchName(WhipSink, id);
      var queuesGone := QueueRemoved(QueueRemoved(g, vq, stuck), aq, stuck);
      ElementRemoved(ElementRemoved(queuesGone, dec, stuck), whip, stuck) == Without(g, id, stuck)
  {
    hide BranchName, QueueRemoved;
    NamesDiffer(id);
    QueuesAreFedByOnePad(g, id, stuck);
    var vq, aq, dec, whip := BranchName(VideoQueue, id), BranchName(AudioQueue, id), BranchName(VideoDecoder, id),
      BranchName(WhipSink, id);
    QueueByQueue(g, vq, aq, stuck);
    var g2 := QueuesRemoved(g, vq, aq, stuck);
    var g4 := ElementRemoved(ElementRemoved(g2, dec, stuck), whip, stuck);
    var w := Without(g, id, stuck);
    assert g4.elements == w.elements;
    assert g4.teePads == w.teePads;
    assert g4.links == w.links by {
      RemainingLinks(g, id, stuck);
    }
  }

  /** Taking an element out, if it is there, takes its links out. */
  lemma ElementRemovedLinks(g: Graph, name: string, stuck: set<string>)
    requires forall l :: l in g.links ==> l.src.Owner() in g.elements && l.sink in g.elements
    ensures
      var r := ElementRemoved(g, name, stuck);
      && r.links == set l | l in g.links && (name in stuck || !Touches(l, name))
      && forall l :: l in r.links ==> l.src.Owner() in r.elements && l.sink in r.elements
  {
  }

  lemma RemainingLinks(g: Graph, id: string, stuck: set<string>)
    requires WellFormed(g)
    ensures
      var vq, aq := BranchName(VideoQueue, id), BranchName(AudioQueue, id);
      var dec, whip := BranchName(VideoDecoder, id), BranchName(WhipSink, id);
      ElementRemoved(ElementRemoved(QueuesRemoved(g, vq, aq, stuck), dec, stuck), whip, stuck).links ==
      Without(g, id, stuck).links
  {
    hide BranchName, ElementRemoved;
    var vq, aq := BranchName(VideoQueue, id), BranchName(AudioQueue, id);
    var dec, whip := BranchName(VideoDecoder, id), BranchName(WhipSink, id);
    var g2 := QueuesRemoved(g, vq, aq, stuck);
    ElementRemovedLinks(g2, dec, stuck);
    ElementRemovedLinks(ElementRemoved(g2, dec, stuck), whip, stuck);
  }

  /** The video leg of branch `id`, linked from tee pad `index` to its whip sink. */
  function VideoAdded(g: Graph, id: string, decode: bool, index: nat): Graph {
    var whip, vq, dec := BranchName(WhipSink, id), BranchName(VideoQueue, id), BranchName(VideoDecoder, id);
    var pad := TeePad(OUTPUT_TEE_VIDEO, index);
    Graph(
      g.elements + {vq} + (if decode then {dec} else {}),
      g.demuxPads,
      g.teePads + {pad},
      g.links + {Link(FromTee(pad), vq)}
      + if decode then {Link(Static(vq), dec), Link(Static(dec), whip)} else {Link(Static(vq), whip)})
  }

  function AudioAdded(g: Graph, id: string, index: nat): Graph {
    var whip, aq := BranchName(WhipSink, id), BranchName(AudioQueue, id);
    var pad := TeePad(OUTPUT_TEE_AUDIO, index);
    Graph(
      g.elements + {aq},
      g.demuxPads,
      g.teePads + {pad},
      g.links + {Link(FromTee(pad), aq), Link(Static(aq), whip)})
  }

  /** The pipeline with the whole branch `id` on it: the whip sink, and one linked leg for
      each demuxed medium. */
  function WithBranch(g: Graph, id: string, decode: bool, videoPad: nat, audioPad: nat): Graph {
    var g1 := g.(elements := g.elements + {BranchName(WhipSink, id)});
    var g2 := if HasMedia(g, "video") then VideoAdded(g1, id, decode, videoPad) else g1;
    if HasMedia(g, "audio") then AudioAdded(g2, id, audioPad) else g2
  }

  ghost predicate NoBranch(g: Graph, id: string) {
    BranchNames(id) !! g.elements
  }

  /** The four names of a branch differ. */
  lemma NamesDiffer(id: string)
    ensures
      var whip, vq, aq, dec := BranchName(WhipSink, id), BranchName(VideoQueue, id), BranchName(AudioQueue, id),
        BranchName(VideoDecoder, id);
      whip != vq && whip != aq && whip != dec && vq != aq && vq != dec && aq != dec
  {
    forall k, k' | BranchName(k, id) == BranchName(k', id) ensures k == k' {
      StemsNeverOverlap(k, k', id, id);
    }
  }

  /** Taking a branch away changes nothing exactly when none of its elements is there. */
  lemma WithoutAbsentBranch(g: Graph, id: string)
    requires WellFormed(g)
    ensures Without(g, id, {}) == g <==> NoBranch(g, id)
  {
    hide BranchName;
    if NoBranch(g, id) {
      var w := Without(g, id, {});
      forall p | p in g.teePads ensures p in w.teePads {
        forall q | q in Queues(id) ensures Link(FromTee(p), q) !in g.links {
          assert q in BranchNames(id);
        }
      }
      assert w.teePads == g.teePads;
      assert w.elements == g.elements;
      assert w.links == g.links;
    }
  }

  /** A second detach changes nothing. */
  lemma WithoutTwice(g: Graph, id: string, stuck: set<string>)
    ensures Without(Without(g, id, stuck), id, stuck) == Without(g, id, stuck)
  {
    hide BranchName;
    var w := Without(g, id, stuck);
    var ww := Without(w, id, stuck);
    assert ww.elements == w.elements;
    assert ww.links == w.links;
    assert ww.teePads == w.teePads;
  }

  /** Detaching clears the branch exactly if none of its elements refuses to go. */
  lemma ClearedUnlessStuck(g: Graph, id: string, stuck: set<string>)
    ensures NoBranch(Without(g, id, stuck), id) <==> stuck * BranchNames(id) * g.elements == {}
  {
    hide BranchName;
    var w := Without(g, id, stuck);
    assert w.elements * BranchNames(id) == stuck * BranchNames(id) * g.elements;
    forall name | name in BranchNames(id) ensures name in w.elements <==> name in w.elements * BranchNames(id) {
    }
  }

  /** Another viewer's elements, links and tee pads survive a detach untouched. */
  lemma OthersSurvive(g: Graph, id: string, other: string, stuck: set<string>)
    requires WellFormed(g) && id != other
    ensures
      var w := Without(g, id, stuck);
      && w.elements * BranchNames(other) == g.elements * BranchNames(other)
      && (forall l: Link :: l.src.Owner() in BranchNames(other) || l.sink in BranchNames(other) ==>
           (l in w.links <==> l in g.links))
      && (forall l :: l in g.links && l.src.FromTee? && l.sink in BranchNames(other) ==> l.src.pad in w.teePads)
  {
    hide BranchName;
    BranchesShareNoName(id, other);
    var w := Without(g, id, stuck);
    forall l | l in g.links && (l.src.Owner() in BranchNames(other) || l.sink in BranchNames(other))
      ensures l in w.links
    {
      assert l.sink in BranchNames(other);
      assert Queues(id) <= BranchNames(id);
    }
    forall l | l in g.links && l.src.FromTee? && l.sink in BranchNames(other) ensures l.src.pad in w.teePads {
      forall q | q in Queues(id) ensures Link(FromTee(l.src.pad), q) !in g.links {
        var feed := Link(FromTee(l.src.pad), q);
        assert feed in g.links ==> feed == l;
        assert q in BranchNames(id);
      }
    }
  }

  /** The core of the pipeline survives too. */
  lemma CoreSurvives(g: Graph, id: string, stuck: set<string>)
    ensures
      var w := Without(g, id, stuck);
      w.elements * CORE_NAMES == g.elements * CORE_NAMES && w.demuxPads == g.demuxPads && InputReady(w) == InputReady(g)
  {
    hide BranchName;
    BranchesShareNoName(id, id);
    var w := Without(g, id, stuck);
    forall name | name in CORE_NAMES ensures name in w.elements <==> name in g.elements {
    }
  }

  /** `g` is `start` plus some of the branch `id`: whatever else is in the pipeline is as
      it was. */
  ghost predicate Partly(start: Graph, g: Graph, id: string) {
    && WellFormed(g)
    && g.demuxPads == start.demuxPads
    && g.elements - BranchNames(id) == start.elements - BranchNames(id)
    && Without(g, id, {}) == Without(start, id, {})
  }

  lemma FreshIsUnlinked(g: Graph, name: string)
    requires WellFormed(g) && name !in g.elements
    ensures forall l :: l in g.links ==> !Touches(l, name)
  {
  }

  lemma AddKeepsWellFormed(g: Graph, name: string)
    requires WellFormed(g)
    ensures WellFormed(g.(elements := g.elements + {name}))
  {
    hide BranchName, BranchNames, Queues;
  }

  lemma AddIsInvisibleWithout(g: Graph, id: string, name: string)
    requires name in BranchNames(id)
    ensures Without(g.(elements := g.elements + {name}), id, {}) == Without(g, id, {})
  {
    hide BranchName, Queues;
    assert g.elements + {name} - (BranchNames(id) - {}) == g.elements - (BranchNames(id) - {});
  }

  lemma AddKeepsTheRest(start: Graph, g: Graph, id: string, name: string)
    requires Partly(start, g, id) && name in BranchNames(id)
    ensures Partly(start, g.(elements := g.elements + {name}), id)
  {
    hide BranchName, BranchNames, WellFormed, Without;
    AddKeepsWellFormed(g, name);
    AddIsInvisibleWithout(g, id, name);
    assert g.elements + {name} - BranchNames(id) == g.elements - BranchNames(id);
  }

  lemma LinkKeepsTheRest(start: Graph, g: Graph, id: string, l: Link)
    requires Partly(start, g, id) && l.sink in BranchNames(id) && l.sink in g.elements && l.src.Owner() in g.elements
    requires l.src.Static? ==> l.src.element in BranchNames(id) && l.sink !in Queues(id)
    requires l.src.FromTee? ==> l.sink in Queues(id) && l.src.pad !in g.teePads && l.src.pad.tee in CORE_NAMES
    requires l.src.FromTee? ==> forall m :: m in g.links ==> m.sink != l.sink
    ensures Partly(start, AddLink(g, l), id)
  {
    LinkKeepsWellFormed(g, id, l);
    LinkIsInvisibleWithout(g, id, l);
  }

  lemma NamesOfOne(name: string, id: string)
    requires name in BranchNames(id)
    ensures forall other :: name in BranchNames(other) || name in Queues(other) ==> other == id
  {
    forall other | name in BranchNames(other) || name in Queues(other) ensures other == id {
      BranchesShareNoName(id, other);
      assert Queues(other) <= BranchNames(other);
    }
  }

  lemma LinkKeepsWellFormed(g: Graph, id: string, l: Link)
    requires WellFormed(g) && l.sink in BranchNames(id) && l.sink in g.elements && l.src.Owner() in g.elements
    requires l.src.Static? ==> l.src.element in BranchNames(id) && l.sink !in Queues(id)
    requires l.src.FromTee? ==> l.sink in Queues(id) && l.src.pad !in g.teePads && l.src.pad.tee in CORE_NAMES
    requires l.src.FromTee? ==> forall m :: m in g.links ==> m.sink != l.sink
    ensures WellFormed(AddLink(g, l))
  {
    hide BranchName, BranchNames, Queues;
    NamesOfOne(l.sink, id);
    if l.src.Static? {
      NamesOfOne(l.src.element, id);
    } else {
      forall other ensures l.src.pad.tee !in BranchNames(other) {
        BranchesShareNoName(other, other);
      }
    }
  }

  lemma LinkIsInvisibleWithout(g: Graph, id: string, l: Link)
    requires WellFormed(g) && l.sink in BranchNames(id)
    requires l.src.FromTee? ==> l.sink in Queues(id) && l.src.pad !in g.teePads
    ensures Without(AddLink(g, l), id, {}) == Without(g, id, {})
  {
    hide BranchName;
    var a, b := Without(AddLink(g, l), id, {}), Without(g, id, {});
    assert a.links == b.links;
    assert a.teePads == b.teePads;
  }

  /* ----- a detach that is cut off ----- */

  lemma RemovedQueueKeepsWellFormed(g: Graph, id: string, queue: string, stuck: set<string>)
    requires WellFormed(g) && queue in Queues(id)
    ensures WellFormed(QueueRemoved(g, queue, stuck))
  {
    hide BranchName;
    assert queue in BranchNames(id);
    var r := QueueRemoved(g, queue, stuck);
    forall l | l in r.links && l.src.FromTee? ensures l.src.pad in r.teePads {
      var feed := Link(FromTee(l.src.pad), queue);
      assert feed in g.links ==> feed == l;
    }
  }

  lemma OwnQueueIsFedByOnePad(g: Graph, id: string, queue: string)
    requires WellFormed(g) && queue in Queues(id)
    ensures FedByOnePad(g, queue)
  {
    hide BranchName;
    assert queue in BranchNames(id);
  }

  lemma RemovedQueueIsInvisibleWithout(g: Graph, id: string, queue: string, stuck: set<string>)
    requires WellFormed(g) && queue in Queues(id)
    ensures Without(QueueRemoved(g, queue, stuck), id, {}) == Without(g, id, {})
  {
    hide BranchName;
    assert queue in BranchNames(id);
    var r := QueueRemoved(g, queue, stuck);
    var a, b := Without(r, id, {}), Without(g, id, {});
    forall p, q | p in r.teePads && q in Queues(id)
      ensures Link(FromTee(p), q) in r.links <==> Link(FromTee(p), q) in g.links
    {
      var feed := Link(FromTee(p), q);
      assert feed in g.links ==> feed.src.Owner() !in BranchNames(id);
    }
    assert a.teePads == b.teePads;
    assert a.links == b.links;
    assert a.elements == b.elements;
  }

  /** One removal of a detach: what is left is still the start plus some of the branch. A
      queue whose pad is released but that is not removed yet counts as stuck. */
  lemma RemovedQueueKeepsTheRest(start: Graph, g: Graph, id: string, queue: string, stuck: set<string>)
    requires Partly(start, g, id) && queue in Queues(id)
    ensures Partly(start, QueueRemoved(g, queue, stuck), id)
  {
    hide BranchName;
    RemovedQueueKeepsWellFormed(g, id, queue, stuck);
    RemovedQueueIsInvisibleWithout(g, id, queue, stuck);
    assert queue in BranchNames(id);
    assert g.elements - {queue} - BranchNames(id) == g.elements - BranchNames(id);
  }

  lemma RemovedElementKeepsTheRest(start: Graph, g: Graph, id: string, name: string, stuck: set<string>)
    requires Partly(start, g, id) && name in BranchNames(id) - Queues(id)
    ensures Partly(start, ElementRemoved(g, name, stuck), id)
  {
    hide BranchName;
    NamesOfOne(name, id);
    var r := ElementRemoved(g, name, stuck);
    assert g.elements - {name} - BranchNames(id) == g.elements - BranchNames(id);
    var a, b := Without(r, id, {}), Without(g, id, {});
    forall p, q | q in Queues(id) ensures Link(FromTee(p), q) in r.links <==> Link(FromTee(p), q) in g.links {
      var feed := Link(FromTee(p), q);
      assert feed in g.links ==> feed.src.Owner() !in BranchNames(id);
    }
    assert a.teePads == b.teePads;
    assert a.links == b.links;
    assert a.elements == b.elements;
  }

  /** Attaches and detaches of one branch cut off anywhere, one after the other, never add
      up to more than a partial attach. */
  lemma PartlyAgain(start: Graph, mid: Graph, g: Graph, id: string)
    requires Partly(start, mid, id) && Partly(mid, g, id)
    ensures Partly(start, g, id)
  {
  }

  /** What an attach keeps however far it gets (`Partly`) is enough for a detach to give back
      the pipeline the attach started from. */
  lemma PartlyUndone(start: Graph, g: Graph, id: string, stuck: set<string>)
    requires WellFormed(start) && NoBranch(start, id) && Partly(start, g, id) && stuck !! BranchNames(id)
    ensures Without(g, id, stuck) == start
  {
    WithoutAbsentBranch(start, id);
    assert BranchNames(id) - stuck == BranchNames(id) - {};
  }

  lemma NothingYet(g: Graph, id: string)
    requires WellFormed(g)
    ensures Partly(g, g, id)
  {
  }

  lemma SameWithout(g: Graph, id: string, stuck: set<string>)
    requires stuck !! BranchNames(id)
    ensures Without(g, id, stuck) == Without(g, id, {})
  {
    assert BranchNames(id) - stuck == BranchNames(id) - {};
  }

  lemma WithoutIsWellFormed(g: Graph, id: string)
    requires WellFormed(g)
    ensures WellFormed(Without(g, id, {}))
  {
    hide BranchName;
    var w := Without(g, id, {});
    forall l | l in w.links && l.src.FromTee? ensures l.src.pad in w.teePads {
      forall q | q in Queues(id) ensures Link(FromTee(l.src.pad), q) !in g.links {
        var feed := Link(FromTee(l.src.pad), q);
        assert feed in g.links ==> feed == l;
      }
    }
  }
}
