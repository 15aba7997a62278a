/** One viewer's branch in the shared pipeline (src/stream/branch.rs) and the branch
    calls of the pipeline (src/stream/gst_pipeline.rs). */
module BranchStore {
  import opened Prelude
  import opened Naming
  import opened PipelineGraph
  import opened Signaling
  import opened BranchCalls

  /** Why an attach stopped: a lookup by name found nothing, or a GStreamer call failed. */
  datatype AttachError = Missing(name: string) | GstFailure

  /** Progress through an attach. `luck` is how many more GStreamer calls will succeed, so
      an attach can be made to fail at any of its calls. */
  datatype Attempt = Going(luck: nat) | Stopped(error: AttachError)
  {
    predicate IsFailure() {
      Stopped?
    }

    function PropagateFailure(): Attempt
      requires Stopped?
    {
      this
    }

    function Extract(): nat
      requires Going?
    {
      luck
    }
  }

  /** Steps of a detach: two for each queue, one for each other element. */
  const DETACH_STEPS: nat := 6

  /** How a detach goes: through; up to a queue whose pads cannot be looked up; or up to
      the step after which its caller gives up. */
  datatype Course = Completes | LookupFails(kind: BranchKind) | CutAfter(steps: nat)

  datatype Ending = Finished | Broken | GivenUp

  /** Pads are only looked up on a queue that is there. */
  predicate Breaks(elements: set<string>, id: string, course: Course) {
    && course.LookupFails?
    && course.kind in {VideoQueue, AudioQueue}
    && BranchName(course.kind, id) in elements
  }

  /** How many of its steps the detach takes. */
  function Steps(elements: set<string>, id: string, course: Course): nat {
    if Breaks(elements, id, course) then (if course.kind.VideoQueue? then 0 else 2)
    else if course.CutAfter? then course.steps
    else DETACH_STEPS
  }

  function EndingOf(elements: set<string>, id: string, course: Course): Ending {
    if Breaks(elements, id, course) then Broken
    else if Steps(elements, id, course) >= DETACH_STEPS then Finished
    else GivenUp
  }

  /** No attach makes more GStreamer calls than this. */
  const MAX_CALLS: nat := 20

  /** How many GStreamer calls an attach makes: building, adding and syncing the whip sink,
      syncing the demux, and for each medium building, adding, linking and syncing its leg. */
  function CallsOf(g: Graph, decode: bool): (calls: nat)
    ensures calls <= MAX_CALLS
  {
    4 + (if HasMedia(g, "video") then (if decode then 10 else 6) else 0) + (if HasMedia(g, "audio") then 6 else 0)
  }

  class Pipeline {
    var elements: set<string>
    var demuxPads: set<string>
    var teePads: set<TeePad>
    var links: set<Link>
    var playing: bool

    ghost function View(): Graph
      reads this
    {
      Graph(elements, demuxPads, teePads, links)
    }

    constructor (g: Graph)
      ensures View() == g && playing
    {
      playing := true;
      elements, demuxPads, teePads, links := g.elements, g.demuxPads, g.teePads, g.links;
    }

    method ByName(name: string) returns (a: Attempt)
      ensures a == if name in elements then Going(0) else Stopped(Missing(name))
    {
      a := if name in elements then Going(0) else Stopped(Missing(name));
    }

    /** Any call that touches no graph structure: building an element, syncing a state. */
    method Call(luck: nat) returns (a: Attempt)
      ensures a == if luck == 0 then Stopped(GstFailure) else Going(luck - 1)
    {
      a := if luck == 0 then Stopped(GstFailure) else Going(luck - 1);
    }

    /** `Bin::add` refuses a name that is already taken. */
    method Add(name: string, luck: nat) returns (a: Attempt)
      modifies this`elements
      ensures a == if luck == 0 || name in old(elements) then Stopped(GstFailure) else Going(luck - 1)
      ensures elements == if a.Going? then old(elements) + {name} else old(elements)
    {
      if luck == 0 || name in elements {
        return Stopped(GstFailure);
      }
      elements := elements + {name};
      return Going(luck - 1);
    }

    /** One link of a `link_many`; a failed one leaves no pad behind. */
    method Connect(src: Source, sink: string, luck: nat) returns (a: Attempt)
      modifies this`links, this`teePads
      ensures a == if luck == 0 then Stopped(GstFailure) else Going(luck - 1)
      ensures View() == if a.Going? then AddLink(old(View()), Link(src, sink)) else old(View())
    {
      if luck == 0 {
        return Stopped(GstFailure);
      }
      links := links + {Link(src, sink)};
      if src.FromTee? {
        teePads := teePads + {src.pad};
      }
      return Going(luck - 1);
    }

    /** `remove_element_from_pipeline`: a removal that fails is logged and swallowed. */
    method RemoveElementByName(name: string, stuck: set<string>)
      modifies this`elements, this`links
      ensures View() == if name in stuck then old(View()) else RemoveElement(old(View()), name)
    {
      if name !in stuck {
        elements := elements - {name};
        links := set l | l in links && !Touches(l, name);
      }
    }

    /** `remove_branch_from_pipeline`: release the tee pad that feeds the queue, if it is
        linked, then remove the queue. */
    method RemoveQueue(queue: string, stuck: set<string>)
      requires FedByOnePad(View(), queue)
      modifies this`elements, this`links, this`teePads
      ensures View() == QueueRemoved(old(View()), queue, stuck)
    {
      ghost var before := View();
      if queue !in elements {
        assert forall l :: l in links ==> !Touches(l, queue);
        UnfedQueueRemoved(before, queue, stuck);
        return;
      }
      var feeding := set l | l in links && l.sink == queue;
      if feeding != {} {
        var l :| l in feeding;
        var pad := l.src.pad;
        assert l == Link(FromTee(pad), queue);
        FedQueueRemoved(before, queue, pad, stuck);
        teePads := teePads - {pad};
        links := set m | m in links && m.src != FromTee(pad);
        assert View() == RemoveTeePad(before, pad);
        RemoveElementByName(queue, stuck);
      } else {
        assert forall l :: l in links ==> l.sink != queue by {
          assert forall l :: l in links && l.sink == queue ==> l in feeding;
        }
        UnfedQueueRemoved(before, queue, stuck);
        RemoveElementByName(queue, stuck);
      }
    }

    /** Take one queue of the branch out, if the caller is patient enough for both steps;
        between them the pad is released and the queue still there. */
    method RemoveOwnQueue(ghost start: Graph, ghost id: string, queue: string, stuck: set<string>, patience: nat)
      requires Partly(start, View(), id) && queue in Queues(id)
      modifies this`elements, this`links, this`teePads
      ensures Partly(start, View(), id) && elements <= old(elements)
      ensures patience >= 2 ==> View() == QueueRemoved(old(View()), queue, stuck)
      ensures patience == 0 ==> View() == old(View())
    {
      ghost var before := View();
      OwnQueueIsFedByOnePad(before, id, queue);
      if patience > 0 {
        var staying := if patience == 1 then stuck + {queue} else stuck;
        RemoveQueue(queue, staying);
        RemovedQueueKeepsTheRest(start, before, id, queue, staying);
      }
    }

    /** Remove one other element of the branch, if it is there. */
    method RemoveOwnElement(ghost start: Graph, ghost id: string, name: string, stuck: set<string>)
      requires Partly(start, View(), id) && name in BranchNames(id) - Queues(id)
      modifies this`elements, this`links
      ensures Partly(start, View(), id) && elements <= old(elements)
      ensures View() == ElementRemoved(old(View()), name, stuck)
    {
      RemovedElementKeepsTheRest(start, View(), id, name, stuck);
      if name in elements {
        RemoveElementByName(name, stuck);
      }
    }

    /** Remove everything the branch put into the pipeline, however far its attach got. One
        that breaks or is given up on the way leaves part of the branch, and nothing else,
        behind. */
    method Detach(id: string, stuck: set<string>, course: Course) returns (ending: Ending)
      requires WellFormed(View())
      modifies this`elements, this`links, this`teePads
      ensures ending == EndingOf(old(elements), id, course)
      ensures Partly(old(View()), View(), id) && elements <= old(elements)
      ensures ending.Finished? ==> View() == Without(old(View()), id, stuck)
      ensures course == LookupFails(VideoQueue) && BranchName(VideoQueue, id) in old(elements) ==>
                ending == Broken && View() == old(View())
      ensures course == LookupFails(AudioQueue) && BranchName(AudioQueue, id) in old(elements) ==>
                ending == Broken && View() == QueueRemoved(old(View()), BranchName(VideoQueue, id), stuck)
      ensures course.LookupFails? && BranchName(course.kind, id) !in old(elements) ==> ending == Finished
    {
      hide Partly, QueueRemoved, ElementRemoved, Without, BranchName, WellFormed;
      ghost var start := View();
      var patience := Steps(elements, id, course);
      ending := EndingOf(elements, id, course);
      NothingYet(start, id);
      NamesDiffer(id);
      RemovalsLeaveWithout(start, id, stuck);
      RemoveOwnQueue(start, id, BranchName(VideoQueue, id), stuck, patience);
      if patience > 2 {
        RemoveOwnQueue(start, id, BranchName(AudioQueue, id), stuck, patience - 2);
      }
      if patience > 4 {
        RemoveOwnElement(start, id, BranchName(VideoDecoder, id), stuck);
      }
      if patience > 5 {
        RemoveOwnElement(start, id, BranchName(WhipSink, id), stuck);
      }
    }

    /** Link a queue of the branch to its tee; both ends must be there. */
    method ConnectTee(
        ghost start: Graph, ghost id: string, tee: string, index: nat, queue: string, luck: nat) returns (a: Attempt)
      requires Partly(start, View(), id) && queue in Queues(id) && queue in elements && tee in elements
               && tee in CORE_NAMES
      requires TeePad(tee, index) !in teePads && forall l :: l in links ==> !Touches(l, queue)
      modifies this`links, this`teePads
      ensures Partly(start, View(), id)
      ensures a == if luck == 0 then Stopped(GstFailure) else Going(luck - 1)
      ensures a.Going? ==> View() == AddLink(old(View()), Link(FromTee(TeePad(tee, index)), queue))
    {
      ghost var before := View();
      var l := Link(FromTee(TeePad(tee, index)), queue);
      assert queue in BranchNames(id);
      assert forall m :: m in before.links ==> !Touches(m, queue);
      LinkKeepsTheRest(start, before, id, l);
      a := Connect(l.src, l.sink, luck);
    }

    /** Link two elements of the branch. */
    method ConnectOwn(ghost start: Graph, ghost id: string, src: string, sink: string, luck: nat) returns (a: Attempt)
      requires Partly(start, View(), id) && src in BranchNames(id) && sink in BranchNames(id) - Queues(id)
      requires src in elements && sink in elements
      modifies this`links, this`teePads
      ensures Partly(start, View(), id)
      ensures a == if luck == 0 then Stopped(GstFailure) else Going(luck - 1)
      ensures a.Going? ==> View() == AddLink(old(View()), Link(Static(src), sink))
    {
      LinkKeepsTheRest(start, View(), id, Link(Static(src), sink));
      a := Connect(Static(src), sink, luck);
    }

    /** Build one element of the branch and add it. */
    method AddOwn(ghost start: Graph, ghost id: string, name: string, luck: nat) returns (a: Attempt)
      requires Partly(start, View(), id) && name in BranchNames(id)
      modifies this`elements
      ensures Partly(start, View(), id)
      ensures a == if luck < 2 || name in old(elements) then Stopped(GstFailure) else Going(luck - 2)
      ensures a.Stopped? ==> View() == old(View())
      ensures a.Going? ==> View() == old(View()).(elements := old(elements) + {name})
      ensures a.Going? ==> forall l :: l in links ==> !Touches(l, name)
    {
      ghost var before := View();
      AddKeepsTheRest(start, before, id, name);
      if name !in elements {
        FreshIsUnlinked(before, name);
      }
      var left :- Call(luck);
      a := Add(name, left);
      if a.Going? {
        assert View() == before.(elements := before.elements + {name});
      }
    }

    /** Sync `count` element states with the pipeline's. */
    method SyncStates(count: nat, luck: nat) returns (a: Attempt)
      ensures a == if luck < count then Stopped(GstFailure) else Going(luck - count)
    {
      var left := luck;
      for k := 0 to count
        invariant left == luck - k
      {
        left :- Call(left);
      }
      a := Going(left);
    }

    /** Feed a queue that is in place through a decoder. */
    method DecodeVideo(ghost start: Graph, id: string, index: nat, luck: nat) returns (a: Attempt)
      requires Partly(start, View(), id) && TeePad(OUTPUT_TEE_VIDEO, index) !in teePads
      requires BranchName(WhipSink, id) in elements && BranchName(VideoQueue, id) in elements
      requires OUTPUT_TEE_VIDEO in elements && forall l :: l in links ==> !Touches(l, BranchName(VideoQueue, id))
      modifies this`elements, this`links, this`teePads
      ensures Partly(start, View(), id)
      ensures a.Going? ==>
                var whip, queue := BranchName(WhipSink, id), BranchName(VideoQueue, id);
                var decoder, pad := BranchName(VideoDecoder, id), TeePad(OUTPUT_TEE_VIDEO, index);
                && elements == old(elements) + {decoder} && demuxPads == old(demuxPads)
                && teePads == old(teePads) + {pad}
                && links == old(links) + {Link(FromTee(pad), queue)}
                            + {Link(Static(queue), decoder), Link(Static(decoder), whip)}
      ensures a.Stopped? ==> a.error == GstFailure
      ensures BranchName(VideoDecoder, id) !in old(elements) && luck >= 8 ==> a.Going?
      ensures a.Going? ==> a.luck + 8 == luck
    {
      hide Partly, BranchName;
      NamesDiffer(id);
      var whip, queue, decoder := BranchName(WhipSink, id), BranchName(VideoQueue, id), BranchName(VideoDecoder, id);
      var left :- AddOwn(start, id, decoder, luck);
      left :- ConnectTee(start, id, OUTPUT_TEE_VIDEO, index, queue, left);
      left :- ConnectOwn(start, id, queue, decoder, left);
      left :- ConnectOwn(start, id, decoder, whip, left);
      a := SyncStates(3, left);
    }

    /** Feed a queue that is in place straight to the whip sink. */
    method PassVideo(ghost start: Graph, id: string, index: nat, luck: nat) returns (a: Attempt)
      requires Partly(start, View(), id) && TeePad(OUTPUT_TEE_VIDEO, index) !in teePads
      requires BranchName(WhipSink, id) in elements && BranchName(VideoQueue, id) in elements
      requires OUTPUT_TEE_VIDEO in elements && forall l :: l in links ==> !Touches(l, BranchName(VideoQueue, id))
      modifies this`links, this`teePads
      ensures Partly(start, View(), id)
      ensures a.Going? ==>
                var whip, queue := BranchName(WhipSink, id), BranchName(VideoQueue, id);
                var pad := TeePad(OUTPUT_TEE_VIDEO, index);
                && teePads == old(teePads) + {pad}
                && links == old(links) + {Link(FromTee(pad), queue)} + {Link(Static(queue), whip)}
      ensures a.Stopped? ==> a.error == GstFailure
      ensures a == if luck >= 4 then Going(luck - 4) else Stopped(GstFailure)
    {
      hide Partly, BranchName;
      NamesDiffer(id);
      var left :- ConnectTee(start, id, OUTPUT_TEE_VIDEO, index, BranchName(VideoQueue, id), luck);
      left :- ConnectOwn(start, id, BranchName(VideoQueue, id), BranchName(WhipSink, id), left);
      a := SyncStates(2, left);
    }

    /** The video block of `attach`. */
    method AttachVideo(ghost start: Graph, id: string, decode: bool, index: nat, luck: nat) returns (a: Attempt)
      requires Partly(start, View(), id) && BranchName(WhipSink, id) in elements
      requires TeePad(OUTPUT_TEE_VIDEO, index) !in teePads
      modifies this`elements, this`links, this`teePads
      ensures Partly(start, View(), id)
      ensures a.Going? ==> View() == VideoAdded(old(View()), id, decode, index)
      ensures a.Stopped? && a.error.Missing? ==> OUTPUT_TEE_VIDEO !in old(elements)
      ensures
        var own := {BranchName(VideoQueue, id)} + if decode then {BranchName(VideoDecoder, id)} else {};
        var calls := if decode then 10 else 6;
        && (OUTPUT_TEE_VIDEO in old(elements) && own !! old(elements) && luck >= calls ==> a.Going?)
        && (a.Going? ==> a.luck + calls == luck)
    {
      hide Partly, BranchName;
      NamesDiffer(id);
      ghost var before := View();
      var found :- ByName(OUTPUT_TEE_VIDEO);
      var left :- AddOwn(start, id, BranchName(VideoQueue, id), luck);
      if decode {
        a := DecodeVideo(start, id, index, left);
      } else {
        a := PassVideo(start, id, index, left);
      }
      if a.Stopped? {
        return;
      }
      assert View().links == VideoAdded(before, id, decode, index).links;
      assert View().elements == VideoAdded(before, id, decode, index).elements;
      assert View().teePads == VideoAdded(before, id, decode, index).teePads;
    }

    /** The audio block of `attach`. */
    method AttachAudio(ghost start: Graph, id: string, index: nat, luck: nat) returns (a: Attempt)
      requires Partly(start, View(), id) && BranchName(WhipSink, id) in elements
      requires TeePad(OUTPUT_TEE_AUDIO, index) !in teePads
      modifies this`elements, this`links, this`teePads
      ensures Partly(start, View(), id)
      ensures a.Going? ==> View() == AudioAdded(old(View()), id, index)
      ensures a.Stopped? && a.error.Missing? ==> OUTPUT_TEE_AUDIO !in old(elements)
      ensures OUTPUT_TEE_AUDIO in old(elements) && BranchName(AudioQueue, id) !in old(elements) && luck >= 6 ==>
              a.Going?
      ensures a.Going? ==> a.luck + 6 == luck
    {
      hide Partly, BranchName;
      NamesDiffer(id);
      ghost var before := View();
      var whip, queue := BranchName(WhipSink, id), BranchName(AudioQueue, id);
      var found :- ByName(OUTPUT_TEE_AUDIO);
      var left :- AddOwn(start, id, queue, luck);
      left :- ConnectTee(start, id, OUTPUT_TEE_AUDIO, index, queue, left);
      left :- ConnectOwn(start, id, queue, whip, left);
      a := SyncStates(2, left);
      assert View().links == AudioAdded(before, id, index).links;
      assert View().elements == AudioAdded(before, id, index).elements;
      assert View().teePads == AudioAdded(before, id, index).teePads;
    }

    /** Create the viewer's elements and link each demuxed medium. However far it gets, the
        rest of the pipeline is as it was; if it succeeds the whole branch is there; it
        misses an element by name only if the input was not ready; and on a ready input it
        succeeds for a new id unless a GStreamer call fails. */
    method Attach(id: string, decode: bool, videoPad: nat, audioPad: nat, luck: nat) returns (a: Attempt)
      requires WellFormed(View())
      requires TeePad(OUTPUT_TEE_VIDEO, videoPad) !in teePads && TeePad(OUTPUT_TEE_AUDIO, audioPad) !in teePads
      modifies this`elements, this`links, this`teePads
      ensures Partly(old(View()), View(), id)
      ensures a.Going? ==> View() == WithBranch(old(View()), id, decode, videoPad, audioPad)
      ensures a.Stopped? && a.error.Missing? ==> InputReady(old(View())) == NoDemux || InputReady(old(View())) == NotYet
      ensures BranchName(WhipSink, id) in old(elements) ==> a.Stopped?
      ensures InputReady(old(View())) == Ready && NoBranch(old(View()), id) && luck >= CallsOf(old(View()), decode) ==>
              a.Going?
      ensures a.Going? ==> a.luck + CallsOf(old(View()), decode) == luck
    {
      hide Partly, BranchName, WellFormed, Without;
      ghost var start := View();
      NothingYet(start, id);
      TeesAreNoBranchNames(id);
      NamesDiffer(id);
      var found :- ByName(DEMUX);
      var left :- AddOwn(start, id, BranchName(WhipSink, id), luck);
      if exists pad :: pad in demuxPads && "video" <= pad {
        left :- AttachVideo(start, id, decode, videoPad, left);
      }
      if exists pad :: pad in demuxPads && "audio" <= pad {
        left :- AttachAudio(start, id, audioPad, left);
      }
      a := SyncStates(2, left);
    }
  }

  lemma UndoneBranch(start: Graph, partial: Graph, id: string, stuck: set<string>)
    requires WellFormed(start) && Partly(start, partial, id) && stuck !! BranchNames(id)
    ensures Without(partial, id, stuck) == Without(start, id, {}) && WellFormed(Without(start, id, {}))
    ensures Without(start, id, {}) == start <==> NoBranch(start, id)
  {
    SameWithout(partial, id, stuck);
    WithoutIsWellFormed(start, id);
    WithoutAbsentBranch(start, id);
  }

  lemma TeesAreNoBranchNames(id: string)
    ensures BranchNames(id) !! {DEMUX, OUTPUT_TEE_VIDEO, OUTPUT_TEE_AUDIO}
    ensures OUTPUT_TEE_VIDEO != OUTPUT_TEE_AUDIO
  {
    BranchesShareNoName(id, id);
  }

  /** The pipeline as the coordinator and the supervisor share it: a slot that holds a
      pipeline only between `init` and `clean_up`, behind a timed lock. */
  class SharablePipeline {
    var pipeline: Pipeline?
    /** There is a main loop to quit. */
    var looping: bool
    const decodeVideo: bool

    /** What is in the slot. */
    ghost function Slot(): Option<Graph>
      reads this, pipeline
    {
      if pipeline == null then None else Some(pipeline.View())
    }

    constructor (decodeVideo: bool)
      ensures pipeline == null && !looping && this.decodeVideo == decodeVideo
    {
      pipeline := null;
      looping := false;
      this.decodeVideo := decodeVideo;
    }

    /** The part of `add_branch` that works on the pipeline: attach, and detach again what
        a failed attach left. Only the detach can be cut off. */
    method AttachOrUndo(
        p: Pipeline, id: string, luck: nat, videoPad: nat, audioPad: nat, stuck: set<string>, course: Course)
      returns (ok: bool, ending: Ending)
      requires WellFormed(p.View()) && InputReady(p.View()) == Ready
      requires TeePad(OUTPUT_TEE_VIDEO, videoPad) !in p.teePads && TeePad(OUTPUT_TEE_AUDIO, audioPad) !in p.teePads
      modifies p`elements, p`links, p`teePads
      ensures Partly(old(p.View()), p.View(), id)
      ensures BranchName(WhipSink, id) in old(p.elements) ==> !ok
      ensures NoBranch(old(p.View()), id) && luck >= MAX_CALLS ==> ok
      ensures ok ==> ending.Finished? && p.View() == WithBranch(old(p.View()), id, decodeVideo, videoPad, audioPad)
      ensures !ok && course.Completes? ==> ending.Finished?
      ensures ending.GivenUp? ==> course.CutAfter?
      ensures ending.Broken? ==> course.LookupFails?
      ensures !ok && ending.Finished? && stuck !! BranchNames(id) ==>
                && p.View() == Without(old(p.View()), id, {})
                && (p.View() == old(p.View()) <==> NoBranch(old(p.View()), id))
    {
      hide WithBranch, Without, BranchName, WellFormed;
      ghost var start := p.View();
      var attempt := p.Attach(id, decodeVideo, videoPad, audioPad, luck);
      ghost var partial := p.View();
      assert Partly(start, partial, id) && WellFormed(partial);
      ok, ending := attempt.Going?, Finished;
      if !ok {
        ending := p.Detach(id, stuck, course);
        PartlyAgain(start, partial, p.View(), id);
        if stuck !! BranchNames(id) {
          UndoneBranch(start, partial, id, stuck);
        }
      }
    }

    /** `add_branch`. Between runs it is refused as not ready. Otherwise it either puts
        exactly the whole branch in, or reports an error and takes out everything the id
        names. That is no change exactly if the id had no element in the pipeline: adding a
        live id again fails and tears the live branch down. Cut off by the caller's timeout
        it may leave part of the branch, and nothing else, behind. */
    method AddBranch(
        id: string, locked: bool, luck: nat, videoPad: nat, audioPad: nat, stuck: set<string>, course: Course)
      returns (outcome: Outcome)
      requires pipeline != null ==>
                 && WellFormed(pipeline.View())
                 && TeePad(OUTPUT_TEE_VIDEO, videoPad) !in pipeline.teePads
                 && TeePad(OUTPUT_TEE_AUDIO, audioPad) !in pipeline.teePads
      modifies if pipeline == null then {} else {pipeline}
      ensures Refusal(locked, old(Slot())).Some? ==>
              outcome == Returned(Refusal(locked, old(Slot()))) && Slot() == old(Slot())
      ensures Refusal(locked, old(Slot())).None? ==>
                pipeline != null
                && (var tidy := stuck !! BranchNames(id) && !course.LookupFails?;
                    Attaches(old(pipeline.View()), id, decodeVideo, tidy, outcome, pipeline.View()))
      ensures Refusal(locked, old(Slot())).None? && NoBranch(old(pipeline.View()), id) && luck >= MAX_CALLS ==>
              outcome == Returned(None)
      ensures !locked ==> outcome == Returned(Some(Transient("lock timed out")))
      ensures locked ==>
                (outcome == Returned(Some(InputNotReady)) <==>
                 || pipeline == null
                 || ("demux" in old(pipeline.elements) && !Feeds(old(pipeline.elements), old(pipeline.demuxPads))))
      ensures locked && pipeline != null && NoBranch(old(pipeline.View()), id) && luck >= MAX_CALLS ==>
                (outcome == Returned(None) <==> Feeds(old(pipeline.elements), old(pipeline.demuxPads)))
      ensures Refusal(locked, old(Slot())).None? && outcome != Returned(None) && course.Completes?
              && stuck !! BranchNames(id) ==>
                (pipeline.View() == old(pipeline.View()) <==> NoBranch(old(pipeline.View()), id))
      ensures outcome.CutOff? ==> course.CutAfter?
    {
      hide WithBranch, Without, BranchName, WellFormed, Partly, Feeds;
      RefusedExactly(locked, Slot());
      if !locked {
        return Returned(Some(Transient(LOCK_TIMED_OUT)));
      }
      if pipeline == null {
        return Returned(Some(InputNotReady));
      }
      var state := InputReady(Graph(pipeline.elements, pipeline.demuxPads, pipeline.teePads, pipeline.links));
      if state == NoDemux {
        return Returned(Some(Fatal(NO_DEMUX)));
      }
      if state == NotYet {
        return Returned(Some(InputNotReady));
      }
      var ok, ending := AttachOrUndo(pipeline, id, luck, videoPad, audioPad, stuck, course);
      outcome :=
        if ending.GivenUp? then CutOff else if ok then Returned(None) else Returned(Some(Fatal("attach failed")));
    }

    /** `remove_branch`. It answers Ok even when elements refuse to be removed. Broken or cut
        off, it leaves part of the branch, and nothing else, behind. */
    method RemoveBranch(id: string, locked: bool, stuck: set<string>, course: Course) returns (outcome: Outcome)
      requires pipeline != null ==> WellFormed(pipeline.View())
      modifies if pipeline == null then {} else {pipeline}
      ensures !locked || pipeline == null ==>
                outcome.Returned? && outcome.error.Some? && outcome.error.value.Transient? && Slot() == old(Slot())
      ensures locked && pipeline != null ==>
                && Detaches(old(pipeline.View()), id, stuck !! BranchNames(id), outcome, pipeline.View())
                && (outcome.CutOff? ==> course.CutAfter?)
                && (course.Completes? ==> outcome == Returned(None))
                && (course.CutAfter? ==> outcome == if course.steps >= 6 then Returned(None) else CutOff)
                && (course.LookupFails? && BranchName(course.kind, id) !in old(pipeline.elements) ==>
                      outcome == Returned(None))
      ensures locked && pipeline != null && course == LookupFails(VideoQueue)
              && BranchName(VideoQueue, id) in old(pipeline.elements) ==>
                outcome == Returned(Some(Fatal("Failed to find element"))) && Slot() == old(Slot())
      ensures locked && pipeline != null && course == LookupFails(AudioQueue)
              && BranchName(AudioQueue, id) in old(pipeline.elements) ==>
                && outcome == Returned(Some(Fatal("Failed to find element")))
                && pipeline.View() == QueueRemoved(old(pipeline.View()), BranchName(VideoQueue, id), stuck)
      ensures outcome == Returned(None) ==>
              pipeline != null && pipeline.View() == Without(old(pipeline.View()), id, stuck)
    {
      hide Without, BranchName, WellFormed, Partly;
      if !locked {
        return Returned(Some(Transient(LOCK_TIMED_OUT)));
      }
      if pipeline == null {
        return Returned(Some(Transient("Pipeline is not initialized")));
      }
      ghost var before := pipeline.View();
      var ending := pipeline.Detach(id, stuck, course);
      if stuck !! BranchNames(id) {
        SameWithout(before, id, stuck);
      }
      match ending {
        case Finished => return Returned(None);
        case Broken => return Returned(Some(Fatal("Failed to find element")));
        case GivenUp => return CutOff;
      }
    }

    /** `clean_up` empties the slot, so every later `add_branch` is refused until `init`
        fills it again, forgets the main loop, and stops the pipeline it took out. */
    method CleanUp(locked: bool) returns (ok: bool)
      modifies this, if pipeline == null then {} else {pipeline}
      ensures ok == locked
      ensures (pipeline != null) == SlotAfterCleanUp(old(pipeline != null), ok)
      ensures ok ==> !looping && (old(pipeline) != null ==> !old(pipeline).playing)
      ensures !ok ==> pipeline == old(pipeline) && looping == old(looping)
                      && (pipeline != null ==> pipeline.playing == old(pipeline.playing))
    {
      if locked {
        looping := false;
        var taken := pipeline;
        pipeline := null;
        if taken != null {
          taken.playing := false;
        }
      }
      return locked;
    }

    /** The end of `init`: the new pipeline is stored last, so a failed init leaves the
        slot as it was. */
    method Init(g: Graph, fails: bool) returns (ok: bool)
      modifies this
      ensures ok == !fails && looping == old(looping)
      ensures (pipeline != null) == SlotAfterInit(old(pipeline != null), ok)
      ensures fails ==> pipeline == old(pipeline)
      ensures ok ==> pipeline != null && fresh(pipeline) && pipeline.View() == g && pipeline.playing
    {
      if fails {
        return false;
      }
      pipeline := new Pipeline(g);
      return true;
    }
  }
}
