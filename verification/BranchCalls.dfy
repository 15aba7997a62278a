/** What the branch calls of the pipeline (src/stream/gst_pipeline.rs) do to it, as their
    callers may rely on it: `BranchStore` is proved to do just that. */
module BranchCalls {
  import opened Prelude
  import opened Naming
  import opened PipelineGraph
  import opened Signaling
  import opened Ledger

  const LOCK_TIMED_OUT := "lock timed out"
  const NO_DEMUX := "Failed to find element: demux"

  /** Why an `add_branch` is refused before it touches anything. */
  function Refusal(locked: bool, slot: Option<Graph>): Option<PipelineError> {
    if !locked then Some(Transient(LOCK_TIMED_OUT))
    else if slot.None? || InputReady(slot.value) == NotYet then Some(InputNotReady)
    else if InputReady(slot.value) == NoDemux then Some(Fatal(NO_DEMUX))
    else None
  }

  /** The input is demuxed, and for each medium it has the output tee is there. */
  predicate Feeds(elements: set<string>, demuxPads: set<string>) {
    var video := exists pad :: pad in demuxPads && "video" <= pad;
    var audio := exists pad :: pad in demuxPads && "audio" <= pad;
    && "demux" in elements
    && (video || audio)
    && (video ==> "output_tee_video" in elements)
    && (audio ==> "output_tee_audio" in elements)
  }

  /** Exactly when an `add_branch` is let through, and which refusal it gets otherwise. */
  lemma RefusedExactly(locked: bool, slot: Option<Graph>)
    ensures
      var refusal := Refusal(locked, slot);
      if !locked then refusal == Some(Transient("lock timed out"))
      else if slot.None? then refusal == Some(InputNotReady)
      else if "demux" !in slot.value.elements then refusal == Some(Fatal("Failed to find element: demux"))
      else if Feeds(slot.value.elements, slot.value.demuxPads) then refusal == None
      else refusal == Some(InputNotReady)
    ensures slot.Some? && Feeds(slot.value.elements, slot.value.demuxPads) ==> "demux" in slot.value.elements
  {
  }

  /** Whether the slot holds a pipeline after an `init` or a `clean_up`. */
  function SlotAfterInit(filled: bool, ok: bool): bool {
    filled || ok
  }

  function SlotAfterCleanUp(filled: bool, ok: bool): bool {
    filled && !ok
  }

  /** From `g` to `g'` by an `add_branch` that got past the refusals. `tidy`: nothing that
      had to be removed refused to go. */
  ghost predicate Attaches(g: Graph, id: string, decode: bool, tidy: bool, outcome: Outcome, g': Graph) {
    && InputReady(g) == Ready
    && Partly(g, g', id)
    && (outcome == Returned(None) ==>
          && BranchName(WhipSink, id) !in g.elements
          && exists videoPad, audioPad :: g' == WithBranch(g, id, decode, videoPad, audioPad))
    && (outcome.Returned? && outcome.error.Some? ==> outcome.error.value.Fatal? && (tidy ==> g' == Without(g, id, {})))
  }

  /** From `g` to `g'` by a `remove_branch` that found a pipeline. */
  ghost predicate Detaches(g: Graph, id: string, tidy: bool, outcome: Outcome, g': Graph) {
    && Partly(g, g', id) && g'.elements <= g.elements
    && (outcome == Returned(None) && tidy ==> g' == Without(g, id, {}))
    && (outcome.Returned? && outcome.error.Some? ==> outcome.error.value.Fatal?)
  }

  /** Either call may also be refused, or given up while it waits for the lock. */
  ghost predicate Adds(g: Graph, id: string, decode: bool, tidy: bool, outcome: Outcome, g': Graph) {
    (g' == g && outcome != Returned(None)) || Attaches(g, id, decode, tidy, outcome, g')
  }

  ghost predicate Removes(g: Graph, id: string, tidy: bool, outcome: Outcome, g': Graph) {
    (g' == g && outcome != Returned(None)) || Detaches(g, id, tidy, outcome, g')
  }

  /** From `g` to `g'` by one call of the coordinator. */
  ghost predicate Did(cfg: Config, g: Graph, decode: bool, c: BranchCall, tidy: bool, g': Graph) {
    match c
    case AddBranch(id, call) => Adds(g, id, decode, tidy, AddOutcome(cfg, call), g')
    case RemoveBranch(id, call) => Removes(g, id, tidy, RemoveOutcome(cfg, call), g')
  }

  /** What happens to the pipeline: a call of the coordinator, or the step at which an
      earlier one was cut off, which finishes on its own thread. */
  datatype Happening = Made(c: BranchCall, tidy: bool) | LateStep(id: Id)
  {
    function Subject(): Id {
      match this
      case Made(c, _) => c.id
      case LateStep(id) => id
    }
  }

  function CallsIn(hs: seq<Happening>): seq<BranchCall> {
    if hs == [] then []
    else
      var past, h := CallsIn(hs[..|hs| - 1]), hs[|hs| - 1];
      if h.Made? then past + [h.c] else past
  }

  /** From `g` to `g'` by the next happening. Only a branch with a botched call since its last
      success has a step under way: a later `add_branch` fails as long as the whip sink, the
      last to be removed, is there. */
  ghost predicate Happened(cfg: Config, past: seq<BranchCall>, g: Graph, decode: bool, h: Happening, g': Graph) {
    match h
    case Made(c, tidy) => Did(cfg, g, decode, c, tidy, g')
    case LateStep(id) => id in Damaged(cfg, past) && Partly(g, g', id) && g'.elements <= g.elements
  }

  /** Whichever removal a botched call was cut off in, it may still happen. */
  lemma LateStepsCanHappen(cfg: Config, past: seq<BranchCall>, g: Graph, decode: bool, id: Id, name: string)
    requires WellFormed(g) && id in Damaged(cfg, past) && name in BranchNames(id)
    ensures
      var g' := if name in Queues(id) then QueueRemoved(g, name, {}) else ElementRemoved(g, name, {});
      Happened(cfg, past, g, decode, LateStep(id), g')
  {
    hide Partly;
    NothingYet(g, id);
    if name in Queues(id) {
      RemovedQueueKeepsTheRest(g, g, id, name, {});
    } else {
      RemovedElementKeepsTheRest(g, g, id, name, {});
    }
  }

  /** The pipeline's states `gs` from one happening to the next. */
  ghost predicate Worked(cfg: Config, decode: bool, hs: seq<Happening>, gs: seq<Graph>) {
    && |gs| == |hs| + 1
    && forall k :: 0 <= k < |hs| ==> Happened(cfg, CallsIn(hs[..k]), gs[k], decode, hs[k], gs[k + 1])
  }

  lemma OneMoreHappening(hs: seq<Happening>, h: Happening)
    ensures CallsIn(hs + [h]) == if h.Made? then CallsIn(hs) + [h.c] else CallsIn(hs)
  {
    assert (hs + [h])[..|hs|] == hs;
  }

  lemma HappeningsArePartial(
      cfg: Config, past: seq<BranchCall>, g: Graph, decode: bool, h: Happening, g': Graph)
    requires WellFormed(g) && Happened(cfg, past, g, decode, h, g')
    ensures Partly(g, g', h.Subject()) && WellFormed(g')
  {
    NothingYet(g, h.Subject());
  }

  lemma AllButTheLast(cfg: Config, decode: bool, hs: seq<Happening>, gs: seq<Graph>)
    requires Worked(cfg, decode, hs, gs) && hs != []
    ensures
      var n := |hs| - 1;
      && Worked(cfg, decode, hs[..n], gs[..n + 1])
      && Happened(cfg, CallsIn(hs[..n]), gs[n], decode, hs[n], gs[n + 1])
  {
    hide Happened;
    var n := |hs| - 1;
    forall k | 0 <= k < n
      ensures Happened(cfg, CallsIn(hs[..n][..k]), gs[..n + 1][k], decode, hs[..n][k], gs[..n + 1][k + 1])
    {
      assert hs[..n][..k] == hs[..k];
    }
  }

  lemma {:induction false} WorkOnOneBranchIsPartial(
      cfg: Config, decode: bool, hs: seq<Happening>, gs: seq<Graph>, id: Id)
    requires Worked(cfg, decode, hs, gs) && WellFormed(gs[0])
    requires forall k :: 0 <= k < |hs| ==> hs[k].Subject() == id
    ensures Partly(gs[0], gs[|hs|], id)
  {
    hide Partly, Happened, WellFormed;
    var n := |hs|;
    if n == 0 {
      NothingYet(gs[0], id);
    } else {
      AllButTheLast(cfg, decode, hs, gs);
      WorkOnOneBranchIsPartial(cfg, decode, hs[..n - 1], gs[..n], id);
      PartlyIsWellFormed(gs[0], gs[n - 1], id);
      HappeningsArePartial(cfg, CallsIn(hs[..n - 1]), gs[n - 1], decode, hs[n - 1], gs[n]);
      PartlyAgain(gs[0], gs[n - 1], gs[n], id);
    }
  }

  lemma PartlyIsWellFormed(start: Graph, g: Graph, id: string)
    requires Partly(start, g, id)
    ensures WellFormed(g)
  {
  }

  /** Retries converge: whatever calls on one id have been made before, whether they failed,
      broke or were cut off anywhere, the first `remove_branch` that answers Ok and finds
      everything removable gives back the pipeline they all started from. */
  lemma RetriesConverge(cfg: Config, decode: bool, hs: seq<Happening>, gs: seq<Graph>, id: Id, last: BranchCall)
    requires Worked(cfg, decode, hs, gs) && WellFormed(gs[0]) && NoBranch(gs[0], id)
    requires forall k :: 0 <= k < |hs| ==> hs[k].Subject() == id
    requires hs != [] && hs[|hs| - 1] == Made(last, true)
    requires last.RemoveBranch? && OutcomeOf(cfg, last) == Returned(None)
    ensures gs[|hs|] == gs[0]
  {
    hide Partly, Without, WellFormed;
    var n := |hs|;
    AllButTheLast(cfg, decode, hs, gs);
    WorkOnOneBranchIsPartial(cfg, decode, hs[..n - 1], gs[..n], id);
    PartlyUndone(gs[0], gs[n - 1], id, {});
  }
}
