/** What the history of pipeline calls says about each viewer's branch. */
module Ledger {
  import opened Prelude
  import opened Signaling

  function OutcomeOf(cfg: Config, c: BranchCall): Outcome {
    match c
    case AddBranch(_, call) => AddOutcome(cfg, call)
    case RemoveBranch(_, call) => RemoveOutcome(cfg, call)
  }

  /** The ids whose `add_branch` answered Ok and whose `remove_branch` has not since. */
  function Attached(cfg: Config, calls: seq<BranchCall>): set<Id> {
    if calls == [] then {}
    else
      var past, c := Attached(cfg, calls[..|calls| - 1]), calls[|calls| - 1];
      if OutcomeOf(cfg, c) != Returned(None) then past
      else if c.AddBranch? then past + {c.id}
      else past - {c.id}
  }

  /** The ids whose branch a later call may have left in pieces. */
  function Damaged(cfg: Config, calls: seq<BranchCall>): set<Id> {
    if calls == [] then {}
    else
      var past, c := Damaged(cfg, calls[..|calls| - 1]), calls[|calls| - 1];
      if OutcomeOf(cfg, c) == Returned(None) then past - {c.id}
      else if OutcomeOf(cfg, c).Botched() then past + {c.id}
      else past
  }

  /** A teardown of `id` has failed midway since its branch was last added. */
  predicate TeardownFailed(cfg: Config, calls: seq<BranchCall>, id: Id) {
    calls != [] &&
    var past, c := calls[..|calls| - 1], calls[|calls| - 1];
    if c.id != id then TeardownFailed(cfg, past, id)
    else if c.RemoveBranch? then OutcomeOf(cfg, c).Botched() || TeardownFailed(cfg, past, id)
    else OutcomeOf(cfg, c) != Returned(None) && TeardownFailed(cfg, past, id)
  }

  lemma OneMoreCall(cfg: Config, calls: seq<BranchCall>, c: BranchCall)
    ensures Attached(cfg, calls + [c]) ==
            if OutcomeOf(cfg, c) != Returned(None) then Attached(cfg, calls)
            else if c.AddBranch? then Attached(cfg, calls) + {c.id}
            else Attached(cfg, calls) - {c.id}
    ensures Damaged(cfg, calls + [c]) ==
            if OutcomeOf(cfg, c) == Returned(None) then Damaged(cfg, calls) - {c.id}
            else if OutcomeOf(cfg, c).Botched() then Damaged(cfg, calls) + {c.id}
            else Damaged(cfg, calls)
    ensures forall id :: TeardownFailed(cfg, calls + [c], id) ==
                         if c.id != id then TeardownFailed(cfg, calls, id)
                         else if c.RemoveBranch? then OutcomeOf(cfg, c).Botched() || TeardownFailed(cfg, calls, id)
                         else OutcomeOf(cfg, c) != Returned(None) && TeardownFailed(cfg, calls, id)
  {
    assert (calls + [c])[..|calls|] == calls;
  }

  /* ----- the same, read off the raw calls ----- */

  /** The call is an `add_branch` of `id` that answered Ok. */
  predicate AddsOk(cfg: Config, c: BranchCall, id: Id) {
    c.AddBranch? && c.id == id && c.call.error.None? && c.call.lock <= cfg.teardownTimeout
  }

  /** The call is a `remove_branch` of `id` that answered Ok in time. */
  predicate RemovesOk(cfg: Config, c: BranchCall, id: Id) {
    c.RemoveBranch? && c.id == id && c.call.error.None? && c.call.lock + c.call.detach <= cfg.teardownTimeout
  }

  /** The call is a `remove_branch` of `id` that was cut off or broke. */
  predicate RemovalBreaks(cfg: Config, c: BranchCall, id: Id) {
    && c.RemoveBranch? && c.id == id
    && (c.call.lock + c.call.detach > cfg.teardownTimeout || (c.call.error.Some? && c.call.error.value.Fatal?))
  }

  /** The call is an `add_branch` of `id` that was cut off where it waits. */
  predicate AddCutOff(cfg: Config, c: BranchCall, id: Id) {
    && c.AddBranch? && c.id == id
    && (|| c.call.lock > cfg.teardownTimeout
        || (c.call.error.Some? && c.call.detach > 0
            && c.call.lock + c.call.attach + c.call.detach > cfg.teardownTimeout))
  }

  predicate AddBreaks(cfg: Config, c: BranchCall, id: Id) {
    AddCutOff(cfg, c, id) || (c.AddBranch? && c.id == id && c.call.error.Some? && c.call.error.value.Fatal?)
  }

  /** Attached: added, and not removed since. */
  lemma {:induction false} AttachedExactly(cfg: Config, calls: seq<BranchCall>, id: Id)
    ensures id in Attached(cfg, calls) <==>
            exists k :: 0 <= k < |calls| && AddsOk(cfg, calls[k], id)
                        && forall j :: k < j < |calls| ==> !RemovesOk(cfg, calls[j], id)
  {
    if calls == [] {
    } else {
      var n := |calls| - 1;
      AttachedExactly(cfg, calls[..n], id);
      assert forall k :: 0 <= k < n ==> calls[..n][k] == calls[k];
      if AddsOk(cfg, calls[n], id) {
        assert id in Attached(cfg, calls);
      }
    }
  }

  /** Damaged: botched by a call, and no call on it has succeeded since. */
  lemma {:induction false} DamagedExactly(cfg: Config, calls: seq<BranchCall>, id: Id)
    ensures id in Damaged(cfg, calls) <==>
            exists k :: 0 <= k < |calls| && (AddBreaks(cfg, calls[k], id) || RemovalBreaks(cfg, calls[k], id))
                        && forall j :: k < j < |calls| ==>
                                         !AddsOk(cfg, calls[j], id) && !RemovesOk(cfg, calls[j], id)
  {
    if calls == [] {
    } else {
      var n := |calls| - 1;
      DamagedExactly(cfg, calls[..n], id);
      assert forall k :: 0 <= k < n ==> calls[..n][k] == calls[k];
      if AddBreaks(cfg, calls[n], id) || RemovalBreaks(cfg, calls[n], id) {
        assert id in Damaged(cfg, calls);
      }
    }
  }

  /** A teardown has failed midway: one broke, and the branch has not been added since. */
  lemma {:induction false} TeardownFailedExactly(cfg: Config, calls: seq<BranchCall>, id: Id)
    ensures TeardownFailed(cfg, calls, id) <==>
            exists k :: 0 <= k < |calls| && RemovalBreaks(cfg, calls[k], id)
                        && forall j :: k < j < |calls| ==> !AddsOk(cfg, calls[j], id)
  {
    if calls == [] {
    } else {
      var n := |calls| - 1;
      TeardownFailedExactly(cfg, calls[..n], id);
      assert forall k :: 0 <= k < n ==> calls[..n][k] == calls[k];
      if RemovalBreaks(cfg, calls[n], id) {
        assert TeardownFailed(cfg, calls, id);
      }
    }
  }
}
