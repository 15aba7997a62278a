/** From a bus error to the one connection it costs: the bus watch (src/stream/gst_pipeline.rs)
    and the reap it triggers in the coordinator. */
module Containment {
  import opened Prelude
  import opened Signaling
  import opened Lifecycle
  import Bus

  /** The bus watch: quit the main loop, or hand the failing branch to the coordinator. A
      full or closed channel drops the report. */
  method WatchBus(msg: Bus.Message, accepts: bool) returns (quit: bool, reap: Option<Id>)
    ensures msg.Error? ==> (quit <==> Bus.NoBranch(Bus.Ancestry(msg.src)))
    ensures msg.Eos? ==> quit && reap.None?
    ensures msg.Other? ==> !quit && reap.None?
    ensures quit ==> reap.None?
    ensures msg.Error? ==>
              forall id :: reap == Some(id) <==> accepts && exists k :: Bus.NearestBranch(Bus.Ancestry(msg.src), k, id)
    ensures msg == Bus.Error(None) ==> quit
    ensures forall path, k, id ::
              Bus.Climbs(path) && msg == Bus.Error(Some(path[0])) && Bus.MeetsFirst(path, k, id) ==>
                !quit && reap == if accepts then Some(id) else None
    ensures forall path ::
              Bus.Climbs(path) && msg == Bus.Error(Some(path[0])) && Bus.MeetsNone(path) ==> quit && reap.None?
  {
    hide Bus.MeetsFirst, Bus.MeetsNone, Bus.Climbs;
    var action := Bus.ClassifyBusMessage(msg);
    match action {
      case Quit => return true, None;
      case ReapBranch(id) =>
        quit, reap := false, if accepts then Some(id) else None;
        forall other
          ensures reap == Some(other) <==> accepts && exists k :: Bus.NearestBranch(Bus.Ancestry(msg.src), k, other)
        {
          assert action == Bus.ReapBranch(other) <==> other == id;
        }
      case Ignore => return false, None;
    }
  }

  /** Containment: a reported branch failure costs at most that one connection. Every other
      entry, the watchdog and the restart channel stay exactly as they were, and so does
      every reply sender but the one parked on it. */
  lemma ReapCostsOneViewer(cfg: Config, s: State, e: Event)
    requires e.input.ReapBranch?
    ensures
      var s', id := Step(cfg, s, e), e.input.branch;
      && s'.connections == s.connections - {id}
      && s'.health == s.health && s'.restart == s.restart
      && (forall t: Ticket :: (id !in s.connections || s.connections[id].Waiter() != Some(t)) ==>
           Log(s', t) == Log(s, t))
  {
    hide AfterDelete;
    GoneShape(cfg, Awake(s, e.wait), e.dropped, e.input.branch, e.input.call);
  }
}
