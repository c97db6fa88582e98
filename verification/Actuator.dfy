/**
  The infrastructure actuator in the form of its source: it persists a status around the runs of the ensurer. What it
  persists is what the events of World.dfy persist.
 */
module Actuator {
  import opened Basics
  import opened Protocol
  import opened World
  import opened Ensurer

  class Infrastructure {
    const spec: Spec
    /** The provider status. */
    var creationStarted: Option<bool>
    var nsxtInfraState: Option<State>

    constructor (spec: Spec)
      ensures this.spec == spec && Persisted() == Status(None, None)
    {
      this.spec, creationStarted, nsxtInfraState := spec, None, None;
    }

    function Persisted(): Status
      reads this
    {
      Status(creationStarted, nsxtInfraState)
    }

    function AsMember(): Member
      reads this
    {
      Member(spec, Persisted(), None)
    }

    method UpdateProviderStatus(state: Option<State>, started: bool, written: bool)
      modifies this
      ensures Persisted() == if written then Status(Some(started), state) else old(Persisted())
    {
      if written { creationStarted, nsxtInfraState := Some(started), state; }
    }

    /** reconcile. The inputs say what works: preparing, the connection, the early status write, the final one; and what
        the API answers. The status is the one after the events Reconcile, the calls, and Finish; if the run panics,
        the one before it. */
    method Reconcile(prepared: bool, connected: bool, early: bool, kept: bool, script: seq<Resp>, draws: seq<Draw>)
      returns (ok: bool, ghost told: seq<Resp>)
      modifies this
      ensures var m := StartReconcile(old(AsMember()), prepared, connected, early);
              if m.run.None? then !ok && Persisted() == m.status
              else
                var run := Replay(spec, m.run.value, told);
                && run.Some? && (run.value.Finished? || run.value.Panicked?)
                && (run.value.Finished? ==>
                      Persisted() == Persist(m.(run := run), kept).status && (ok <==> run.value.ok && kept))
                && (run.value.Panicked? ==> Persisted() == m.status && !ok)
    {
      told := [];
      var state := nsxtInfraState;
      var err := !prepared;
      if creationStarted != Some(true) {
        if !err { err := !connected; }
        UpdateProviderStatus(state, !err, early);
        if err || !early { return false, told; }
      }
      if err { return false, told; }
      var s := new InfraState(state.GetOr(State(spec.nsxt3, false, map[], None)));
      var api := new Api(spec, script, draws, StartCreate(spec, s.View()));
      var ensurer := new InfraEnsurer(api);
      var outcome := ensurer.EnsureInfrastructure(s);
      told := api.told;
      if outcome.Crashed? { return false, told; }
      UpdateProviderStatus(Some(s.View()), true, kept);
      ok := outcome.Success? && kept;
    }

    /** delete. Without a state, or before creation has started, there is nothing to do. */
    method Delete(prepared: bool, kept: bool, script: seq<Resp>, draws: seq<Draw>)
      returns (ok: bool, ghost told: seq<Resp>)
      modifies this
      ensures var m := StartDeletion(old(AsMember()), prepared);
              if m.run.None? then Persisted() == old(Persisted()) && (ok <==> NothingToDelete(old(Persisted())))
              else
                var run := Replay(spec, m.run.value, told);
                && run.Some? && (run.value.Finished? || run.value.Panicked?)
                && (run.value.Finished? ==>
                      Persisted() == Persist(m.(run := run), kept).status && (ok <==> run.value.ok && kept))
                && (run.value.Panicked? ==> Persisted() == m.status && !ok)
    {
      told := [];
      var state := nsxtInfraState;
      if state.None? || creationStarted != Some(true) { return true, told; }
      if !prepared { return false, told; }
      var s := new InfraState(state.value);
      var api := new Api(spec, script, draws, StartDelete(spec, s.View()));
      var ensurer := new InfraEnsurer(api);
      var outcome := ensurer.EnsureInfrastructureDeleted(s);
      told := api.told;
      if outcome.Crashed? { return false, told; }
      UpdateProviderStatus(Some(s.View()), true, kept);
      ok := outcome.Success? && kept;
    }
  }
}
