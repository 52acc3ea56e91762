/** The registry of live execs, and the hook that kills the process of a closed stream. */
module ExecRegistry {
  import opened Prelude

  type StreamId = string

  const SIGTERM: int := 15
  const SIGKILL: int := 9

  datatype Record = Record(container: string, pid: int)

  datatype Signal = Signal(container: string, pid: int, signum: int)

  /** What the close hook delivers for the record it removed. */
  function HookSignals(rec: Option<Record>): seq<Signal> {
    if rec.None? then []
    else [Signal(rec.value.container, rec.value.pid, SIGTERM), Signal(rec.value.container, rec.value.pid, SIGKILL)]
  }

  class Registry {
    var inner: map<StreamId, Record>

    constructor ()
      ensures inner == map[]
    {
      inner := map[];
    }

    method Insert(id: StreamId, rec: Record)
      modifies this
      ensures Lookup(inner, id) == Some(rec)
      ensures forall other :: other != id ==> Lookup(inner, other) == old(Lookup(inner, other))
    {
      inner := inner[id := rec];
    }

    method Remove(id: StreamId) returns (rec: Option<Record>)
      modifies this
      ensures rec == old(Lookup(inner, id))
      ensures id !in inner && forall other :: other != id ==> Lookup(inner, other) == old(Lookup(inner, other))
    {
      rec := Lookup(inner, id);
      inner := inner - {id};
    }
  }

  /** Signal delivery into containers; a delivery may fail, and the caller goes on. */
  class Delivery {
    var attempts: seq<Signal>

    constructor ()
      ensures attempts == []
    {
      attempts := [];
    }

    method SignalExec(container: string, pid: int, signum: int, works: bool) returns (ok: bool)
      modifies this
      ensures attempts == old(attempts) + [Signal(container, pid, signum)]
    {
      attempts := attempts + [Signal(container, pid, signum)];
      ok := works;
    }
  }

  /** SIGTERM then SIGKILL to the stream's own process, however the deliveries fare; a second call does nothing. */
  method OnStreamClosed(runtime: Delivery, registry: Registry, id: StreamId, works: seq<bool>)
    requires |works| == 2
    modifies runtime, registry
    ensures runtime.attempts == old(runtime.attempts) + HookSignals(old(Lookup(registry.inner, id)))
    ensures id !in registry.inner
    ensures forall other :: other != id ==> Lookup(registry.inner, other) == old(Lookup(registry.inner, other))
  {
    var rec := registry.Remove(id);
    if rec.None? { return; }
    var _ := runtime.SignalExec(rec.value.container, rec.value.pid, SIGTERM, works[0]);
    var _ := runtime.SignalExec(rec.value.container, rec.value.pid, SIGKILL, works[1]);
  }

  /**
   The registry's part of one exec: its record goes in, and at the end out
   again, by itself after a natural exit and through the hook otherwise.
   */
  method RegisterUntilEnd(runtime: Delivery, registry: Registry, id: StreamId, rec: Record, natural: bool,
      works: seq<bool>)
    requires |works| == 2
    modifies runtime, registry
    ensures runtime.attempts == old(runtime.attempts) + if natural then [] else HookSignals(Some(rec))
    ensures id !in registry.inner
    ensures forall other :: other != id ==> Lookup(registry.inner, other) == old(Lookup(registry.inner, other))
  {
    registry.Insert(id, rec);
    if natural {
      var _ := registry.Remove(id);
    } else {
      OnStreamClosed(runtime, registry, id, works);
    }
  }
}
