/**
 The agent's end of the proxy tunnel: one inbound loop that starts a session per
 accepted Start frame and queues every later frame to its stream's session.
 */
module Tunnel {
  import opened Prelude
  import opened Wire
  import opened ExecRegistry
  import opened ExecSession

  /** What looking up the sandbox of a Start frame finds. */
  datatype Verdict = BadSandboxId | SandboxMissing | SandboxPaused | Admitted

  datatype Event =
    | Inbound(stream: StreamId, frame: ClientFrame, verdict: Verdict)
    | DriverDone(stream: StreamId)
    | OutboundEnd(stream: StreamId)

  /** All frames queued to a session, and whether its driver still reads. */
  datatype Channel = Channel(queued: seq<ClientFrame>, open: bool)

  datatype Routes = Routes(sessions: map<StreamId, Channel>, replies: seq<(StreamId, string)>)

  const NO_ROUTES := Routes(map[], [])

  function RefusalCode(verdict: Verdict): string {
    match verdict
    case BadSandboxId => "INVALID_REQUEST"
    case SandboxMissing => "SANDBOX_NOT_FOUND"
    case SandboxPaused => "SANDBOX_PAUSED"
    case Admitted => "STREAM_ID_REUSED"
  }

  function Route(r: Routes, e: Event): Routes {
    match e
    case Inbound(id, StartFrame, verdict) =>
      if verdict.Admitted? && id !in r.sessions then r.(sessions := r.sessions[id := Channel([StartFrame], true)])
      else r.(replies := r.replies + [(id, RefusalCode(verdict))])
    case Inbound(id, f, _) =>
      if id in r.sessions && r.sessions[id].open
      then r.(sessions := r.sessions[id := Channel(r.sessions[id].queued + [f], true)]) else r
    case DriverDone(id) =>
      if id in r.sessions then r.(sessions := r.sessions[id := r.sessions[id].(open := false)]) else r
    case OutboundEnd(id) => r.(sessions := r.sessions - {id})
  }

  function RouteAll(events: seq<Event>): Routes {
    if events == [] then NO_ROUTES else Route(RouteAll(events[..|events| - 1]), events[|events| - 1])
  }

  class ProxyConnection {
    var ioSessions: map<StreamId, Channel>
    var outbound: seq<(StreamId, string)>

    constructor ()
      ensures View() == NO_ROUTES
    {
      ioSessions, outbound := map[], [];
    }

    function View(): Routes
      reads this
    {
      Routes(ioSessions, outbound)
    }

    method HandleIoClientFrame(id: StreamId, frame: ClientFrame, verdict: Verdict)
      modifies this
      ensures View() == Route(old(View()), Inbound(id, frame, verdict))
    {
      if frame.StartFrame? {
        if verdict.BadSandboxId? {
          outbound := outbound + [(id, "INVALID_REQUEST")];
          return;
        }
        if verdict.SandboxMissing? {
          outbound := outbound + [(id, "SANDBOX_NOT_FOUND")];
          return;
        }
        if verdict.SandboxPaused? {
          outbound := outbound + [(id, "SANDBOX_PAUSED")];
          return;
        }
        var conflict := id in ioSessions;
        if conflict {
          outbound := outbound + [(id, "STREAM_ID_REUSED")];
          return;
        }
        ioSessions := ioSessions[id := Channel([frame], true)];
      } else if id in ioSessions {
        var channel := ioSessions[id];
        if channel.open {
          ioSessions := ioSessions[id := Channel(channel.queued + [frame], true)];
        }
      }
    }

    method OnDriverDone(id: StreamId)
      modifies this
      ensures View() == Route(old(View()), DriverDone(id))
    {
      if id in ioSessions { ioSessions := ioSessions[id := ioSessions[id].(open := false)]; }
    }

    method OnOutboundEnd(id: StreamId)
      modifies this
      ensures View() == Route(old(View()), OutboundEnd(id))
    {
      ioSessions := ioSessions - {id};
    }

    /** The inbound loop over one tunnel's events. */
    method Run(events: seq<Event>)
      requires View() == NO_ROUTES
      modifies this
      ensures View() == RouteAll(events)
    {
      for i := 0 to |events|
        invariant View() == RouteAll(events[..i])
      {
        assert events[..i + 1][..i] == events[..i];
        match events[i]
        case Inbound(id, f, verdict) => HandleIoClientFrame(id, f, verdict);
        case DriverDone(id) => OnDriverDone(id);
        case OutboundEnd(id) => OnOutboundEnd(id);
      }
      assert events[..|events|] == events;
    }
  }

  // ---- what a session's queue holds, from the inbound frames alone ----

  /** The frames of one stream, Starts left out, until its driver stops reading. */
  function Following(events: seq<Event>, id: StreamId): seq<ClientFrame> {
    if events == [] then []
    else
      var front, e := events[..|events| - 1], events[|events| - 1];
      Following(front, id) +
      if e.Inbound? && e.stream == id && !e.frame.StartFrame? && DriverDone(id) !in front then [e.frame] else []
  }

  predicate Accepts(e: Event, id: StreamId) {
    e.Inbound? && e.stream == id && e.frame.StartFrame? && e.verdict.Admitted?
  }

  /** The session of `id` was started by event `k` and has lived since. */
  predicate StartedAt(events: seq<Event>, id: StreamId, k: nat) {
    && k < |events| && Accepts(events[k], id)
    && OutboundEnd(id) !in events[k + 1..]
    && id !in RouteAll(events[..k]).sessions
  }

  lemma StartedEarlier(events: seq<Event>, e: Event, id: StreamId, k: nat)
    requires StartedAt(events, id, k) && e != OutboundEnd(id)
    ensures StartedAt(events + [e], id, k)
    ensures (events + [e])[k + 1..] == events[k + 1..] + [e]
  {
    assert (events + [e])[..k] == events[..k];
  }

  lemma FollowingMore(events: seq<Event>, e: Event, id: StreamId)
    ensures Following(events + [e], id) == Following(events, id) +
            if e.Inbound? && e.stream == id && !e.frame.StartFrame? && DriverDone(id) !in events then [e.frame] else []
  {
    assert (events + [e])[..|events + [e]| - 1] == events;
  }

  lemma RouteIsPerStream(r: Routes, e: Event, id: StreamId)
    requires e.stream != id
    ensures Lookup(Route(r, e).sessions, id) == Lookup(r.sessions, id)
  {
  }

  /** One more event for a live stream. */
  lemma RouteLive(r: Routes, e: Event, id: StreamId)
    requires id in r.sessions && id in Route(r, e).sessions
    ensures e != OutboundEnd(id)
    ensures Route(r, e).sessions[id] ==
            Channel(r.sessions[id].queued +
                    (if e.Inbound? && e.stream == id && !e.frame.StartFrame? && r.sessions[id].open
                     then [e.frame] else []),
                    r.sessions[id].open && e != DriverDone(id))
  {
    if e.stream != id { RouteIsPerStream(r, e, id); }
  }

  /** The channel of the session started by event `k` holds its Start and its stream's frames since. */
  predicate Carries(c: Channel, events: seq<Event>, id: StreamId, k: nat) {
    && StartedAt(events, id, k)
    && c.queued == [StartFrame] + Following(events[k + 1..], id)
    && (c.open <==> DriverDone(id) !in events[k + 1..])
  }

  lemma CarriesOn(r: Routes, events: seq<Event>, e: Event, id: StreamId, k: nat)
    requires id in r.sessions && Carries(r.sessions[id], events, id, k) && id in Route(r, e).sessions
    ensures Carries(Route(r, e).sessions[id], events + [e], id, k)
  {
    RouteLive(r, e, id);
    StartedEarlier(events, e, id, k);
    FollowingMore(events[k + 1..], e, id);
  }

  lemma OnlyStartsOpen(r: Routes, e: Event, id: StreamId)
    requires id !in r.sessions && id in Route(r, e).sessions
    ensures Accepts(e, id) && Route(r, e).sessions[id] == Channel([StartFrame], true)
  {
  }

  lemma {:induction false} CarriesFirst(events: seq<Event>, e: Event, id: StreamId)
    requires id !in RouteAll(events).sessions && id in Route(RouteAll(events), e).sessions
    ensures Carries(Route(RouteAll(events), e).sessions[id], events + [e], id, |events|)
  {
    OnlyStartsOpen(RouteAll(events), e, id);
    assert (events + [e])[..|events|] == events && (events + [e])[|events| + 1..] == [];
  }

  /** A live session holds its accepted Start and then exactly its stream's frames, in order. */
  lemma {:induction false} RoutesOwnFrames(events: seq<Event>, id: StreamId) returns (k: nat)
    requires id in RouteAll(events).sessions
    ensures Carries(RouteAll(events).sessions[id], events, id, k)
  {
    var front, e := events[..|events| - 1], events[|events| - 1];
    assert events == front + [e];
    if id in RouteAll(front).sessions {
      k := RoutesOwnFrames(front, id);
      CarriesOn(RouteAll(front), front, e, id, k);
    } else {
      k := |front|;
      CarriesFirst(front, e, id);
    }
  }

  /** A stream has a session exactly when an admitted Start found it free and its output has not ended since. */
  lemma {:induction false} LiveIffStarted(events: seq<Event>, id: StreamId)
    ensures id in RouteAll(events).sessions <==> exists k: nat :: StartedAt(events, id, k)
  {
    if id in RouteAll(events).sessions {
      var k := RoutesOwnFrames(events, id);
      assert StartedAt(events, id, k);
    } else if k: nat :| StartedAt(events, id, k) {
      StartedIsLive(events, id, k);
    }
  }

  lemma {:induction false} StartedIsLive(events: seq<Event>, id: StreamId, k: nat)
    requires StartedAt(events, id, k)
    ensures id in RouteAll(events).sessions
    decreases |events|
  {
    var front, e := events[..|events| - 1], events[|events| - 1];
    if k < |front| {
      assert front[..k] == events[..k] && events[k + 1..] == front[k + 1..] + [e];
      StartedIsLive(front, id, k);
      assert e != OutboundEnd(id);
    }
  }

  /** A Start for a free stream opens its session and is not answered, or opens none and is answered once. */
  lemma FreeStartIsDecided(events: seq<Event>, id: StreamId, verdict: Verdict)
    requires id !in RouteAll(events).sessions
    ensures var r, r' := RouteAll(events), RouteAll(events + [Inbound(id, StartFrame, verdict)]);
            if verdict.Admitted? then r' == Routes(r.sessions[id := Channel([StartFrame], true)], r.replies)
            else
              && r'.sessions == r.sessions && |r'.replies| == |r.replies| + 1 && r.replies <= r'.replies
              && var (stream, code) := r'.replies[|r.replies|];
              && stream == id
              && (code == "SANDBOX_PAUSED" <==> verdict.SandboxPaused?)
              && (code == "SANDBOX_NOT_FOUND" <==> verdict.SandboxMissing?)
              && (code == "INVALID_REQUEST" <==> verdict.BadSandboxId?)
  {
    assert (events + [Inbound(id, StartFrame, verdict)])[..|events|] == events;
  }

  lemma {:induction false} FollowingHasNoStart(events: seq<Event>, id: StreamId)
    ensures StartFrame !in Following(events, id)
  {
    if events != [] { FollowingHasNoStart(events[..|events| - 1], id); }
  }

  /**
   Any Start for a live stream is queued nowhere and answered once: as reused exactly
   when its sandbox is in order.
   */
  lemma SecondStartIsRefused(events: seq<Event>, id: StreamId, verdict: Verdict) returns (code: string)
    requires id in RouteAll(events).sessions
    ensures RouteAll(events + [Inbound(id, StartFrame, verdict)]) ==
            Routes(RouteAll(events).sessions, RouteAll(events).replies + [(id, code)])
    ensures code == "STREAM_ID_REUSED" <==> verdict.Admitted?
    ensures code == "SANDBOX_PAUSED" <==> verdict.SandboxPaused?
    ensures code == "SANDBOX_NOT_FOUND" <==> verdict.SandboxMissing?
    ensures code == "INVALID_REQUEST" <==> verdict.BadSandboxId?
  {
    code := RefusalCode(verdict);
    assert (events + [Inbound(id, StartFrame, verdict)])[..|events|] == events;
  }

  lemma {:induction false} QueueHasOneStart(events: seq<Event>, id: StreamId)
    requires id in RouteAll(events).sessions
    ensures var q := RouteAll(events).sessions[id].queued;
            q != [] && forall i :: 0 <= i < |q| ==> (q[i].StartFrame? <==> i == 0)
  {
    var k := RoutesOwnFrames(events, id);
    FollowingHasNoStart(events[k + 1..], id);
  }

  const INVALID := Failure(InvalidRequest, NOT_A_START)

  predicate InvalidOk(s: Session) {
    && (s.pc.Concluding? ==> s.pc.last != INVALID)
    && (s.pc.AwaitStart? ==> INVALID !in s.trace)
    && (INVALID in s.trace ==> s.opening != [] && !s.opening[0].StartFrame?)
  }

  lemma StepKeepsInvalid(s: Session, a: Action)
    requires InvalidOk(s) && Enabled(s, a)
    ensures InvalidOk(Step(s, a))
  {
    assert INVALID in Step(s, a).trace ==> INVALID in s.trace || INVALID in Offered(s, a);
    assert INVALID in Offered(s, a) ==> a.TakeStart?;
  }

  /** Only a first frame that is not a Start is answered as invalid. */
  lemma {:induction false} OnlyBadOpeningsAreInvalid(container: string, run: seq<Action>)
    requires Exec(container, run).Some?
    ensures InvalidOk(Exec(container, run).value)
  {
    if run != [] {
      OnlyBadOpeningsAreInvalid(container, run[..|run| - 1]);
      StepKeepsInvalid(Exec(container, run[..|run| - 1]).value, run[|run| - 1]);
    }
  }

  /** A session fed by the tunnel opens with its Start and never meets another. */
  lemma {:induction false} TunnelSessionsStartOnce(events: seq<Event>, id: StreamId, container: string,
      run: seq<Action>)
    requires id in RouteAll(events).sessions
    requires Exec(container, run).Some? && SentFrames(run) <= RouteAll(events).sessions[id].queued
    ensures StartFrame !in Exec(container, run).value.demux.consumed
    ensures INVALID !in Exec(container, run).value.trace
  {
    QueueHasOneStart(events, id);
    FramesAreFifo(container, run);
    NoDuplicateStart(container, run);
    OnlyBadOpeningsAreInvalid(container, run);
    var s := Exec(container, run).value;
    assert s.opening != [] ==> s.opening[0] == SentFrames(run)[0];
  }
}
