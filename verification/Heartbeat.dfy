/**
  Heartbeats with explicit integer time: when a member is declared stale, and
  when a tick forgives everyone because the process seems to have been suspended.
  */
module Heartbeat {
  import opened Common

  datatype Registry = Registry(states: map<string, int>, lastTick: Option<int>)

  datatype Limits = Limits(interval: int, timeout: int)

  datatype Event =
    | Register(session: string, at: int)
    | Pong(session: string, at: int)
    | Remove(session: string, at: int)
    | Handoff(at: int)
    | Tick(at: int)

  /** The first tick of a registry and a tick after a gap of more than two intervals forgive everyone. */
  predicate Suspended(r: Registry, now: int, limits: Limits) {
    r.lastTick.None? || now - r.lastTick.value > limits.interval * 2
  }

  function StaleAt(r: Registry, now: int, limits: Limits): set<string> {
    if Suspended(r, now, limits) then {}
    else set s | s in r.states && now - r.states[s] > limits.timeout
  }

  function AfterTick(r: Registry, now: int, limits: Limits): Registry {
    Registry(if Suspended(r, now, limits) then map s | s in r.states :: now else r.states, Some(now))
  }

  function Step(r: Registry, e: Event, limits: Limits): Registry {
    match e
    case Register(s, at) => r.(states := r.states[s := at])
    case Pong(s, at) => if s in r.states then r.(states := r.states[s := at]) else r
    case Remove(s, _) => r.(states := r.states - {s})
    case Handoff(_) => r.(lastTick := None)
    case Tick(at) => AfterTick(r, at, limits)
  }

  /** The state after a history, newest event last. */
  function After(history: seq<Event>, limits: Limits): Registry {
    if history == [] then Registry(map[], None)
    else Step(After(history[..|history| - 1], limits), history[|history| - 1], limits)
  }

  predicate Timely(history: seq<Event>) {
    forall i, j :: 0 <= i < j < |history| ==> history[i].at <= history[j].at
  }

  /** Event `i` shows that `session` is alive, or forgives it. */
  predicate IsSign(history: seq<Event>, i: nat, session: string, limits: Limits)
    requires i < |history|
  {
    match history[i]
    case Register(s, _) => s == session
    case Pong(s, _) => s == session
    case Tick(at) => Suspended(After(history[..i], limits), at, limits)
    case _ => false
  }

  lemma SignsOfPrefix(history: seq<Event>, e: Event, i: nat, session: string, limits: Limits)
    requires i < |history|
    ensures IsSign(history + [e], i, session, limits) == IsSign(history, i, session, limits)
  {
    assert (history + [e])[..i] == history[..i];
  }

  /** The registered time is the newest sign of life in the history. */
  lemma {:induction false} NewestSign(history: seq<Event>, session: string, limits: Limits)
    requires Timely(history) && session in After(history, limits).states
    ensures var t := After(history, limits).states[session];
            && (exists i :: 0 <= i < |history| && IsSign(history, i, session, limits) && history[i].at == t)
            && (forall i | 0 <= i < |history| && IsSign(history, i, session, limits) :: history[i].at <= t)
  {
    var n := |history| - 1;
    var front, e := history[..n], history[n];
    assert history == front + [e];
    var before, now := After(front, limits), After(history, limits);
    var t := now.states[session];
    forall i | 0 <= i < n ensures IsSign(history, i, session, limits) == IsSign(front, i, session, limits) {
      SignsOfPrefix(front, e, i, session, limits);
    }
    if IsSign(history, n, session, limits) && (e.Pong? ==> session in before.states) {
      assert t == e.at;
    } else {
      NewestSign(front, session, limits);
      var i :| 0 <= i < |front| && IsSign(front, i, session, limits) && front[i].at == t;
      assert IsSign(history, i, session, limits) && history[i].at == t;
    }
  }

  /**
    Declared stale exactly when the tick is not a forgiving one and no
    registration, pong or forgiving tick fell within the last timeout.
    */
  lemma StaleIffSilent(history: seq<Event>, now: int, session: string, limits: Limits)
    requires Timely(history) && session in After(history, limits).states
    ensures session in StaleAt(After(history, limits), now, limits) <==>
            && !Suspended(After(history, limits), now, limits)
            && (forall i | 0 <= i < |history| && IsSign(history, i, session, limits) ::
                  now - history[i].at > limits.timeout)
  {
    NewestSign(history, session, limits);
  }

  /** A tick of the history, and no handoff after it. */
  predicate TicksSinceHandoff(history: seq<Event>, i: nat)
    requires i < |history|
  {
    history[i].Tick? && forall j :: i < j < |history| ==> !history[j].Handoff?
  }

  lemma {:induction false} LastTickFacts(history: seq<Event>, limits: Limits)
    requires Timely(history)
    ensures
      var r := After(history, limits);
      && (r.lastTick.Some? ==>
            exists i :: 0 <= i < |history| && TicksSinceHandoff(history, i) && history[i].at == r.lastTick.value)
      && (forall i | 0 <= i < |history| && TicksSinceHandoff(history, i) ::
            r.lastTick.Some? && history[i].at <= r.lastTick.value)
  {
    if history != [] {
      var n := |history| - 1;
      var front, e := history[..n], history[n];
      LastTickFacts(front, limits);
      forall i | 0 <= i < n ensures TicksSinceHandoff(history, i) <==> TicksSinceHandoff(front, i) && !e.Handoff? {
        assert forall j :: i < j < n ==> front[j] == history[j];
      }
      var before := After(front, limits);
      if e.Tick? {
        assert TicksSinceHandoff(history, n);
      } else if !e.Handoff? && before.lastTick.Some? {
        var i :| 0 <= i < |front| && TicksSinceHandoff(front, i) && front[i].at == before.lastTick.value;
        assert TicksSinceHandoff(history, i) && history[i].at == front[i].at;
      }
    }
  }

  /**
    A tick forgives everyone if and only if every tick since the last handoff is more
    than two intervals ago, so also when there was none.
    */
  lemma ForgivesIff(history: seq<Event>, now: int, limits: Limits)
    requires Timely(history)
    ensures Suspended(After(history, limits), now, limits)
            <==> forall i | 0 <= i < |history| && TicksSinceHandoff(history, i) ::
                   now - history[i].at > 2 * limits.interval
  {
    LastTickFacts(history, limits);
  }

  /** What it does: no one is stale, and everyone has a fresh sign of life. */
  lemma ForgivingTick(r: Registry, now: int, limits: Limits)
    requires Suspended(r, now, limits)
    ensures StaleAt(r, now, limits) == {}
    ensures AfterTick(r, now, limits).states.Keys == r.states.Keys
    ensures forall s | s in r.states :: AfterTick(r, now, limits).states[s] == now
  {
  }

  predicate RegisteredAt(history: seq<Event>, i: nat, session: string)
    requires i < |history|
  {
    && history[i].Register? && history[i].session == session
    && forall j :: i < j < |history| ==> !(history[j].Remove? && history[j].session == session)
  }

  /** A member is watched if and only if it was registered and has not been removed since. */
  lemma {:induction false} WatchedIff(history: seq<Event>, session: string, limits: Limits)
    ensures session in After(history, limits).states
            <==> exists i :: 0 <= i < |history| && RegisteredAt(history, i, session)
  {
    if history != [] {
      var n := |history| - 1;
      var front, e := history[..n], history[n];
      WatchedIff(front, session, limits);
      var removed := e.Remove? && e.session == session;
      forall i | 0 <= i < n ensures RegisteredAt(history, i, session) <==> RegisteredAt(front, i, session) && !removed {
        assert forall j :: i < j < n ==> front[j] == history[j];
      }
      if e.Register? && e.session == session {
        assert RegisteredAt(history, n, session);
      } else if session in After(history, limits).states {
        var i :| 0 <= i < |front| && RegisteredAt(front, i, session);
        assert RegisteredAt(history, i, session);
      }
    }
  }

  // ----- the bound on detection -----

  predicate Touches(e: Event, session: string) {
    match e
    case Register(s, _) => s == session
    case Pong(s, _) => s == session
    case Remove(s, _) => s == session
    case Handoff(_) => true
    case Tick(_) => false
  }

  /** No event touches `session`, and ticks follow each other (and `last`) by at most two intervals. */
  predicate SilentRun(events: seq<Event>, session: string, last: int, limits: Limits)
    decreases |events|
  {
    events == [] ||
    (&& !Touches(events[0], session)
     && (events[0].Tick? ==> last <= events[0].at <= last + limits.interval * 2)
     && SilentRun(events[1..], session, if events[0].Tick? then events[0].at else last, limits))
  }

  function RunFrom(r: Registry, events: seq<Event>, limits: Limits): Registry
    decreases |events|
  {
    if events == [] then r else RunFrom(Step(r, events[0], limits), events[1..], limits)
  }

  /** Some tick of the run declares `session` stale, at `bound` at the latest. */
  ghost predicate DeclaredBy(r: Registry, events: seq<Event>, session: string, bound: int, limits: Limits)
    decreases |events|
  {
    events != [] &&
    ((events[0].Tick? && events[0].at <= bound && session in StaleAt(r, events[0].at, limits))
     || DeclaredBy(Step(r, events[0], limits), events[1..], session, bound, limits))
  }

  predicate HasTickAfter(events: seq<Event>, limit: int) {
    exists e | e in events :: e.Tick? && e.at > limit
  }

  /**
    A silent member is declared stale within the timeout plus two intervals of its
    last sign of life, as long as ticks keep coming at most two intervals apart.
    */
  lemma {:induction false} DetectedInTime(r: Registry, events: seq<Event>, session: string, limits: Limits)
    requires session in r.states && r.lastTick.Some?
    requires r.lastTick.value <= r.states[session] + limits.timeout
    requires SilentRun(events, session, r.lastTick.value, limits)
    requires HasTickAfter(events, r.states[session] + limits.timeout)
    ensures DeclaredBy(r, events, session, r.states[session] + limits.timeout + limits.interval * 2, limits)
    decreases |events|
  {
    var limit := r.states[session] + limits.timeout;
    var e := events[0];
    assert events == [e] + events[1..];
    if e.Tick? && e.at > limit {
      assert session in StaleAt(r, e.at, limits);
    } else {
      var n := Step(r, e, limits);
      assert session in n.states && n.states[session] == r.states[session];
      DetectedInTime(n, events[1..], session, limits);
    }
  }

  // ----- the objects -----

  class HeartbeatRegistry {
    var states: map<string, int>
    var lastTickAt: Option<int>
    const limits: Limits

    ghost function State(): Registry
      reads this
    {
      Registry(states, lastTickAt)
    }

    constructor (limits: Limits)
      ensures State() == Registry(map[], None) && this.limits == limits
    {
      states, lastTickAt := map[], None;
      this.limits := limits;
    }

    method RegisterSession(session: string, now: int)
      modifies this`states
      ensures State() == Step(old(State()), Register(session, now), limits)
    {
      states := states[session := now];
    }

    method RecordPong(session: string, now: int)
      modifies this`states
      ensures State() == Step(old(State()), Pong(session, now), limits)
    {
      if session in states {
        states := states[session := now];
      }
    }

    method RemoveSession(session: string, now: int)
      modifies this`states
      ensures State() == Step(old(State()), Remove(session, now), limits)
    {
      states := states - {session};
    }

    /** Ends the members it returns as `stale`; pings everyone else. */
    method OnTick(now: int) returns (stale: set<string>, pinged: set<string>)
      modifies this
      ensures State() == AfterTick(old(State()), now, limits)
      ensures stale == StaleAt(old(State()), now, limits)
      ensures pinged == old(states).Keys - stale
    {
      var previous := lastTickAt;
      lastTickAt := Some(now);
      var suspended := previous.None? || now - previous.value > limits.interval * 2;
      stale, pinged := {}, {};
      var todo := states.Keys;
      while todo != {}
        invariant todo <= states.Keys == old(states).Keys
        invariant lastTickAt == Some(now)
        invariant forall s | s in states :: states[s] == if suspended && s !in todo then now else old(states)[s]
        invariant stale == set s | s in StaleAt(old(State()), now, limits) && s !in todo
        invariant pinged == old(states).Keys - todo - stale
        decreases todo
      {
        var s :| s in todo;
        todo := todo - {s};
        if suspended {
          states := states[s := now];
          pinged := pinged + {s};
          continue;
        }
        if now - states[s] > limits.timeout {
          stale := stale + {s};
          continue;
        }
        pinged := pinged + {s};
      }
    }
  }

  /** The member's side: one peer, and time 0 for "no tick yet". */
  class CharacterHeartbeat {
    var lastPingAt: int
    var lastTickAt: int
    const limits: Limits

    /** The same rule as the registry's, for a single session called `peer`. */
    ghost function AsRegistry(peer: string): Registry
      reads this
    {
      Registry(map[peer := lastPingAt], if lastTickAt == 0 then None else Some(lastTickAt))
    }

    constructor (limits: Limits, now: int)
      ensures lastPingAt == now && lastTickAt == 0 && this.limits == limits
    {
      lastPingAt, lastTickAt := now, 0;
      this.limits := limits;
    }

    method OnPing(now: int)
      modifies this`lastPingAt
      ensures lastPingAt == now
    {
      lastPingAt := now;
    }

    method OnTick(now: int, ghost peer: string) returns (failed: bool)
      requires now > 0
      modifies this
      ensures AsRegistry(peer) == AfterTick(old(AsRegistry(peer)), now, limits)
      ensures failed <==> peer in StaleAt(old(AsRegistry(peer)), now, limits)
    {
      var previous := lastTickAt;
      lastTickAt := now;
      if previous == 0 || now - previous > limits.interval * 2 {
        lastPingAt := now;
        return false;
      }
      return now - lastPingAt > limits.timeout;
    }
  }
}
