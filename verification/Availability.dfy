/**
  When a character is held and when it becomes free again, event by event, in every
  reachable state.
  */
module Availability {
  import opened Common
  import opened Membership

  /** Every character but `x` is held by whom it was. */
  ghost predicate OthersUntouched(m: Members, n: Members, x: string) {
    forall s, y | y != x :: Holds(n, s, y) <==> Holds(m, s, y)
  }

  ghost predicate NobodyTouched(m: Members, n: Members) {
    forall s, y :: Holds(n, s, y) <==> Holds(m, s, y)
  }

  /** A connection may claim: it has joined, holds nothing yet, and the character is known and held by nobody. */
  ghost predicate MayClaim(m: Members, c: nat, x: string, known: set<string>) {
    && c in m.conns && m.conns[c].session.Some? && !m.conns[c].online && m.conns[c].reserved.None?
    && x in known && !exists s :: Holds(m, s, x)
  }

  /** A claim reserves the character for the connection's session if it may, and changes nothing otherwise. */
  lemma ClaimHolds(m: Members, c: nat, x: string, known: set<string>)
    requires Consistent(m)
    ensures
      var n := Step(m, Claim(c, x, known));
      && (MayClaim(m, c, x, known) ==>
            Holds(n, m.conns[c].session.value, x) && Reserves(n, c, x, m.conns[c].session.value)
            && n.online == m.online && n.sockets == m.sockets && OthersUntouched(m, n, x))
      && (!MayClaim(m, c, x, known) ==> n == m)
  {
    AvailableIff(m, x);
  }

  /** A connection may become ready with its own reservation, unless its session already has a socket. */
  ghost predicate MayBeReady(m: Members, c: nat, known: set<string>) {
    && c in m.conns && !m.conns[c].online
    && m.conns[c].session.Some? && m.conns[c].reserved.Some? && m.conns[c].reserved.value in known
    && m.conns[c].session.value !in m.sockets
  }

  /** Ready turns the reservation into the online entry of the same session, with its socket. */
  lemma ReadyHolds(m: Members, c: nat, known: set<string>)
    requires Consistent(m)
    ensures
      var n := Step(m, Ready(c, known));
      && (MayBeReady(m, c, known) ==>
            var s, x := m.conns[c].session.value, m.conns[c].reserved.value;
            && n.conns[c] == Conn(Some(s), None, true)
            && s in n.online && n.online[s] == x && x !in n.reservations
            && s in n.sockets && n.sockets[s] == c
            && (forall t | t in m.online && t != s :: t in n.online && n.online[t] == m.online[t]))
      && (!MayBeReady(m, c, known) ==> n == m)
  {
  }

  /** A reservation that never became ready is given back when its time is over. */
  lemma TimeoutFrees(m: Members, c: nat)
    requires Consistent(m) && c in m.conns && !m.conns[c].online && m.conns[c].reserved.Some?
    ensures
      var n, x := Step(m, ReadyTimeout(c)), m.conns[c].reserved.value;
      && (!exists s :: Holds(n, s, x)) && IsAvailable(n, x)
      && n.conns[c] == m.conns[c].(reserved := None)
      && n.online == m.online && n.sockets == m.sockets && OthersUntouched(m, n, x)
  {
    var n, x := Step(m, ReadyTimeout(c)), m.conns[c].reserved.value;
    OnlineApart(m, x);
    AvailableIff(n, x);
  }

  lemma OnlineApart(m: Members, x: string)
    requires Consistent(m) && x in m.reservations
    ensures x !in m.online.Values
  {
  }

  lemma OnlineOnce(m: Members, s: string)
    requires Consistent(m) && s in m.online
    ensures m.online[s] !in m.reservations && m.online[s] !in (m.online - {s}).Values
  {
  }

  /** A timeout that comes after all leaves everything as it is. */
  lemma LateTimeoutIsNothing(m: Members, c: nat)
    requires c in m.conns && (m.conns[c].online || m.conns[c].reserved.None?)
    ensures Step(m, ReadyTimeout(c)) == m
  {
  }

  /** Leaving, and the cleanup after a failed send, free the character and the socket of the connection's session. */
  lemma LeaveFrees(m: Members, c: nat, e: Event)
    requires Consistent(m) && c in m.conns && m.conns[c].online && m.conns[c].session.Some?
    requires m.conns[c].session.value in m.online && (e == Leave(c) || e == SendFailureCleanup(c))
    ensures
      var n, s := Step(m, e), m.conns[c].session.value;
      var x := m.online[s];
      && (!exists t :: Holds(n, t, x)) && IsAvailable(n, x)
      && s !in n.online && s !in n.sockets && !n.conns[c].online
      && n.reservations == m.reservations && OthersUntouched(m, n, x)
  {
    var n, s := Step(m, e), m.conns[c].session.value;
    OnlineOnce(m, s);
    AvailableIff(n, m.online[s]);
  }

  /** One that is not online has nothing to leave. */
  lemma LeaveOutsideIsNothing(m: Members, c: nat, e: Event)
    requires c in m.conns && !m.conns[c].online && (e == Leave(c) || e == SendFailureCleanup(c))
    ensures Step(m, e) == m
  {
  }

  /** A connection that closes before it was ready gives its reservation back. */
  lemma CloseFreesReservation(m: Members, c: nat)
    requires Consistent(m) && c in m.conns && !m.conns[c].online && m.conns[c].reserved.Some?
    ensures
      var n, x := Step(m, Closed(c)), m.conns[c].reserved.value;
      && (!exists s :: Holds(n, s, x)) && IsAvailable(n, x) && n.conns[c].reserved.None?
      && n.online == m.online && n.sockets == m.sockets && OthersUntouched(m, n, x)
  {
    TimeoutFrees(m, c);
    assert Step(m, Closed(c)) == Step(m, ReadyTimeout(c));
  }

  /** One that closes while online gives up its character and its socket. */
  lemma CloseFreesOnline(m: Members, c: nat)
    requires Consistent(m) && c in m.conns && m.conns[c].online && m.conns[c].session.Some?
    requires m.conns[c].reserved.None? && m.conns[c].session.value in m.online
    ensures
      var n, s := Step(m, Closed(c)), m.conns[c].session.value;
      var x := m.online[s];
      && (!exists t :: Holds(n, t, x)) && IsAvailable(n, x)
      && s !in n.online && s !in n.sockets && !n.conns[c].online && OthersUntouched(m, n, x)
  {
    LeaveFrees(m, c, Leave(c));
    assert Step(m, Closed(c)) == Step(m, Leave(c));
  }

  /** An online connection never holds a reservation as well. */
  ghost predicate OneKind(m: Members) {
    forall c | c in m.conns && m.conns[c].online :: m.conns[c].reserved.None? && m.conns[c].session.Some?
  }

  lemma {:induction false} AlwaysOneKind(m: Members, events: seq<Event>)
    requires OneKind(m)
    ensures OneKind(Run(m, events))
    decreases |events|
  {
    if events != [] {
      StepKeepsKind(m, events[0]);
      AlwaysOneKind(Step(m, events[0]), events[1..]);
    }
  }

  lemma StepKeepsKind(m: Members, e: Event)
    requires OneKind(m)
    ensures OneKind(Step(m, e))
  {
  }

  /**
    In every reachable state: whatever a connection holds is free again once it has
    closed, and nobody else's character is touched.
    */
  lemma {:induction false} ClosedHoldsNothing(events: seq<Event>, c: nat)
    requires c in Run(EMPTY, events).conns
    ensures
      var m, n := Run(EMPTY, events), Run(EMPTY, events + [Closed(c)]);
      && (m.conns[c].reserved.Some? ==>
            IsAvailable(n, m.conns[c].reserved.value) && OthersUntouched(m, n, m.conns[c].reserved.value))
      && (m.conns[c].online && m.conns[c].session.Some? && m.conns[c].session.value in m.online ==>
            var x := m.online[m.conns[c].session.value];
            IsAvailable(n, x) && OthersUntouched(m, n, x))
      && c in n.conns && !n.conns[c].online && n.conns[c].reserved.None?
  {
    var m := Run(EMPTY, events);
    AlwaysConsistent(EMPTY, events);
    AlwaysOneKind(EMPTY, events);
    RunConcat(EMPTY, events, [Closed(c)]);
    assert Run(m, [Closed(c)]) == Run(Step(m, Closed(c)), []);
    if m.conns[c].reserved.Some? {
      CloseFreesReservation(m, c);
    } else if m.conns[c].online && m.conns[c].session.value in m.online {
      CloseFreesOnline(m, c);
    }
  }

  /** Joining binds the session unless it is taken, or the connection is online or bound to another one. */
  lemma JoinBinds(m: Members, c: nat, s: string)
    requires c in m.conns
    ensures
      var n := Step(m, Join(c, s));
      && (!m.conns[c].online && s !in m.sockets && (m.conns[c].session.None? || m.conns[c].session == Some(s)) ==>
            n == m.(conns := m.conns[c := m.conns[c].(session := Some(s))]) && n.conns[c].session == Some(s))
      && (m.conns[c].online || s in m.sockets || (m.conns[c].session.Some? && m.conns[c].session != Some(s)) ==> n == m)
  {
  }

  /** A failed send cuts the socket and nothing else. */
  lemma SendFailureCuts(m: Members, c: nat)
    requires c in m.conns
    ensures
      var n := Step(m, SendFailed(c));
      && n.conns == m.conns && n.reservations == m.reservations && n.online == m.online
      && (m.conns[c].online && m.conns[c].session.Some? ==> n.sockets == m.sockets - {m.conns[c].session.value})
      && (!(m.conns[c].online && m.conns[c].session.Some?) ==> n.sockets == m.sockets)
  {
  }
}
