/**
  Who holds which character: connections, the socket table, reservations and the
  online table, through join, claim, ready, ready timeout, leave, close and send
  failure in any order.
  */
module Membership {
  import opened Common

  datatype Conn = Conn(session: Option<string>, reserved: Option<string>, online: bool)

  /** `sockets`: session to connection; `reservations`: character to session; `online`: session to character. */
  datatype Members = Members(
    conns: map<nat, Conn>,
    sockets: map<string, nat>,
    reservations: map<string, string>,
    online: map<string, string>)

  datatype Event =
    | Connect(c: nat)
    | Join(c: nat, session: string)
    | Claim(c: nat, character: string, known: set<string>)
    | Ready(c: nat, known: set<string>)
    | ReadyTimeout(c: nat)
    | Leave(c: nat)
    | Closed(c: nat)
    | SendFailed(c: nat)
    | SendFailureCleanup(c: nat)

  predicate IsAvailable(m: Members, character: string) {
    character !in m.reservations && character !in m.online.Values
  }

  function ReleaseReservation(m: Members, c: nat): Members
    requires c in m.conns
  {
    var conn := m.conns[c];
    if conn.reserved.None? then m else
    var x := conn.reserved.value;
    m.(reservations := if x in m.reservations && conn.session == Some(m.reservations[x]) then m.reservations - {x}
                       else m.reservations,
       conns := m.conns[c := conn.(reserved := None)])
  }

  function RemoveOnline(m: Members, c: nat): Members
    requires c in m.conns
  {
    var conn := m.conns[c];
    if !conn.online || conn.session.None? then m
    else m.(conns := m.conns[c := conn.(online := false)],
            sockets := m.sockets - {conn.session.value},
            online := m.online - {conn.session.value})
  }

  function JoinStep(m: Members, c: nat, session: string): Members
    requires c in m.conns
  {
    var conn := m.conns[c];
    if conn.online || session in m.sockets || (conn.session.Some? && conn.session.value != session) then m
    else m.(conns := m.conns[c := conn.(session := Some(session))])
  }

  function ClaimStep(m: Members, c: nat, character: string, known: set<string>): Members
    requires c in m.conns
  {
    var conn := m.conns[c];
    if conn.session.None? || conn.online || conn.reserved.Some? || character !in known
        || !IsAvailable(m, character) then m
    else m.(reservations := m.reservations[character := conn.session.value],
            conns := m.conns[c := conn.(reserved := Some(character))])
  }

  predicate ReadyAccepted(m: Members, c: nat, known: set<string>)
    requires c in m.conns
  {
    var conn := m.conns[c];
    && conn.session.Some? && conn.reserved.Some? && conn.reserved.value in known && !conn.online
    && conn.reserved.value in m.reservations && m.reservations[conn.reserved.value] == conn.session.value
    && conn.session.value !in m.sockets
  }

  function ReadyStep(m: Members, c: nat, known: set<string>): Members
    requires c in m.conns
  {
    if !ReadyAccepted(m, c, known) then m else
    var conn := m.conns[c];
    Members(m.conns[c := conn.(reserved := None, online := true)],
            m.sockets[conn.session.value := c],
            m.reservations - {conn.reserved.value},
            m.online[conn.session.value := conn.reserved.value])
  }

  /** The socket entry goes at once; the online entry waits for the queued cleanup. */
  function SendFailedStep(m: Members, c: nat): Members
    requires c in m.conns
  {
    var conn := m.conns[c];
    if !conn.online || conn.session.None? then m
    else m.(sockets := m.sockets - {conn.session.value})
  }

  function Step(m: Members, e: Event): Members {
    if e.Connect? then
      if e.c in m.conns then m else m.(conns := m.conns[e.c := Conn(None, None, false)])
    else if e.c !in m.conns then m
    else match e
      case Join(c, session) => JoinStep(m, c, session)
      case Claim(c, character, known) => ClaimStep(m, c, character, known)
      case Ready(c, known) => ReadyStep(m, c, known)
      case ReadyTimeout(c) =>
        if !m.conns[c].online && m.conns[c].reserved.Some? then ReleaseReservation(m, c) else m
      case Leave(c) => RemoveOnline(m, c)
      case Closed(c) => RemoveOnline(ReleaseReservation(m, c), c)
      case SendFailed(c) => SendFailedStep(m, c)
      case SendFailureCleanup(c) => RemoveOnline(m, c)
  }

  function Run(m: Members, events: seq<Event>): Members
    decreases |events|
  {
    if events == [] then m else Run(Step(m, events[0]), events[1..])
  }

  const EMPTY := Members(map[], map[], map[], map[])

  // ----- one holder per character -----

  predicate Holds(m: Members, session: string, character: string) {
    || (character in m.reservations && m.reservations[character] == session)
    || (session in m.online && m.online[session] == character)
  }

  predicate Reserves(m: Members, c: nat, character: string, session: string) {
    c in m.conns && m.conns[c].reserved == Some(character) && m.conns[c].session == Some(session)
  }

  /** A reserved character is not online, and no two sessions are online as the same character. */
  ghost predicate HoldersApart(m: Members) {
    && (forall s | s in m.online :: m.online[s] !in m.reservations)
    && (forall s, t | s in m.online && t in m.online && m.online[s] == m.online[t] :: s == t)
  }

  /** Every connection that claims to hold a reservation does, and no two hold the same one. */
  ghost predicate ClaimsBacked(m: Members) {
    && (forall c | c in m.conns && m.conns[c].reserved.Some? ::
          && m.conns[c].session.Some?
          && m.conns[c].reserved.value in m.reservations
          && m.reservations[m.conns[c].reserved.value] == m.conns[c].session.value)
    && (forall c, d | c in m.conns && d in m.conns && m.conns[c].reserved.Some?
          && m.conns[c].reserved == m.conns[d].reserved :: c == d)
  }

  /** Every reservation is held by some connection of its session. */
  ghost predicate ReservationsBacked(m: Members) {
    forall x | x in m.reservations :: exists c :: Reserves(m, c, x, m.reservations[x])
  }

  ghost predicate Consistent(m: Members) {
    HoldersApart(m) && ClaimsBacked(m) && ReservationsBacked(m)
  }

  /** A change of connections that leaves every reservation field alone keeps reservations backed. */
  lemma BackedCarries(m: Members, n: Members)
    requires ReservationsBacked(m) && n.reservations.Keys <= m.reservations.Keys
    requires forall x | x in n.reservations :: n.reservations[x] == m.reservations[x]
    requires forall c, x | c in m.conns && x in n.reservations && Reserves(m, c, x, n.reservations[x]) ::
               Reserves(n, c, x, n.reservations[x])
    ensures ReservationsBacked(n)
  {
    forall x | x in n.reservations ensures exists c :: Reserves(n, c, x, n.reservations[x]) {
      var c :| Reserves(m, c, x, m.reservations[x]);
      assert Reserves(n, c, x, n.reservations[x]);
    }
  }

  lemma ReleaseKeeps(m: Members, c: nat)
    requires Consistent(m) && c in m.conns
    ensures Consistent(ReleaseReservation(m, c))
  {
    BackedCarries(m, ReleaseReservation(m, c));
  }

  lemma RemoveOnlineKeeps(m: Members, c: nat)
    requires Consistent(m) && c in m.conns
    ensures Consistent(RemoveOnline(m, c))
  {
    BackedCarries(m, RemoveOnline(m, c));
  }

  lemma JoinKeeps(m: Members, c: nat, session: string)
    requires Consistent(m) && c in m.conns
    ensures Consistent(JoinStep(m, c, session))
  {
    BackedCarries(m, JoinStep(m, c, session));
  }

  lemma ClaimKeeps(m: Members, c: nat, character: string, known: set<string>)
    requires Consistent(m) && c in m.conns
    ensures Consistent(ClaimStep(m, c, character, known))
  {
    var n := ClaimStep(m, c, character, known);
    if n != m {
      assert Reserves(n, c, character, m.conns[c].session.value);
      forall x | x in n.reservations ensures exists d :: Reserves(n, d, x, n.reservations[x]) {
        if x != character {
          var d :| Reserves(m, d, x, m.reservations[x]);
          assert Reserves(n, d, x, n.reservations[x]);
        }
      }
      forall s | s in n.online ensures n.online[s] !in n.reservations {
        assert n.online[s] in m.online.Values;
      }
    }
  }

  lemma ReadyKeeps(m: Members, c: nat, known: set<string>)
    requires Consistent(m) && c in m.conns
    ensures Consistent(ReadyStep(m, c, known))
  {
    var n := ReadyStep(m, c, known);
    if n != m {
      BackedCarries(m, n);
    }
  }

  lemma StepKeeps(m: Members, e: Event)
    requires Consistent(m)
    ensures Consistent(Step(m, e))
  {
    if e.Connect? {
      BackedCarries(m, Step(m, e));
    } else if e.c in m.conns {
      match e {
        case Join(c, session) => JoinKeeps(m, c, session);
        case Claim(c, character, known) => ClaimKeeps(m, c, character, known);
        case Ready(c, known) => ReadyKeeps(m, c, known);
        case ReadyTimeout(c) => ReleaseKeeps(m, c);
        case Leave(c) => RemoveOnlineKeeps(m, c);
        case Closed(c) =>
          ReleaseKeeps(m, c);
          RemoveOnlineKeeps(ReleaseReservation(m, c), c);
        case SendFailed(c) => BackedCarries(m, Step(m, e));
        case SendFailureCleanup(c) => RemoveOnlineKeeps(m, c);
      }
    }
  }

  lemma {:induction false} AlwaysConsistent(m: Members, events: seq<Event>)
    requires Consistent(m)
    ensures Consistent(Run(m, events))
    decreases |events|
  {
    if events != [] {
      StepKeeps(m, events[0]);
      AlwaysConsistent(Step(m, events[0]), events[1..]);
    }
  }

  /**
    One holder per character over every interleaving; a reservation is held by
    exactly one connection; and a character is offered exactly when nobody holds it.
    */
  lemma {:induction false} OneHolderPerCharacter(events: seq<Event>)
    ensures var m := Run(EMPTY, events);
            && (forall s, t, x | Holds(m, s, x) && Holds(m, t, x) :: s == t)
            && (forall x | x in m.reservations ::
                  exists c :: Reserves(m, c, x, m.reservations[x])
                              && forall d | d in m.conns && m.conns[d].reserved == Some(x) :: d == c)
            && (forall x :: IsAvailable(m, x) <==> !exists s :: Holds(m, s, x))
  {
    AlwaysConsistent(EMPTY, events);
    var m := Run(EMPTY, events);
    forall x | x in m.reservations
      ensures exists c :: Reserves(m, c, x, m.reservations[x])
                          && forall d | d in m.conns && m.conns[d].reserved == Some(x) :: d == c
    {
      var c :| Reserves(m, c, x, m.reservations[x]);
      assert forall d | d in m.conns && m.conns[d].reserved == Some(x) :: d == c;
    }
    forall x ensures IsAvailable(m, x) <==> !exists s :: Holds(m, s, x) {
      AvailableIff(m, x);
    }
  }

  lemma AvailableIff(m: Members, x: string)
    ensures IsAvailable(m, x) <==> !exists s :: Holds(m, s, x)
  {
    if x in m.reservations {
      assert Holds(m, m.reservations[x], x);
    } else if x in m.online.Values {
      var s :| s in m.online && m.online[s] == x;
      assert Holds(m, s, x);
    }
  }

  // ----- does an online connection keep its entry? -----

  /** Online connections and online entries match one to one by session. */
  ghost predicate Rostered(m: Members) {
    && (forall c | c in m.conns && m.conns[c].online ::
          m.conns[c].session.Some? && m.conns[c].session.value in m.online)
    && (forall c, d | c in m.conns && d in m.conns && m.conns[c].online && m.conns[d].online
          && m.conns[c].session == m.conns[d].session :: c == d)
    && (forall s | s in m.online :: exists c :: c in m.conns && m.conns[c].online && m.conns[c].session == Some(s))
  }

  lemma BackedRoster(m: Members, n: Members)
    requires Rostered(m) && n.online.Keys <= m.online.Keys
    requires forall c | c in m.conns && m.conns[c].online && m.conns[c].session.value in n.online ::
               c in n.conns && n.conns[c].online && n.conns[c].session == m.conns[c].session
    ensures forall s | s in n.online :: exists c :: c in n.conns && n.conns[c].online && n.conns[c].session == Some(s)
  {
    forall s | s in n.online ensures exists c :: c in n.conns && n.conns[c].online && n.conns[c].session == Some(s) {
      var c :| c in m.conns && m.conns[c].online && m.conns[c].session == Some(s);
      assert c in n.conns && n.conns[c].online;
    }
  }

  lemma RemoveOnlineKeepsRoster(m: Members, c: nat)
    requires Rostered(m) && c in m.conns
    ensures Rostered(RemoveOnline(m, c))
  {
    BackedRoster(m, RemoveOnline(m, c));
  }

  lemma ReleaseKeepsRoster(m: Members, c: nat)
    requires Rostered(m) && c in m.conns
    ensures Rostered(ReleaseReservation(m, c))
  {
    BackedRoster(m, ReleaseReservation(m, c));
  }

  lemma ConnectKeepsRoster(m: Members, c: nat)
    requires Rostered(m)
    ensures Rostered(Step(m, Connect(c)))
  {
    BackedRoster(m, Step(m, Connect(c)));
  }

  /** Replacing an offline connection by another offline one. */
  lemma OfflineChangeKeepsRoster(m: Members, c: nat, conn: Conn, reservations: map<string, string>)
    requires Rostered(m) && c in m.conns && !m.conns[c].online && !conn.online
    ensures Rostered(m.(conns := m.conns[c := conn], reservations := reservations))
  {
    BackedRoster(m, m.(conns := m.conns[c := conn], reservations := reservations));
  }

  lemma JoinClaimKeepRoster(m: Members, e: Event)
    requires Rostered(m) && (e.Join? || e.Claim?) && e.c in m.conns
    ensures Rostered(Step(m, e))
  {
    var n := Step(m, e);
    if n != m {
      OfflineChangeKeepsRoster(m, e.c, n.conns[e.c], n.reservations);
    }
  }

  /** Everything but an accepted ready keeps the match. */
  lemma OthersKeepRoster(m: Members, e: Event)
    requires Rostered(m) && !e.Ready?
    ensures Rostered(Step(m, e))
  {
    if e.Connect? {
      ConnectKeepsRoster(m, e.c);
    } else if e.c !in m.conns {
    } else if e.Join? || e.Claim? {
      JoinClaimKeepRoster(m, e);
    } else {
      ReleaseKeepsRoster(m, e.c);
      RemoveOnlineKeepsRoster(m, e.c);
      RemoveOnlineKeepsRoster(ReleaseReservation(m, e.c), e.c);
    }
  }

  lemma ReadyOnFreeSession(m: Members, c: nat, known: set<string>)
    requires Rostered(m) && c in m.conns && ReadyAccepted(m, c, known)
    requires m.conns[c].session.value !in m.online
    ensures Rostered(ReadyStep(m, c, known))
  {
    var n := ReadyStep(m, c, known);
    var session := m.conns[c].session.value;
    assert n.conns[c].online && n.conns[c].session == Some(session);
    forall s | s in n.online ensures exists d :: d in n.conns && n.conns[d].online && n.conns[d].session == Some(s) {
      if s != session {
        var d :| d in m.conns && m.conns[d].online && m.conns[d].session == Some(s);
        assert d in n.conns && n.conns[d] == m.conns[d];
      }
    }
  }

  lemma ReadyOnTakenSession(m: Members, c: nat, known: set<string>)
    requires Rostered(m) && c in m.conns && ReadyAccepted(m, c, known)
    requires m.conns[c].session.value in m.online
    ensures !Rostered(ReadyStep(m, c, known))
  {
    var n := ReadyStep(m, c, known);
    var d :| d in m.conns && m.conns[d].online && m.conns[d].session == Some(m.conns[c].session.value);
    assert c in n.conns && d in n.conns && d != c;
  }

  /**
    The exact condition for ready: it keeps online connections and online entries
    matched if and only if the session has no online entry at that moment, that
    is, unless an earlier connection of the session still waits for its cleanup
    after a failed send.
    */
  lemma ReadyKeepsRosterIff(m: Members, c: nat, known: set<string>)
    requires Rostered(m) && c in m.conns && ReadyAccepted(m, c, known)
    ensures Rostered(ReadyStep(m, c, known)) <==> m.conns[c].session.value !in m.online
  {
    if m.conns[c].session.value in m.online {
      ReadyOnTakenSession(m, c, known);
    } else {
      ReadyOnFreeSession(m, c, known);
    }
  }

  /**
    What the other case leads to: a send to `c` fails, `d` of the same session
    becomes ready before c's cleanup, and the cleanup then removes d's entry.
    */
  lemma LateCleanupRemovesSuccessor(m: Members, c: nat, d: nat, known: set<string>)
    requires c in m.conns && d in m.conns && c != d
    requires m.conns[c].online && m.conns[c].session.Some? && m.conns[c].session == m.conns[d].session
    requires ReadyAccepted(SendFailedStep(m, c), d, known)
    ensures var after := Step(Step(Step(m, SendFailed(c)), Ready(d, known)), SendFailureCleanup(c));
            && after.conns[d].online
            && after.conns[d].session.value !in after.online
            && after.conns[d].session.value !in after.sockets
  {
  }

  /** Such a state is reached by two connections that joined under one session. */
  lemma TwoConnectionsOneSession(session: string, x: string, y: string)
    requires x != y
    ensures var m := Run(EMPTY, [Connect(1), Connect(2), Join(1, session), Join(2, session),
                                 Claim(1, x, {x, y}), Claim(2, y, {x, y}), Ready(1, {x, y})]);
            && 1 in m.conns && 2 in m.conns
            && m.conns[1].online && m.conns[1].session == m.conns[2].session == Some(session)
            && ReadyAccepted(SendFailedStep(m, 1), 2, {x, y})
  {
    var joined := Members(map[1 := Conn(Some(session), None, false), 2 := Conn(Some(session), None, false)],
                          map[], map[], map[]);
    var a := [Connect(1), Connect(2), Join(1, session), Join(2, session)];
    var b := [Claim(1, x, {x, y}), Claim(2, y, {x, y}), Ready(1, {x, y})];
    RunConcat(EMPTY, a, b);
    assert a + b == [Connect(1), Connect(2), Join(1, session), Join(2, session),
                     Claim(1, x, {x, y}), Claim(2, y, {x, y}), Ready(1, {x, y})];
    JoinedRun(session);
    ClaimedRun(joined, session, x, y);
  }

  lemma JoinedRun(session: string)
    ensures Run(EMPTY, [Connect(1), Connect(2), Join(1, session), Join(2, session)])
            == Members(map[1 := Conn(Some(session), None, false), 2 := Conn(Some(session), None, false)],
                       map[], map[], map[])
  {
    var e := [Connect(1), Connect(2), Join(1, session), Join(2, session)];
    var m1 := Step(EMPTY, e[0]);
    var m2 := Step(m1, e[1]);
    var m3 := Step(m2, e[2]);
    var m4 := Step(m3, e[3]);
    assert m4.conns == map[1 := Conn(Some(session), None, false), 2 := Conn(Some(session), None, false)];
    assert e[1..] == [e[1], e[2], e[3]] && e[1..][1..] == [e[2], e[3]] && [e[2], e[3]][1..] == [e[3]];
    assert Run(m3, [e[3]]) == Run(m4, []);
    assert Run(m2, [e[2], e[3]]) == m4;
    assert Run(m1, e[1..]) == m4;
  }

  lemma ClaimedRun(m: Members, session: string, x: string, y: string)
    requires x != y
    requires m == Members(map[1 := Conn(Some(session), None, false), 2 := Conn(Some(session), None, false)],
                          map[], map[], map[])
    ensures var n := Run(m, [Claim(1, x, {x, y}), Claim(2, y, {x, y}), Ready(1, {x, y})]);
            && 1 in n.conns && 2 in n.conns
            && n.conns[1].online && n.conns[1].session == n.conns[2].session == Some(session)
            && ReadyAccepted(SendFailedStep(n, 1), 2, {x, y})
  {
    var e := [Claim(1, x, {x, y}), Claim(2, y, {x, y}), Ready(1, {x, y})];
    var m1 := Step(m, e[0]);
    var m2 := Step(m1, e[1]);
    assert m2.reservations == map[x := session, y := session];
    var m3 := Step(m2, e[2]);
    assert m3.sockets == map[session := 1];
    assert e[1..] == [e[1], e[2]] && e[1..][1..] == [e[2]];
    assert Run(m2, [e[2]]) == Run(m3, []);
    assert Run(m1, e[1..]) == m3;
  }

  lemma {:induction false} RunConcat(m: Members, a: seq<Event>, b: seq<Event>)
    ensures Run(m, a + b) == Run(Run(m, a), b)
    decreases |a|
  {
    if a == [] {
      assert a + b == b;
    } else {
      RunConcat(Step(m, a[0]), a[1..], b);
      assert (a + b)[1..] == a[1..] + b;
    }
  }

  // ----- the object -----

  class MemberBookkeeping {
    var conns: map<nat, Conn>
    var connections: map<string, nat>
    var characterReservations: map<string, string>
    var onlineCharacters: map<string, string>

    ghost function State(): Members
      reads this
    {
      Members(conns, connections, characterReservations, onlineCharacters)
    }

    constructor ()
      ensures State() == EMPTY
    {
      conns, connections, characterReservations, onlineCharacters := map[], map[], map[], map[];
    }

    method GetAvailableCharacters(characters: seq<string>) returns (available: seq<string>)
      ensures forall x :: x in available <==> x in characters && IsAvailable(State(), x)
    {
      available := [];
      var i := 0;
      while i < |characters|
        invariant 0 <= i <= |characters|
        invariant forall x :: x in available <==> x in characters[..i] && IsAvailable(State(), x)
      {
        assert characters[..i + 1] == characters[..i] + [characters[i]];
        if characters[i] !in characterReservations && characters[i] !in onlineCharacters.Values {
          available := available + [characters[i]];
        }
        i := i + 1;
      }
      assert characters[..|characters|] == characters;
    }

    method HandleConnection(c: nat)
      modifies this`conns
      ensures State() == Step(old(State()), Connect(c))
    {
      if c !in conns {
        conns := conns[c := Conn(None, None, false)];
      }
    }

    method RunJoin(c: nat, session: string) returns (accepted: bool)
      requires c in conns
      modifies this`conns
      ensures State() == JoinStep(old(State()), c, session)
      ensures accepted ==> conns[c].session == Some(session)
      ensures !accepted ==> State() == old(State())
    {
      var conn := conns[c];
      if conn.online || session in connections || (conn.session.Some? && conn.session.value != session) {
        return false;
      }
      conns := conns[c := conn.(session := Some(session))];
      return true;
    }

    method RunClaim(c: nat, character: string, known: set<string>) returns (accepted: bool)
      requires c in conns
      modifies this`conns, this`characterReservations
      ensures State() == ClaimStep(old(State()), c, character, known)
      ensures accepted ==> IsAvailable(old(State()), character) && c in conns && conns[c].reserved == Some(character)
    {
      var conn := conns[c];
      if conn.session.None? || conn.online || conn.reserved.Some? || character !in known
         || character in characterReservations || character in onlineCharacters.Values {
        return false;
      }
      characterReservations := characterReservations[character := conn.session.value];
      conns := conns[c := conn.(reserved := Some(character))];
      return true;
    }

    method RunReady(c: nat, known: set<string>) returns (accepted: bool)
      requires c in conns
      modifies this
      ensures State() == ReadyStep(old(State()), c, known) && accepted == old(ReadyAccepted(State(), c, known))
    {
      var conn := conns[c];
      if conn.session.None? || conn.reserved.None? || conn.reserved.value !in known || conn.online
         || conn.reserved.value !in characterReservations
         || characterReservations[conn.reserved.value] != conn.session.value {
        return false;
      }
      if conn.session.value in connections {
        return false;
      }
      characterReservations := characterReservations - {conn.reserved.value};
      conns := conns[c := conn.(reserved := None, online := true)];
      connections := connections[conn.session.value := c];
      onlineCharacters := onlineCharacters[conn.session.value := conn.reserved.value];
      return true;
    }

    method Release(c: nat)
      requires c in conns
      modifies this
      ensures State() == ReleaseReservation(old(State()), c) && c in conns
    {
      var conn := conns[c];
      if conn.reserved.Some? && conn.reserved.value in characterReservations
         && conn.session == Some(characterReservations[conn.reserved.value]) {
        characterReservations := characterReservations - {conn.reserved.value};
      }
      if conn.reserved.Some? {
        conns := conns[c := conn.(reserved := None)];
      }
    }

    method RemoveOnlineCharacter(c: nat)
      requires c in conns
      modifies this
      ensures State() == RemoveOnline(old(State()), c)
    {
      var conn := conns[c];
      if !conn.online || conn.session.None? {
        return;
      }
      conns := conns[c := conn.(online := false)];
      connections := connections - {conn.session.value};
      onlineCharacters := onlineCharacters - {conn.session.value};
    }

    method OnReadyTimeout(c: nat)
      requires c in conns
      modifies this
      ensures State() == Step(old(State()), ReadyTimeout(c))
    {
      if !conns[c].online && conns[c].reserved.Some? {
        Release(c);
      }
    }

    method OnClosed(c: nat)
      requires c in conns
      modifies this
      ensures State() == Step(old(State()), Closed(c))
    {
      Release(c);
      RemoveOnlineCharacter(c);
    }

    method HandleSendFailure(c: nat)
      requires c in conns
      modifies this`connections
      ensures State() == SendFailedStep(old(State()), c)
    {
      if !conns[c].online || conns[c].session.None? {
        return;
      }
      connections := connections - {conns[c].session.value};
    }
  }
}
