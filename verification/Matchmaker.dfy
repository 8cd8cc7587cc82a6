/**
 One matchmaking tick of a group, statement by statement
 (orchestrator/src/services/matchmaker.ts). The tick is shown to be a run of
 protocol actions that seats every ticket of the window and opens a session
 only when no accepting session has room.
 */
module Matchmaker {
  import opened Basics
  import opened Assignments
  import opened ProfileRanking
  import opened Lifecycles
  import opened Tables
  import opened Protocol
  import opened MatchmakingSafety

  /** The in-memory view of a session that accepts tickets. */
  datatype SessionCandidate = SessionCandidate(
    id: SessionId,
    state: SessionState,
    instance: Option<InstanceId>,
    createdAt: int,
    ticketSizes: seq<int>
  )

  // ----- What a tick is specified by

  function AcceptingSessions(db: Db, group: GroupId, stale: set<SessionId>): set<SessionId> {
    set s | s in db.sessions && db.sessions[s].group == group && Accepting(db.sessions[s].state) && s !in stale
  }

  /** No session that accepts tickets of this group has room for the ticket. */
  ghost predicate NoRoom(db: Db, group: GroupId, stale: set<SessionId>, ticketSize: int)
    requires group in db.policies
  {
    forall s | s in AcceptingSessions(db, group, stale) :: !RoomFor(db.sessions[s].members, ticketSize, db.policies[group])
  }

  /** The ticket is selected for a session and all its players are expected there. */
  ghost predicate Seated(db: Db, e: EntryId) {
    && e in db.entries && db.entries[e].state == EntrySelected && db.entries[e].session.Some?
    && db.entries[e].session.value in db.sessions
    && Ticket(db.sessions[db.entries[e].session.value].members, e) == db.entries[e].players
  }

  /** Every ticket is seated, with the players it was queued with. */
  ghost predicate AllSeated(start: Db, now: Db, window: seq<EntryId>) {
    forall e | e in window ::
      e in start.entries && Seated(now, e) && now.entries[e].players == start.entries[e].players
  }

  predicate TickAction(a: Action) {
    a.DoDemote? || a.DoAwaitInstance? || a.DoReserve? || a.DoOpenSession? || a.DoAttach? || a.DoBeginTicketTransfer?
  }

  ghost predicate TickActions(actions: seq<Action>) {
    forall k | 0 <= k < |actions| :: TickAction(actions[k])
  }

  /** Whenever the run opens a session, the ticket attached next had no room anywhere. */
  ghost predicate OpensAt(start: Db, actions: seq<Action>, k: nat, group: GroupId, stale: set<SessionId>)
    requires k < |actions| && actions[k].DoOpenSession?
  {
    && k + 1 < |actions| && actions[k + 1].DoAttach? && actions[k + 1].s == actions[k].s
    && var db := Run(start, actions[..k]);
       actions[k + 1].e in db.entries && group in db.policies &&
       NoRoom(db, group, stale, |db.entries[actions[k + 1].e].players|)
  }

  ghost predicate OpensOnlyWhenFull(start: Db, actions: seq<Action>, group: GroupId, stale: set<SessionId>) {
    forall k: nat | k < |actions| && actions[k].DoOpenSession? :: OpensAt(start, actions, k, group, stale)
  }

  lemma OpensConcat(start: Db, a: seq<Action>, b: seq<Action>, group: GroupId, stale: set<SessionId>)
    requires OpensOnlyWhenFull(start, a, group, stale)
    requires OpensOnlyWhenFull(Run(start, a), b, group, stale)
    ensures OpensOnlyWhenFull(start, a + b, group, stale)
  {
    var all := a + b;
    forall k: nat | k < |all| && all[k].DoOpenSession? ensures OpensAt(start, all, k, group, stale) {
      if k < |a| {
        OpensEarlier(start, a, b, k, group, stale);
      } else {
        OpensLater(start, a, b, k, group, stale);
      }
    }
  }

  lemma OpensEarlier(start: Db, a: seq<Action>, b: seq<Action>, k: nat, group: GroupId, stale: set<SessionId>)
    requires OpensOnlyWhenFull(start, a, group, stale) && k < |a| && (a + b)[k].DoOpenSession?
    ensures OpensAt(start, a + b, k, group, stale)
  {
    assert (a + b)[k] == a[k];
    assert OpensAt(start, a, k, group, stale);
    assert (a + b)[..k] == a[..k];
  }

  lemma OpensLater(start: Db, a: seq<Action>, b: seq<Action>, k: nat, group: GroupId, stale: set<SessionId>)
    requires OpensOnlyWhenFull(Run(start, a), b, group, stale)
    requires |a| <= k < |a + b| && (a + b)[k].DoOpenSession?
    ensures OpensAt(start, a + b, k, group, stale)
  {
    assert (a + b)[k] == b[k - |a|];
    OpensShifted(start, a, b, k, k - |a|, group, stale);
  }

  lemma OpensShifted(start: Db, a: seq<Action>, b: seq<Action>, k: nat, j: nat, group: GroupId, stale: set<SessionId>)
    requires j < |b| && k == |a| + j && b[j].DoOpenSession? && OpensAt(Run(start, a), b, j, group, stale)
    ensures OpensAt(start, a + b, k, group, stale)
  {
    RunSplit(start, a, b[..j]);
    assert (a + b)[..k] == a + b[..j];
    assert (a + b)[k] == b[j] && (a + b)[k + 1] == b[j + 1];
  }

  lemma {:induction false} TickActionsKeep(db: Db, actions: seq<Action>)
    requires Usable(db) && TickActions(actions)
    ensures Usable(Run(db, actions)) && (OnePlace(db) ==> OnePlace(Run(db, actions)))
  {
    if actions != [] {
      var n := |actions| - 1;
      TickActionsKeep(db, actions[..n]);
      UsableAction(Run(db, actions[..n]), actions[n]);
      if OnePlace(db) {
        ActionKeepsPlaces(Run(db, actions[..n]), actions[n]);
      }
    }
  }

  /**
   What a tick is given: sessions past their deadline, instances on a healthy host in
   the order in which they started to run, and instances with an endpoint.
   */
  datatype Round = Round(group: GroupId, stale: set<SessionId>, usable: seq<InstanceId>, reach: set<InstanceId>)

  /** Of the usable instances that can be claimed it has run longest. */
  ghost predicate IsFirstClaimable(db: Db, group: GroupId, usable: seq<InstanceId>, i: InstanceId) {
    exists k :: 0 <= k < |usable| && usable[k] == i && IsClaimable(db, group, i) &&
      forall j | 0 <= j < k :: !IsClaimable(db, group, usable[j])
  }

  ghost predicate Eligible(db: Db, s: SessionId) {
    s in db.sessions && db.sessions[s].group in db.policies &&
    StartEligible(db.sessions[s].members, db.policies[db.sessions[s].group])
  }

  ghost predicate NoneClaimable(db: Db, round: Round) {
    forall i | i in round.usable :: !IsClaimable(db, round.group, i)
  }

  /** Why a tick takes a step. */
  ghost predicate IsJustified(db: Db, a: Action, round: Round) {
    match a
    case DoDemote(s) => s in db.sessions && db.sessions[s].state == WaitingForInstance && !Eligible(db, s)
    case DoReserve(s, i) => CanReserve(db, s, i) && IsFirstClaimable(db, round.group, round.usable, i) && Eligible(db, s)
    case DoAwaitInstance(s) =>
      s in db.sessions && db.sessions[s].state == Forming && Eligible(db, s) && NoneClaimable(db, round)
    case DoAttach(e, s, inserted) =>
      CanAttach(db, e, s, inserted) && s !in round.stale &&
      (!inserted ==> ChosenFor(db, round.group, round.stale, e, s))
    case DoBeginTicketTransfer(e, s) =>
      s in db.sessions && db.sessions[s].instance.Some? && db.sessions[s].instance.value in round.reach
    case _ => true
  }

  ghost function Justified(round: Round): (Db, Action) -> bool {
    (db, a) => IsJustified(db, a, round)
  }

  /** The tickets in the order in which they are attached. */
  ghost function Attached(actions: seq<Action>): seq<EntryId> {
    if actions == [] then []
    else
      var last := actions[|actions| - 1];
      Attached(actions[..|actions| - 1]) + if last.DoAttach? then [last.e] else []
  }

  lemma {:induction false} AttachedConcat(a: seq<Action>, b: seq<Action>)
    ensures Attached(a + b) == Attached(a) + Attached(b)
    decreases |b|
  {
    if b == [] {
      assert a + b == a;
    } else {
      var n := |b| - 1;
      AttachedConcat(a, b[..n]);
      assert (a + b)[..|a + b| - 1] == a + b[..n];
    }
  }

  /**
   Where a tick got to: by its own justified actions, opening sessions only for
   tickets without room, and attaching these tickets in this order.
   */
  ghost predicate Reached(start: Db, now: Db, actions: seq<Action>, round: Round, tickets: seq<EntryId>) {
    && now == Run(start, actions) && TickActions(actions) && OpensOnlyWhenFull(start, actions, round.group, round.stale)
    && now.policies == start.policies && Along(start, actions, Justified(round)) && Attached(actions) == tickets
  }

  lemma ReachedThen(start: Db, mid: Db, now: Db, a: seq<Action>, b: seq<Action>, round: Round,
                    first: seq<EntryId>, later: seq<EntryId>)
    requires Reached(start, mid, a, round, first) && Reached(mid, now, b, round, later)
    ensures Reached(start, now, a + b, round, first + later)
  {
    RunSplit(start, a, b);
    OpensConcat(start, a, b, round.group, round.stale);
    AlongConcat(start, a, b, Justified(round));
    AttachedConcat(a, b);
  }

  lemma AttachedOne(a: Action)
    ensures Attached([a]) == if a.DoAttach? then [a.e] else []
  {
    assert [a][..0] == [];
  }

  lemma ReachedBy(db: Db, a: Action, round: Round)
    requires TickAction(a) && !a.DoOpenSession? && !a.DoAttach? && IsJustified(db, a, round)
    ensures Reached(db, Apply(db, a), [a], round, [])
  {
    RunOne(db, a);
    AttachedOne(a);
  }

  lemma ReachedByAttach(db: Db, e: EntryId, s: SessionId, inserted: bool, round: Round)
    requires IsJustified(db, DoAttach(e, s, inserted), round)
    ensures Reached(db, Attach(db, e, s, inserted), [DoAttach(e, s, inserted)], round, [e])
  {
    RunOne(db, DoAttach(e, s, inserted));
    AttachedOne(DoAttach(e, s, inserted));
  }

  /** Nothing happened to the entries that are still queued. */
  ghost predicate QueueKept(before: Db, after: Db, except: set<EntryId>) {
    forall e | e in before.entries && before.entries[e].state == EntryQueued && e !in except ::
      e in after.entries && after.entries[e] == before.entries[e]
  }

  /** Only one session, and no queued entry but `except`, was touched. */
  ghost predicate OnlySession(before: Db, after: Db, s: SessionId, except: set<EntryId>) {
    && QueueKept(before, after, except)
    && after.sessions.Keys == before.sessions.Keys
    && forall t | t in before.sessions && t != s :: after.sessions[t] == before.sessions[t]
  }

  // ----- Seats are kept

  lemma SeatKept(db: Db, a: Action, e: EntryId)
    requires Usable(db) && TickAction(a) && Seated(db, e)
    ensures Seated(Apply(db, a), e)
    ensures Apply(db, a).entries[e].players == db.entries[e].players && Apply(db, a).entries[e].session == db.entries[e].session
  {
    var s := db.entries[e].session.value;
    match a {
      case DoDemote(_) =>
      case DoAwaitInstance(_) =>
      case DoOpenSession(_, _, _) =>
      case DoReserve(t, i) =>
        if t == s {
          RestateTicket(db.sessions[s].members, Selected, Transferring, e);
        }
      case DoBeginTicketTransfer(f, t) =>
      case DoAttach(f, t, inserted) => AttachKeepsSeat(db, f, t, inserted, e);
    }
  }

  lemma AttachKeepsSeat(db: Db, f: EntryId, t: SessionId, inserted: bool, e: EntryId)
    requires Usable(db) && Seated(db, e)
    ensures Seated(Attach(db, f, t, inserted), e)
    ensures Attach(db, f, t, inserted).entries[e].players == db.entries[e].players
    ensures Attach(db, f, t, inserted).entries[e].session == db.entries[e].session
  {
    if CanAttach(db, f, t, inserted) && db.entries[e].session == Some(t) {
      AttachTickets(db, f, t, inserted);
    }
  }

  lemma AttachTickets(db: Db, f: EntryId, t: SessionId, inserted: bool)
    requires RowsOk(db) && CanAttach(db, f, t, inserted)
    ensures var members := Attach(db, f, t, inserted).sessions[t].members;
            Ticket(members, f) == db.entries[f].players &&
            forall e | e != f :: Ticket(members, e) == Ticket(db.sessions[t].members, e)
    ensures forall p | p in db.sessions[t].members && db.sessions[t].members[p].state != Left ::
              db.sessions[t].members[p].entry != f
    ensures db.entries[f].players !! Active(db.sessions[t].members)
  {
    var members := db.sessions[t].members;
    forall p | p in members && members[p].state != Left ensures members[p].entry != f {
      assert TicketOk(db, t, p);
    }
    forall p | p in db.entries[f].players ensures p !in Active(members) {
    }
    JoinTickets(members, f, db.entries[f]);
  }

  lemma RestateTicket(members: Members, from: MemberState, to: MemberState, e: EntryId)
    requires from != Left && to != Left
    ensures Ticket(Restate(members, from, to), e) == Ticket(members, e)
  {
  }

  lemma {:induction false} SeatsKept(db: Db, actions: seq<Action>, e: EntryId)
    requires Usable(db) && TickActions(actions) && Seated(db, e)
    ensures Seated(Run(db, actions), e) && Run(db, actions).entries[e].players == db.entries[e].players
    ensures Run(db, actions).entries[e].session == db.entries[e].session
  {
    if actions != [] {
      var n := |actions| - 1;
      SeatsKept(db, actions[..n], e);
      TickActionsKeep(db, actions[..n]);
      SeatKept(Run(db, actions[..n]), actions[n], e);
    }
  }

  // ----- What a tick leaves behind

  /** Nobody waits for an instance that is open. */
  ghost predicate NoneWaits(db: Db, round: Round) {
    forall s | s in AcceptingSessions(db, round.group, round.stale) ::
      db.sessions[s].state == WaitingForInstance ==> NoneClaimable(db, round)
  }

  /** In a session whose instance has an endpoint the ticket is on its way. */
  ghost predicate Begun(db: Db, round: Round, e: EntryId) {
    Seated(db, e) &&
    var s := db.entries[e].session.value;
    db.sessions[s].instance.Some? && db.sessions[s].instance.value in round.reach ==>
      db.entries[e].transferStarted &&
      forall p | p in Ticket(db.sessions[s].members, e) :: db.sessions[s].members[p].state != Selected
  }

  /** A session that can start does not go on forming. */
  ghost predicate Dispatched(db: Db, s: SessionId) {
    !(s in db.sessions && db.sessions[s].state == Forming && Eligible(db, s))
  }

  /** The row of a session that got no ticket: only one that waited for an instance is looked at. */
  ghost predicate ResumedRow(before: Db, row: Session, s: SessionId, round: Round)
    requires s in before.sessions
  {
    var row0 := before.sessions[s];
    if s !in AcceptingSessions(before, round.group, round.stale) || row0.state != WaitingForInstance then row == row0
    else if !Eligible(before, s) then row == row0.(state := Forming)
    else
      row == row0 ||
      exists i | i in round.usable && IsClaimable(before, round.group, i) ::
        row == row0.(state := InTransfer, instance := Some(i), members := Restate(row0.members, Selected, Transferring))
  }

  /** No instance is opened by a tick. */
  lemma ClaimsShrink(db: Db, a: Action, group: GroupId)
    requires TickAction(a)
    ensures forall i :: IsClaimable(Apply(db, a), group, i) ==> IsClaimable(db, group, i)
  {
  }

  lemma {:induction false} ClaimsShrinkAlong(db: Db, actions: seq<Action>, group: GroupId)
    requires TickActions(actions)
    ensures forall i :: IsClaimable(Run(db, actions), group, i) ==> IsClaimable(db, group, i)
  {
    if actions != [] {
      var n := |actions| - 1;
      ClaimsShrinkAlong(db, actions[..n], group);
      ClaimsShrink(Run(db, actions[..n]), actions[n], group);
    }
  }

  lemma NoneWaitsKept(db: Db, a: Action, round: Round)
    requires TickAction(a) && IsJustified(db, a, round) && NoneWaits(db, round)
    ensures NoneWaits(Apply(db, a), round)
  {
    var after := Apply(db, a);
    ClaimsShrink(db, a, round.group);
    forall s | s in AcceptingSessions(after, round.group, round.stale) && after.sessions[s].state == WaitingForInstance
      ensures NoneClaimable(after, round)
    {
      if a != DoAwaitInstance(s) {
        StaysWaiting(db, a, s);
      }
    }
  }

  lemma StaysWaiting(db: Db, a: Action, s: SessionId)
    requires TickAction(a) && a != DoAwaitInstance(s)
    requires s in Apply(db, a).sessions && Apply(db, a).sessions[s].state == WaitingForInstance
    ensures s in db.sessions && db.sessions[s].state == WaitingForInstance
    ensures db.sessions[s].group == Apply(db, a).sessions[s].group
  {
  }

  lemma {:induction false} NoneWaitsAlong(db: Db, actions: seq<Action>, round: Round)
    requires TickActions(actions) && Along(db, actions, Justified(round)) && NoneWaits(db, round)
    ensures NoneWaits(Run(db, actions), round)
  {
    if actions != [] {
      var n := |actions| - 1;
      AlongFront(db, actions, Justified(round));
      NoneWaitsAlong(db, actions[..n], round);
      NoneWaitsKept(Run(db, actions[..n]), actions[n], round);
    }
  }

  lemma AlongFront(db: Db, actions: seq<Action>, cond: (Db, Action) -> bool)
    requires Along(db, actions, cond) && actions != []
    ensures Along(db, actions[..|actions| - 1], cond)
    ensures cond(Run(db, actions[..|actions| - 1]), actions[|actions| - 1])
  {
    var n := |actions| - 1;
    forall k: nat | k < n ensures At(db, actions[..n], cond, k) {
      assert At(db, actions, cond, k);
      assert actions[..n][..k] == actions[..k];
    }
    assert At(db, actions, cond, n);
  }

  /** Whoever is on its way stays so, and a session that gets an instance starts everybody's transfer. */
  lemma BegunKept(db: Db, a: Action, e: EntryId, round: Round)
    requires Usable(db) && TickAction(a) && Begun(db, round, e)
    ensures Begun(Apply(db, a), round, e)
  {
    SeatKept(db, a, e);
    var s := db.entries[e].session.value;
    match a {
      case DoDemote(_) =>
      case DoAwaitInstance(_) =>
      case DoOpenSession(_, _, _) =>
      case DoReserve(t, i) => ReservingBegins(db, t, i, e, round);
      case DoBeginTicketTransfer(f, t) =>
      case DoAttach(f, t, inserted) => AttachLeavesBegun(db, f, t, inserted, e, round);
    }
  }

  lemma ReservingBegins(db: Db, t: SessionId, i: InstanceId, e: EntryId, round: Round)
    requires Begun(db, round, e)
    ensures Begun(Reserve(db, t, i), round, e)
  {
    if CanReserve(db, t, i) && db.entries[e].session == Some(t) {
      RestateTicket(db.sessions[t].members, Selected, Transferring, e);
    }
  }

  lemma AttachLeavesBegun(db: Db, f: EntryId, t: SessionId, inserted: bool, e: EntryId, round: Round)
    requires Usable(db) && Begun(db, round, e)
    ensures Begun(Attach(db, f, t, inserted), round, e)
  {
    AttachKeepsSeat(db, f, t, inserted, e);
    if CanAttach(db, f, t, inserted) && db.entries[e].session == Some(t) {
      AttachTickets(db, f, t, inserted);
    }
  }

  lemma {:induction false} BegunAlong(db: Db, actions: seq<Action>, e: EntryId, round: Round)
    requires Usable(db) && TickActions(actions) && Begun(db, round, e)
    ensures Begun(Run(db, actions), round, e)
  {
    if actions != [] {
      var n := |actions| - 1;
      BegunAlong(db, actions[..n], e, round);
      TickActionsKeep(db, actions[..n]);
      BegunKept(Run(db, actions[..n]), actions[n], e, round);
    }
  }

  /** These sessions have been looked at; each other row is as it was. */
  ghost predicate ResumedUpTo(start: Db, now: Db, round: Round, done: set<SessionId>) {
    && now.policies == start.policies && now.sessions.Keys == start.sessions.Keys
    && (forall i :: IsClaimable(now, round.group, i) ==> IsClaimable(start, round.group, i))
    && forall s | s in start.sessions ::
         if s in done
         then ResumedRow(start, now.sessions[s], s, round) &&
              (now.sessions[s].state == WaitingForInstance ==> NoneClaimable(now, round))
         else now.sessions[s] == start.sessions[s]
  }

  lemma ResumedOneMore(start: Db, mid: Db, now: Db, round: Round, done: set<SessionId>, s: SessionId, steps: seq<Action>)
    requires ResumedUpTo(start, mid, round, done) && s in AcceptingSessions(mid, round.group, round.stale) && s !in done
    requires Reached(mid, now, steps, round, []) && now.sessions.Keys == mid.sessions.Keys
    requires forall t | t in mid.sessions && t != s :: now.sessions[t] == mid.sessions[t]
    requires ResumedRow(mid, now.sessions[s], s, round)
    requires now.sessions[s].state == WaitingForInstance ==> NoneClaimable(now, round)
    ensures ResumedUpTo(start, now, round, done + {s})
  {
    ClaimsShrinkAlong(mid, steps, round.group);
    assert Eligible(mid, s) <==> Eligible(start, s);
    assert ResumedRow(start, now.sessions[s], s, round);
  }

  /** The loop over the waiting sessions, one session further. */
  lemma ResumedNext(start: Db, mid: Db, now: Db, actions: seq<Action>, steps: seq<Action>, round: Round,
                    done: set<SessionId>, s: SessionId)
    requires Reached(start, mid, actions, round, []) && QueueKept(start, mid, {}) && ResumedUpTo(start, mid, round, done)
    requires Reached(mid, now, steps, round, []) && OnlySession(mid, now, s, {})
    requires s in AcceptingSessions(mid, round.group, round.stale) && s !in done
    requires ResumedRow(mid, now.sessions[s], s, round)
    requires now.sessions[s].state == WaitingForInstance ==> NoneClaimable(now, round)
    ensures Reached(start, now, actions + steps, round, []) && QueueKept(start, now, {})
    ensures ResumedUpTo(start, now, round, done + {s})
  {
    ReachedThen(start, mid, now, actions, steps, round, [], []);
    ResumedOneMore(start, mid, now, round, done, s, steps);
  }

  lemma AllResumed(start: Db, now: Db, round: Round, done: set<SessionId>)
    requires ResumedUpTo(start, now, round, done) && AcceptingSessions(now, round.group, round.stale) <= done
    ensures NoneWaits(now, round)
    ensures forall s | s in start.sessions :: ResumedRow(start, now.sessions[s], s, round)
  {
    forall s | s in start.sessions && s !in done ensures ResumedRow(start, now.sessions[s], s, round) {
      assert s !in AcceptingSessions(now, round.group, round.stale);
    }
  }

  /** A ticket that is attached has members of its party only. */
  lemma AttachSeats(db: Db, e: EntryId, s: SessionId, inserted: bool)
    requires Usable(db) && CanAttach(db, e, s, inserted)
    ensures JustSeated(Attach(db, e, s, inserted), e, s)
  {
    AttachTickets(db, e, s, inserted);
  }

  lemma TransferBegins(db: Db, e: EntryId, s: SessionId, round: Round)
    requires Usable(db) && JustSeated(db, e, s) && db.sessions[s].instance.Some?
    ensures Begun(BeginTicketTransfer(db, e, s), round, e) && Dispatched(BeginTicketTransfer(db, e, s), s)
  {
    SeatKept(db, DoBeginTicketTransfer(e, s), e);
    assert ReservationOk(db, s);
  }

  /** No ticket of these is in the session. */
  ghost predicate NoTicket(db: Db, tickets: seq<EntryId>, s: SessionId) {
    forall e | e in tickets :: e in db.entries ==> db.entries[e].session != Some(s)
  }

  /** What the tick has achieved with these tickets since the waiting sessions were resumed. */
  ghost predicate Progress(resumed: Db, now: Db, round: Round, tickets: seq<EntryId>) {
    && NoneWaits(now, round)
    && (forall e | e in tickets :: Begun(now, round, e) && Dispatched(now, now.entries[e].session.value))
    && (forall s | s in resumed.sessions ::
          s in now.sessions && (NoTicket(now, tickets, s) ==> now.sessions[s] == resumed.sessions[s]))
  }

  /** One more ticket: only its session was touched. */
  lemma ProgressThen(resumed: Db, mid: Db, now: Db, steps: seq<Action>, round: Round, tickets: seq<EntryId>, e: EntryId)
    requires Usable(mid) && Progress(resumed, mid, round, tickets) && Reached(mid, now, steps, round, [e])
    requires Begun(now, round, e) && Dispatched(now, now.entries[e].session.value)
    requires forall s | s in mid.sessions :: s in now.sessions && (Some(s) != now.entries[e].session ==> now.sessions[s] == mid.sessions[s])
    ensures Progress(resumed, now, round, tickets + [e])
  {
    NoneWaitsAlong(mid, steps, round);
    forall f | f in tickets ensures Begun(now, round, f) && Dispatched(now, now.entries[f].session.value) {
      BegunAlong(mid, steps, f, round);
      SeatsKept(mid, steps, f);
    }
    forall s | s in resumed.sessions
      ensures s in now.sessions && (NoTicket(now, tickets + [e], s) ==> now.sessions[s] == resumed.sessions[s])
    {
      if NoTicket(now, tickets + [e], s) {
        assert e in tickets + [e];
        forall f | f in tickets ensures mid.entries[f].session != Some(s) {
          assert f in tickets + [e];
          SeatsKept(mid, steps, f);
        }
      }
    }
  }

  // ----- The view and the rows

  /** The view of one session agrees with its row; ids name the tickets behind the sizes. */
  ghost predicate Tracks(c: SessionCandidate, ids: seq<EntryId>, group: GroupId, db: Db) {
    && c.id in db.sessions
    && var row := db.sessions[c.id];
       row.group == group && row.state == c.state && row.instance == c.instance && row.createdAt == c.createdAt &&
       Accepting(c.state) && TicketList(row.members, ids) && c.ticketSizes == SizesOf(row.members, ids)
  }

  ghost predicate TracksAll(sessions: seq<SessionCandidate>, ids: seq<seq<EntryId>>, group: GroupId, db: Db) {
    && |ids| == |sessions|
    && (forall i, j :: 0 <= i < j < |sessions| ==> sessions[i].id != sessions[j].id)
    && (forall i | 0 <= i < |sessions| :: Tracks(sessions[i], ids[i], group, db))
  }

  /** The list holds exactly the accepting sessions of the group that are not stale. */
  ghost predicate Loaded(
      sessions: seq<SessionCandidate>, ids: seq<seq<EntryId>>, group: GroupId, stale: set<SessionId>, db: Db) {
    TracksAll(sessions, ids, group, db) && SessionIds(sessions) == AcceptingSessions(db, group, stale)
  }

  ghost function SessionIds(sessions: seq<SessionCandidate>): set<SessionId> {
    set i | 0 <= i < |sessions| :: sessions[i].id
  }

  lemma OneMoreSeen(before: seq<SessionCandidate>, now: seq<SessionCandidate>, ids: seq<seq<EntryId>>, group: GroupId,
                    db: Db, done: set<SessionId>, i: nat)
    requires TracksAll(before, ids, group, db) && i < |before| == |now|
    requires forall j | 0 <= j < |now| :: now[j].id == before[j].id && (before[j].id in done <==> j < i)
    ensures forall j | 0 <= j < |now| :: now[j].id in done + {before[i].id} <==> j < i + 1
  {
    forall j | 0 <= j < |now| && j != i ensures before[j].id != before[i].id {
      assert j < i ==> before[j].id != before[i].id;
      assert i < j ==> before[i].id != before[j].id;
    }
  }

  lemma AllSeen(sessions: seq<SessionCandidate>, done: set<SessionId>)
    requires forall j | 0 <= j < |sessions| :: sessions[j].id in done
    ensures SessionIds(sessions) <= done
  {
  }

  lemma SessionIdsAppend(sessions: seq<SessionCandidate>, c: SessionCandidate)
    ensures SessionIds(sessions + [c]) == SessionIds(sessions) + {c.id}
  {
    var longer := sessions + [c];
    forall i | 0 <= i < |longer| ensures longer[i].id in SessionIds(sessions) + {c.id} {
      if i < |sessions| {
        assert longer[i] == sessions[i];
      }
    }
    forall i | 0 <= i < |sessions| ensures sessions[i].id in SessionIds(longer) {
      assert longer[i] == sessions[i];
    }
    assert longer[|sessions|].id in SessionIds(longer);
  }

  lemma TracksAppend(
      sessions: seq<SessionCandidate>, ids: seq<seq<EntryId>>, group: GroupId, db: Db, c: SessionCandidate, tickets: seq<EntryId>)
    requires TracksAll(sessions, ids, group, db) && Tracks(c, tickets, group, db) && c.id !in SessionIds(sessions)
    ensures TracksAll(sessions + [c], ids + [tickets], group, db)
  {
    assert forall i | 0 <= i < |sessions| :: sessions[i].id in SessionIds(sessions);
  }

  /** Steps on one session leave the view of the others alone. */
  lemma ReplaceTracked(
      sessions: seq<SessionCandidate>, ids: seq<seq<EntryId>>, group: GroupId, stale: set<SessionId>, db: Db, after: Db,
      i: nat, c: SessionCandidate, tickets: seq<EntryId>)
    requires Loaded(sessions, ids, group, stale, db) && i < |sessions| && c.id == sessions[i].id
    requires after.sessions.Keys == db.sessions.Keys
    requires forall s | s in db.sessions && s != c.id :: after.sessions[s] == db.sessions[s]
    requires Tracks(c, tickets, group, after)
    ensures Loaded(sessions[i := c], ids[i := tickets], group, stale, after)
  {
    var now, tracked := sessions[i := c], ids[i := tickets];
    forall s | s in SessionIds(sessions) ensures s in SessionIds(now) {
      var j :| 0 <= j < |sessions| && sessions[j].id == s;
      assert now[j].id == s;
    }
    forall j | 0 <= j < |now| ensures now[j].id in SessionIds(sessions) {
      assert sessions[j].id == now[j].id;
    }
    assert db.sessions[c.id].group == group && Accepting(db.sessions[c.id].state) by {
      assert Tracks(sessions[i], ids[i], group, db);
    }
    assert c.id in SessionIds(now) by {
      assert now[i].id == c.id;
    }
    forall s | s in AcceptingSessions(after, group, stale) ensures s in SessionIds(now) {
      assert s != c.id ==> s in AcceptingSessions(db, group, stale);
    }
    forall j | 0 <= j < |now| ensures Tracks(now[j], tracked[j], group, after) {
      if j != i {
        assert Tracks(sessions[j], ids[j], group, db);
      }
    }
  }

  lemma TicketsUnchanged(a: Members, b: Members, ids: seq<EntryId>)
    requires TicketList(a, ids)
    requires forall e :: Ticket(b, e) == Ticket(a, e)
    ensures TicketList(b, ids) && SizesOf(b, ids) == SizesOf(a, ids)
  {
  }

  /** GROUP BY queue entry over the members that have not left. */
  method LoadTicketSizes(members: Members) returns (sizes: seq<int>, ghost ids: seq<EntryId>)
    ensures TicketList(members, ids) && sizes == SizesOf(members, ids)
    ensures |sizes| == |ids| && Sum(sizes) == |Active(members)|
  {
    sizes, ids := [], [];
    var left := set p | p in Active(members) :: members[p].entry;
    ghost var all := left;
    while left != {}
      invariant left <= all
      invariant Distinct(ids)
      invariant forall e :: e in ids <==> e in all - left
      invariant sizes == SizesOf(members, ids)
      decreases |left|
    {
      var e := Pick(left);
      assert e !in ids;
      assert SizesOf(members, ids + [e]) == SizesOf(members, ids) + [|Ticket(members, e)|];
      sizes := sizes + [|Ticket(members, e)|];
      ids := ids + [e];
      left := left - {e};
    }
    forall e ensures e in ids <==> Ticket(members, e) != {} {
      if e in all {
        var p :| p in Active(members) && members[p].entry == e;
        assert p in Ticket(members, e);
      }
      forall p | p in Ticket(members, e) ensures e in all {
        assert p in Active(members);
      }
    }
    SizesCountPlayers(members, ids);
  }

  // ----- Eligibility

  lemma EligibleMatches(members: Members, ids: seq<EntryId>, rec: Option<Profile>, policy: Policy)
    requires TicketList(members, ids)
    requires IsRecommended(rec, SizesOf(members, ids), policy.teamCount, policy.teamSize)
    ensures StartEligible(members, policy) <==>
              Sum(SizesOf(members, ids)) >= policy.minimumPlayers &&
              IsProfileEligible(rec, policy.minimumPlayersPerTeam, policy.maximumTeamSpread)
  {
    SizesCountPlayers(members, ids);
    forall other, r
      ensures TicketList(members, other) && IsRecommended(r, SizesOf(members, other), policy.teamCount, policy.teamSize) ==>
                r == rec
    {
      if TicketList(members, other) && IsRecommended(r, SizesOf(members, other), policy.teamCount, policy.teamSize) {
        SameTicketsSameSizes(members, ids, other);
        RecommendationIsUnique(rec, r, SizesOf(members, ids), SizesOf(members, other), policy.teamCount, policy.teamSize);
      }
    }
  }

  method IsExpectedStartEligible(
      session: SessionCandidate, policy: Policy, ghost members: Members, ghost ids: seq<EntryId>)
    returns (eligible: bool)
    requires TicketList(members, ids) && session.ticketSizes == SizesOf(members, ids)
    ensures eligible == StartEligible(members, policy)
  {
    var playerCount := Sum(session.ticketSizes);
    var recommended := Recommend(session.ticketSizes, policy.teamCount, policy.teamSize);
    EligibleMatches(members, ids, recommended, policy);
    if playerCount < policy.minimumPlayers {
      return false;
    }
    return IsProfileEligible(recommended, policy.minimumPlayersPerTeam, policy.maximumTeamSpread);
  }

  // ----- Room, in any ticket order

  lemma RoomInAnyOrder(members: Members, ids: seq<EntryId>, ticketSize: int, policy: Policy)
    requires TicketList(members, ids)
    ensures RoomFor(members, ticketSize, policy) <==>
              FitsTicket(SizesOf(members, ids), ticketSize, policy.teamCount, policy.teamSize, policy.maximumPlayers)
  {
    if RoomFor(members, ticketSize, policy) {
      var other :| TicketList(members, other) &&
        FitsTicket(SizesOf(members, other), ticketSize, policy.teamCount, policy.teamSize, policy.maximumPlayers);
      SameTicketsSameSizes(members, other, ids);
      FitsInAnyOrder(SizesOf(members, other), SizesOf(members, ids), ticketSize, policy);
    }
  }

  lemma FitsInAnyOrder(sizes: seq<int>, other: seq<int>, ticketSize: int, policy: Policy)
    requires multiset(sizes) == multiset(other)
    requires FitsTicket(sizes, ticketSize, policy.teamCount, policy.teamSize, policy.maximumPlayers)
    ensures FitsTicket(other, ticketSize, policy.teamCount, policy.teamSize, policy.maximumPlayers)
  {
    var a, b := sizes + [ticketSize], other + [ticketSize];
    assert multiset(a) == multiset(b);
    SumOfPermutation(a, b);
    ValidTicketsIgnoreOrder(a, b, policy.teamCount, policy.teamSize);
    var teams :| Assigns(teams, a, policy.teamCount, policy.teamSize);
    var moved := ReorderAssignment(a, b, teams, policy.teamCount);
    assert Assigns(moved, b, policy.teamCount, policy.teamSize);
  }

  // ----- Steps as runs

  lemma SeatFollows(start: Db, mid: Db, now: Db, s: SessionId, e: EntryId, inserted: bool, steps: seq<Action>, round: Round)
    requires Usable(start) && IsJustified(start, DoAttach(e, s, inserted), round) && mid == Attach(start, e, s, inserted)
    requires Seated(mid, e) && mid.entries[e].players == start.entries[e].players && OnlySession(start, mid, s, {e})
    requires mid.entries[e].session == Some(s)
    requires Reached(mid, now, steps, round, []) && OnlySession(mid, now, s, {})
    ensures Usable(now) && Reached(start, now, [DoAttach(e, s, inserted)] + steps, round, [e])
    ensures OnlySession(start, now, s, {e})
    ensures Seated(now, e) && now.entries[e].players == start.entries[e].players && now.entries[e].session == Some(s)
  {
    UsableAction(start, DoAttach(e, s, inserted));
    TickActionsKeep(mid, steps);
    SeatsKept(mid, steps, e);
    ReachedByAttach(start, e, s, inserted, round);
    ReachedThen(start, mid, now, [DoAttach(e, s, inserted)], steps, round, [e], []);
    assert [e] + [] == [e];
    OnlySessionThen(start, mid, now, s, e);
  }

  lemma OnlySessionThen(start: Db, mid: Db, now: Db, s: SessionId, e: EntryId)
    requires OnlySession(start, mid, s, {e}) && OnlySession(mid, now, s, {})
    ensures OnlySession(start, now, s, {e})
  {
    forall f | f in start.entries && start.entries[f].state == EntryQueued && f !in {e}
      ensures f in now.entries && now.entries[f] == start.entries[f]
    {
      assert f in mid.entries && mid.entries[f] == start.entries[f];
    }
  }

  /** The members after some players of the ticket were inserted. */
  function JoinSome(members: Members, e: EntryId, entry: Entry, who: set<PlayerId>): Members {
    members + map p | p in who :: Member(entry.party, e, Selected)
  }

  lemma JoinOneMore(members: Members, e: EntryId, entry: Entry, left: set<PlayerId>, p: PlayerId)
    requires p in left && left <= entry.players && p !in Active(members)
    ensures p !in Active(JoinSome(members, e, entry, entry.players - left))
    ensures JoinSome(members, e, entry, entry.players - left)[p := Member(entry.party, e, Selected)] ==
            JoinSome(members, e, entry, entry.players - (left - {p}))
  {
    assert entry.players - (left - {p}) == (entry.players - left) + {p};
  }

  lemma ReachedNowhere(db: Db, round: Round)
    ensures Reached(db, db, [], round, [])
  {
  }

  function Placement(c: SessionCandidate): SessionPlacementCandidate {
    SessionPlacementCandidate(c.id, c.createdAt, c.ticketSizes)
  }

  ghost predicate Fits(c: SessionCandidate, ticketSize: int, policy: Policy) {
    FitsTicket(c.ticketSizes, ticketSize, policy.teamCount, policy.teamSize, policy.maximumPlayers)
  }

  /** r is what the ranking makes of the session. */
  ghost predicate IsRankedAs(r: RankedSessionCandidate, session: SessionCandidate, ticketSize: int, policy: Policy) {
    RankedForm(r, Placement(session), ticketSize, policy.teamCount, policy.teamSize, policy.maximumPlayers)
  }

  lemma FirstIsNotBeaten(ranked: seq<RankedSessionCandidate>, other: SessionPlacementCandidate)
    requires forall i, j :: 0 <= i < j < |ranked| ==> CompareRanked(ranked[i], ranked[j]) <= 0
    requires exists r :: r in ranked && r.candidate == other
    ensures exists r :: r in ranked && r.candidate == other && CompareRanked(ranked[0], r) <= 0
  {
    var k :| 0 <= k < |ranked| && ranked[k].candidate == other;
    CompareRankedLaws(ranked[k], ranked[k], ranked[k]);
    assert ranked[k] in ranked;
  }

  lemma BestFitIsFullest(
      ranked: seq<RankedSessionCandidate>, other: SessionPlacementCandidate, ticketSize: int, policy: Policy)
    requires forall r | r in ranked ::
               RankedForm(r, r.candidate, ticketSize, policy.teamCount, policy.teamSize, policy.maximumPlayers)
    requires forall i, j :: 0 <= i < j < |ranked| ==> CompareRanked(ranked[i], ranked[j]) <= 0
    requires exists r :: r in ranked && r.candidate == other
    ensures Sum(other.ticketSizes) <= Sum(ranked[0].candidate.ticketSizes)
  {
    var k :| 0 <= k < |ranked| && ranked[k].candidate == other;
    FirstIsBestFit(ranked, k, ticketSize, policy.teamCount, policy.teamSize, policy.maximumPlayers);
    assert ranked[0] in ranked && ranked[k] in ranked;
    SumAppend(other.ticketSizes, ticketSize);
    SumAppend(ranked[0].candidate.ticketSizes, ticketSize);
  }

  lemma RunOne(db: Db, a: Action)
    ensures Run(db, [a]) == Apply(db, a)
  {
    assert [a][..0] == [];
  }

  /** The view follows a reservation. */
  lemma ReserveTracked(db: Db, c: SessionCandidate, ids: seq<EntryId>, group: GroupId, i: InstanceId)
    requires Tracks(c, ids, group, db) && CanReserve(db, c.id, i)
    ensures Tracks(c.(instance := Some(i), state := InTransfer), ids, group, Reserve(db, c.id, i))
    ensures Reserve(db, c.id, i).sessions.Keys == db.sessions.Keys
    ensures forall s | s in db.sessions && s != c.id :: Reserve(db, c.id, i).sessions[s] == db.sessions[s]
  {
    var members := db.sessions[c.id].members;
    forall e ensures Ticket(Restate(members, Selected, Transferring), e) == Ticket(members, e) {
      RestateTicket(members, Selected, Transferring, e);
    }
    TicketsUnchanged(members, Restate(members, Selected, Transferring), ids);
  }

  /** The view follows a ticket transfer. */
  lemma TransferTracked(db: Db, c: SessionCandidate, ids: seq<EntryId>, group: GroupId, e: EntryId)
    requires Tracks(c, ids, group, db) && e in db.entries && db.entries[e].state == EntrySelected
    requires c.instance.Some?
    ensures var after := BeginTicketTransfer(db, e, c.id);
            Tracks(c, ids, group, after) && OnlySession(db, after, c.id, {})
  {
    var before, members := db.sessions[c.id].members, BeginTicketTransfer(db, e, c.id).sessions[c.id].members;
    forall f ensures Ticket(members, f) == Ticket(before, f) {
    }
    TicketsUnchanged(before, members, ids);
  }

  /** The view follows an attached ticket: its size is pushed. */
  lemma AttachTracked(db: Db, c: SessionCandidate, ids: seq<EntryId>, group: GroupId, e: EntryId, inserted: bool)
    requires Usable(db) && Tracks(c, ids, group, db) && CanAttach(db, e, c.id, inserted)
    ensures var after := Attach(db, e, c.id, inserted);
            Tracks(c.(ticketSizes := c.ticketSizes + [|db.entries[e].players|]), ids + [e], group, after) &&
            OnlySession(db, after, c.id, {e}) && Seated(after, e) && after.entries[e].players == db.entries[e].players
  {
    var members := db.sessions[c.id].members;
    AttachTickets(db, e, c.id, inserted);
    assert EntryOk(db, e);
    JoinedTicketList(members, e, db.entries[e], ids);
  }

  /** The chosen session, or nothing, in terms of the rows. */
  lemma ChoiceMeansRoom(db: Db, sessions: seq<SessionCandidate>, ids: seq<seq<EntryId>>, group: GroupId,
                        stale: set<SessionId>, ticketSize: int)
    requires Loaded(sessions, ids, group, stale, db) && group in db.policies
    ensures forall i | 0 <= i < |sessions| ::
              Fits(sessions[i], ticketSize, db.policies[group]) <==>
              RoomFor(db.sessions[sessions[i].id].members, ticketSize, db.policies[group])
    ensures (forall i | 0 <= i < |sessions| :: !Fits(sessions[i], ticketSize, db.policies[group])) ==>
              NoRoom(db, group, stale, ticketSize)
  {
    forall i | 0 <= i < |sessions|
      ensures Fits(sessions[i], ticketSize, db.policies[group]) <==>
              RoomFor(db.sessions[sessions[i].id].members, ticketSize, db.policies[group])
    {
      assert Tracks(sessions[i], ids[i], group, db);
      RoomInAnyOrder(db.sessions[sessions[i].id].members, ids[i], ticketSize, db.policies[group]);
    }
  }

  lemma NobodyThereMeans(db: Db, e: EntryId, s: SessionId)
    requires e in db.entries && s in db.sessions
    ensures NobodyThere(db, e, s) <==> db.entries[e].players !! Active(db.sessions[s].members)
  {
    var players, active := db.entries[e].players, Active(db.sessions[s].members);
    if NobodyThere(db, e, s) {
      forall p | p in players ensures p !in active {
      }
    }
    if players !! active {
      forall p | p in players ensures p !in Active(db.sessions[s].members) {
      }
    }
  }

  /** Where everybody is in one place, a session never expects a player who is queued. */
  lemma NobodyIsThere(db: Db, e: EntryId, s: SessionId)
    requires OnePlace(db) && e in db.entries && db.entries[e].state == EntryQueued
    requires s in db.sessions && Accepting(db.sessions[s].state)
    ensures NobodyThere(db, e, s)
  {
    forall p | p in db.entries[e].players ensures p !in Active(db.sessions[s].members) {
      assert QueuedWith(db, e, p);
      assert !PlaysIn(db, s, p);
    }
  }

  /** The session that a tick chooses for a queued ticket: it has room, and as many players as any other with room. */
  ghost predicate ChosenFor(db: Db, group: GroupId, stale: set<SessionId>, e: EntryId, s: SessionId) {
    && Offered(db, e, s, false) && db.entries[e].group == group
    && forall t | t in AcceptingSessions(db, group, stale) &&
         RoomFor(db.sessions[t].members, |db.entries[e].players|, db.policies[group]) ::
         |Active(db.sessions[t].members)| <= |Active(db.sessions[s].members)|
  }

  lemma ChoiceIsChosen(db: Db, sessions: seq<SessionCandidate>, ids: seq<seq<EntryId>>, group: GroupId,
                       stale: set<SessionId>, e: EntryId, chosen: nat)
    requires Loaded(sessions, ids, group, stale, db) && group in db.policies && chosen < |sessions|
    requires e in db.entries && db.entries[e].state == EntryQueued && db.entries[e].group == group
    requires Fits(sessions[chosen], |db.entries[e].players|, db.policies[group])
    requires forall i | 0 <= i < |sessions| && Fits(sessions[i], |db.entries[e].players|, db.policies[group]) ::
               Sum(sessions[i].ticketSizes) <= Sum(sessions[chosen].ticketSizes)
    ensures ChosenFor(db, group, stale, e, sessions[chosen].id)
  {
    var s := sessions[chosen].id;
    ChoiceMeansRoom(db, sessions, ids, group, stale, |db.entries[e].players|);
    assert Tracks(sessions[chosen], ids[chosen], group, db);
    SizesCountPlayers(db.sessions[s].members, ids[chosen]);
    forall t | t in AcceptingSessions(db, group, stale) &&
               RoomFor(db.sessions[t].members, |db.entries[e].players|, db.policies[group])
      ensures |Active(db.sessions[t].members)| <= |Active(db.sessions[s].members)|
    {
      var i :| 0 <= i < |sessions| && sessions[i].id == t;
      assert Tracks(sessions[i], ids[i], group, db);
      SizesCountPlayers(db.sessions[t].members, ids[i]);
    }
  }

  /** A new empty session joins the view. */
  lemma OpenedLoaded(db: Db, sessions: seq<SessionCandidate>, ids: seq<seq<EntryId>>, group: GroupId,
                     stale: set<SessionId>, s: SessionId, createdAt: int)
    requires Loaded(sessions, ids, group, stale, db) && s !in db.sessions && s !in stale && group in db.policies
    ensures Loaded(sessions + [SessionCandidate(s, Forming, None, createdAt, [])], ids + [[]], group, stale,
                   OpenSession(db, s, group, createdAt))
  {
    var c := SessionCandidate(s, Forming, None, createdAt, []);
    var after := OpenSession(db, s, group, createdAt);
    SessionIdsAppend(sessions, c);
    forall i | 0 <= i < |sessions| ensures Tracks(sessions[i], ids[i], group, after) {
      assert Tracks(sessions[i], ids[i], group, db);
    }
    assert TracksAll(sessions, ids, group, after);
    TracksAppend(sessions, ids, group, after, c, []);
  }

  lemma OpenThenSeat(start: Db, mid: Db, now: Db, s: SessionId, createdAt: int, e: EntryId, rest: seq<Action>, round: Round)
    requires mid == OpenSession(start, s, round.group, createdAt) && mid.policies == start.policies
    requires e in start.entries && round.group in start.policies
    requires NoRoom(start, round.group, round.stale, |start.entries[e].players|)
    requires Reached(mid, now, rest, round, [e]) && rest != [] && rest[0] == DoAttach(e, s, true)
    ensures Reached(start, now, [DoOpenSession(s, round.group, createdAt)] + rest, round, [e])
  {
    var first := [DoOpenSession(s, round.group, createdAt)];
    RunOne(start, first[0]);
    AttachedOne(first[0]);
    AttachedConcat(first, rest);
    AlongConcat(start, first, rest, Justified(round));
    RunSplit(start, first, rest);
    OpensFirst(start, mid, s, createdAt, e, rest, round);
  }

  lemma OpensFirst(start: Db, mid: Db, s: SessionId, createdAt: int, e: EntryId, rest: seq<Action>, round: Round)
    requires mid == Run(start, [DoOpenSession(s, round.group, createdAt)])
    requires e in start.entries && round.group in start.policies
    requires NoRoom(start, round.group, round.stale, |start.entries[e].players|)
    requires OpensOnlyWhenFull(mid, rest, round.group, round.stale) && rest != [] && rest[0] == DoAttach(e, s, true)
    ensures OpensOnlyWhenFull(start, [DoOpenSession(s, round.group, createdAt)] + rest, round.group, round.stale)
  {
    var first := [DoOpenSession(s, round.group, createdAt)];
    var all := first + rest;
    forall k: nat | k < |all| && all[k].DoOpenSession? ensures OpensAt(start, all, k, round.group, round.stale) {
      if k == 0 {
        assert all[..0] == [];
      } else {
        OpensLater(start, first, rest, k, round.group, round.stale);
      }
    }
  }

  lemma AllSeatedThen(start: Db, mid: Db, steps: seq<Action>, window: seq<EntryId>)
    requires Usable(mid) && TickActions(steps) && AllSeated(start, mid, window)
    ensures AllSeated(start, Run(mid, steps), window)
  {
    forall e | e in window
      ensures Seated(Run(mid, steps), e) && Run(mid, steps).entries[e].players == start.entries[e].players
    {
      SeatsKept(mid, steps, e);
    }
  }

  lemma QueueKeptThen(start: Db, mid: Db, now: Db, window: seq<EntryId>, i: nat)
    requires i < |window|
    requires QueueKept(start, mid, Elements(window[..i])) && QueueKept(mid, now, {window[i]})
    ensures QueueKept(start, now, Elements(window[..i + 1]))
  {
    assert window[..i + 1] == window[..i] + [window[i]];
    forall e | e in start.entries && start.entries[e].state == EntryQueued && e !in window[..i + 1]
      ensures e in now.entries && now.entries[e] == start.entries[e]
    {
      assert e in mid.entries && mid.entries[e] == start.entries[e];
    }
  }

  // ----- The service

  predicate IsClaimable(db: Db, group: GroupId, i: InstanceId) {
    i in db.instances && db.instances[i].group == group &&
    db.instances[i].lifecycle == Running && !db.instances[i].reserved
  }

  /** The ticket was just attached: its entry is selected, and all its members are of its party. */
  ghost predicate JustSeated(db: Db, e: EntryId, s: SessionId) {
    && Seated(db, e) && db.entries[e].session == Some(s) && db.sessions[s].group in db.policies
    && forall p | p in Ticket(db.sessions[s].members, e) :: db.sessions[s].members[p].party == db.entries[e].party
  }

  class Service {
    var db: Db

    constructor (tables: Db)
      ensures db == tables
    {
      db := tables;
    }

    method LoadSession(s: SessionId) returns (session: SessionCandidate, ghost tickets: seq<EntryId>)
      requires s in db.sessions && Accepting(db.sessions[s].state)
      ensures session.id == s && Tracks(session, tickets, db.sessions[s].group, db)
    {
      var row := db.sessions[s];
      var sizes, ids := LoadTicketSizes(row.members);
      session, tickets := SessionCandidate(s, row.state, row.instance, row.createdAt, sizes), ids;
    }

    method LoadSessions(group: GroupId, stale: set<SessionId>)
      returns (sessions: seq<SessionCandidate>, ghost ids: seq<seq<EntryId>>)
      ensures Loaded(sessions, ids, group, stale, db)
      ensures AcceptingSessions(db, group, stale) == SessionIds(sessions)
    {
      sessions, ids := [], [];
      var left := AcceptingSessions(db, group, stale);
      while left != {}
        invariant left <= AcceptingSessions(db, group, stale)
        invariant TracksAll(sessions, ids, group, db)
        invariant SessionIds(sessions) == AcceptingSessions(db, group, stale) - left
        decreases |left|
      {
        var s := Pick(left);
        ghost var tickets;
        var view;
        view, tickets := LoadSession(s);
        SessionIdsAppend(sessions, view);
        TracksAppend(sessions, ids, group, db, view, tickets);
        sessions := sessions + [view];
        ids := ids + [tickets];
        left := left - {s};
      }
    }

    /** First usable open instance of the group, claimed for the session. */
    method ReserveInstance(group: GroupId, s: SessionId, usable: seq<InstanceId>) returns (reservation: Option<InstanceId>)
      modifies this
      ensures reservation.None? ==> db == old(db)
      ensures reservation.None? ==> forall i | i in usable :: !IsClaimable(db, group, i)
      ensures reservation.Some? ==>
                var i := reservation.value;
                i in usable && IsClaimable(old(db), group, i) && IsFirstClaimable(old(db), group, usable, i) &&
                db == PutInstance(old(db), i, old(db).instances[i].(reserved := true, session := Some(s)))
    {
      for k := 0 to |usable|
        invariant db == old(db)
        invariant forall j | 0 <= j < k :: !IsClaimable(db, group, usable[j])
      {
        var i := usable[k];
        if IsClaimable(db, group, i) {
          db := PutInstance(db, i, db.instances[i].(reserved := true, session := Some(s)));
          return Some(i);
        }
      }
      return None;
    }

    /** Session row, queue entries and members move to the transfer together. */
    method StartSessionTransfers(s: SessionId, i: InstanceId)
      requires s in db.sessions
      modifies this
      ensures db.policies == old(db).policies && db.instances == old(db).instances
      ensures db.sessions == old(db).sessions[s := old(db).sessions[s].(
                state := InTransfer, instance := Some(i),
                members := Restate(old(db).sessions[s].members, Selected, Transferring))]
      ensures db.entries == map e | e in old(db).entries ::
                if old(db).entries[e].session == Some(s) && old(db).entries[e].state == EntrySelected
                then old(db).entries[e].(transferStarted := true) else old(db).entries[e]
      ensures InState(db.sessions[s].members, {Selected}) == {}
      ensures Active(db.sessions[s].members) == Active(old(db).sessions[s].members)
      ensures db.sessions[s].revision == old(db).sessions[s].revision
      ensures forall e | e in db.entries && db.entries[e].state == EntrySelected && db.entries[e].session == Some(s) ::
                LeaveParty(db, e) == db
    {
      db := PutSession(db, s, db.sessions[s].(state := InTransfer, instance := Some(i)));
      db := db.(entries := map e | e in db.entries ::
        if db.entries[e].session == Some(s) && db.entries[e].state == EntrySelected
        then db.entries[e].(transferStarted := true) else db.entries[e]);
      db := PutSession(db, s, db.sessions[s].(members := Restate(db.sessions[s].members, Selected, Transferring)));
    }

    /** tryAssignInstance, and the reserving half of dispatchSession. */
    method TryAssignInstance(group: GroupId, usable: seq<InstanceId>, session: SessionCandidate)
      returns (after: SessionCandidate, ghost actions: seq<Action>)
      requires session.id in db.sessions && db.sessions[session.id].group == group
      requires db.sessions[session.id].state == session.state
      requires session.state == Forming || session.state == WaitingForInstance
      modifies this
      ensures after.id == session.id && after.createdAt == session.createdAt && after.ticketSizes == session.ticketSizes
      ensures actions == [] ==> db == old(db) && after == session && forall i | i in usable :: !IsClaimable(db, group, i)
      ensures actions != [] ==>
                after.instance.Some? && after.state == InTransfer &&
                actions == [DoReserve(session.id, after.instance.value)] &&
                after.instance.value in usable && IsClaimable(old(db), group, after.instance.value) &&
                IsFirstClaimable(old(db), group, usable, after.instance.value) &&
                CanReserve(old(db), session.id, after.instance.value) &&
                db == Reserve(old(db), session.id, after.instance.value)
    {
      var reservation := ReserveInstance(group, session.id, usable);
      if reservation.None? {
        return session, [];
      }
      StartSessionTransfers(session.id, reservation.value);
      after := session.(instance := reservation, state := InTransfer);
      actions := [DoReserve(session.id, reservation.value)];
    }

    /** The best-ranked session for a ticket of this size, or -1. */
    method ChooseSession(sessions: seq<SessionCandidate>, ticketSize: int, policy: Policy)
      returns (chosen: int, ghost best: Option<RankedSessionCandidate>)
      requires forall i, j :: 0 <= i < j < |sessions| ==> sessions[i].id != sessions[j].id
      ensures -1 <= chosen < |sessions|
      ensures forall i | 0 <= i < |sessions| && Fits(sessions[i], ticketSize, policy) ::
                chosen >= 0 && Sum(sessions[i].ticketSizes) <= Sum(sessions[chosen].ticketSizes)
      ensures chosen >= 0 ==> Fits(sessions[chosen], ticketSize, policy)
      ensures chosen >= 0 ==> best.Some? && IsRankedAs(best.value, sessions[chosen], ticketSize, policy)
      ensures forall i | 0 <= i < |sessions| && Fits(sessions[i], ticketSize, policy) ::
                best.Some? && exists r :: IsRankedAs(r, sessions[i], ticketSize, policy) && CompareRanked(best.value, r) <= 0
    {
      best := None;
      var candidates := seq(|sessions|, i requires 0 <= i < |sessions| => Placement(sessions[i]));
      var ranked, _, _ :=
        RankSessionCandidates(candidates, ticketSize, policy.teamCount, policy.teamSize, policy.maximumPlayers);
      if ranked == [] {
        forall i | 0 <= i < |sessions| ensures !Fits(sessions[i], ticketSize, policy) {
          assert candidates[i] in candidates;
        }
        return -1, None;
      }
      best := Some(ranked[0]);
      assert ranked[0] in ranked;
      ghost var k :| 0 <= k < |candidates| && candidates[k] == ranked[0].candidate;
      chosen := 0;
      while sessions[chosen].id != ranked[0].candidate.sessionId
        invariant 0 <= chosen <= k
        decreases k - chosen
      {
        chosen := chosen + 1;
      }
      assert chosen == k;
      assert ranked[0].candidate in candidates;
      forall i | 0 <= i < |sessions| && Fits(sessions[i], ticketSize, policy)
        ensures Sum(sessions[i].ticketSizes) <= Sum(sessions[chosen].ticketSizes)
        ensures exists r :: IsRankedAs(r, sessions[i], ticketSize, policy) && CompareRanked(ranked[0], r) <= 0
      {
        assert candidates[i] in candidates;
        FirstIsNotBeaten(ranked, candidates[i]);
        BestFitIsFullest(ranked, candidates[i], ticketSize, policy);
      }
    }

    /** One session_players row: inserted, or reactivated after it was left. */
    method InsertMember(p: PlayerId, e: EntryId, s: SessionId, party: PartyId)
      requires s in db.sessions && p !in Active(db.sessions[s].members)
      modifies this
      ensures db == PutSession(old(db), s,
                old(db).sessions[s].(members := old(db).sessions[s].members[p := Member(party, e, Selected)]))
    {
      var session := db.sessions[s];
      if p !in session.members {
        db := PutSession(db, s, session.(members := session.members[p := Member(party, e, Selected)]));
      } else {
        // An active row is reported as an error by the source; it cannot be here.
        assert session.members[p].state == Left;
        var row := session.members[p].(party := party, entry := e, state := Selected);
        db := PutSession(db, s, session.(members := session.members[p := row]));
      }
    }

    /** One row per player of the ticket; a player who is active in the session is an error. */
    method InsertMembers(e: EntryId, s: SessionId, entry: Entry) returns (refused: bool)
      requires s in db.sessions
      modifies this
      ensures refused <==> !(entry.players !! Active(old(db).sessions[s].members))
      ensures !refused ==> db == PutSession(old(db), s,
                old(db).sessions[s].(members := Join(old(db).sessions[s].members, e, entry)))
    {
      ghost var before := db.sessions[s];
      var left := entry.players;
      while left != {}
        invariant left <= entry.players && s in db.sessions
        invariant db == old(db).(sessions := old(db).sessions[s := db.sessions[s]])
        invariant db.sessions[s] == before.(members := JoinSome(before.members, e, entry, entry.players - left))
        invariant entry.players - left !! Active(before.members)
        decreases |left|
      {
        var p := Pick(left);
        if p in db.sessions[s].members && db.sessions[s].members[p].state != Left {
          return true;
        }
        JoinOneMore(before.members, e, entry, left, p);
        InsertMember(p, e, s, entry.party);
        left := left - {p};
      }
      assert entry.players - {} == entry.players;
      return false;
    }

    /** The ticket's entry, its players and the assignment revision change together, unless one of them is there already. */
    method AttachParty(e: EntryId, s: SessionId, ghost inserted: bool) returns (refused: bool)
      requires Offered(db, e, s, inserted)
      modifies this
      ensures refused <==> !NobodyThere(old(db), e, s)
      ensures !refused ==> db == Attach(old(db), e, s, inserted)
    {
      var entry := db.entries[e];
      NobodyThereMeans(db, e, s);
      db := PutEntry(db, e, entry.(state := EntrySelected, session := Some(s)));
      refused := InsertMembers(e, s, entry);
      if refused {
        return;
      }
      db := PutSession(db, s, Bump(db.sessions[s]));
      assert db.sessions == Attach(old(db), e, s, inserted).sessions;
    }

    method StartTicketTransfer(e: EntryId, s: SessionId)
      requires e in db.entries && s in db.sessions && db.sessions[s].instance.Some?
      modifies this
      ensures db == BeginTicketTransfer(old(db), e, s)
    {
      var party := db.entries[e].party;
      db := PutEntry(db, e, db.entries[e].(transferStarted := true));
      var members := db.sessions[s].members;
      db := PutSession(db, s, db.sessions[s].(members := map p | p in members ::
        if members[p].party == party && members[p].state == Selected then members[p].(state := Transferring)
        else members[p]));
    }

    /** A waiting session resumes with an instance, keeps waiting because there is none, or forms again. */
    method ResumeSession(round: Round, policy: Policy, session: SessionCandidate, ghost ids: seq<EntryId>)
      returns (after: SessionCandidate, ghost actions: seq<Action>)
      requires Usable(db) && Tracks(session, ids, round.group, db) && session.state == WaitingForInstance
      requires round.group in db.policies && policy == db.policies[round.group] && session.id !in round.stale
      modifies this
      ensures Reached(old(db), db, actions, round, []) && OnlySession(old(db), db, session.id, {})
      ensures after.id == session.id && Tracks(after, ids, round.group, db)
      ensures ResumedRow(old(db), db.sessions[session.id], session.id, round)
      ensures db.sessions[session.id].state == WaitingForInstance ==> NoneClaimable(db, round)
    {
      ghost var start := db;
      var eligible := IsExpectedStartEligible(session, policy, db.sessions[session.id].members, ids);
      if eligible {
        assert ReservationOk(start, session.id);
        after, actions := TryAssignInstance(round.group, round.usable, session);
        if actions == [] {
          ReachedNowhere(db, round);
        } else {
          ReserveTracked(start, session, ids, round.group, after.instance.value);
          ReachedBy(start, actions[0], round);
        }
      } else {
        after := session.(state := Forming);
        if db.sessions[session.id].state == WaitingForInstance {
          db := PutSession(db, session.id, db.sessions[session.id].(state := Forming));
        }
        actions := [DoDemote(session.id)];
        ReachedBy(start, DoDemote(session.id), round);
      }
    }

    /** One session of the view: looked at only if it waits. */
    method ResumeNext(round: Round, policy: Policy, sessions: seq<SessionCandidate>, ghost ids: seq<seq<EntryId>>, i: nat)
      returns (now: seq<SessionCandidate>, ghost actions: seq<Action>)
      requires Usable(db) && Loaded(sessions, ids, round.group, round.stale, db) && i < |sessions|
      requires round.group in db.policies && policy == db.policies[round.group]
      modifies this
      ensures Usable(db) && Reached(old(db), db, actions, round, []) && OnlySession(old(db), db, sessions[i].id, {})
      ensures Loaded(now, ids, round.group, round.stale, db)
      ensures |now| == |sessions| && forall j | 0 <= j < |now| :: now[j].id == sessions[j].id
      ensures sessions[i].id in AcceptingSessions(old(db), round.group, round.stale)
      ensures ResumedRow(old(db), db.sessions[sessions[i].id], sessions[i].id, round)
      ensures db.sessions[sessions[i].id].state == WaitingForInstance ==> NoneClaimable(db, round)
    {
      ghost var start := db;
      now, actions := sessions, [];
      assert Tracks(sessions[i], ids[i], round.group, db);
      assert sessions[i].id in SessionIds(sessions);
      ReachedNowhere(db, round);
      if sessions[i].state == WaitingForInstance {
        var resumed;
        resumed, actions := ResumeSession(round, policy, sessions[i], ids[i]);
        TickActionsKeep(start, actions);
        ReplaceTracked(sessions, ids, round.group, round.stale, start, db, i, resumed, ids[i]);
        assert ids[i := ids[i]] == ids;
        now := sessions[i := resumed];
      }
    }

    /** Waiting sessions come before the queue. */
    method ResumeWaiting(round: Round, policy: Policy, sessions: seq<SessionCandidate>, ghost ids: seq<seq<EntryId>>)
      returns (now: seq<SessionCandidate>, ghost actions: seq<Action>)
      requires Usable(db) && Loaded(sessions, ids, round.group, round.stale, db)
      requires round.group in db.policies && policy == db.policies[round.group]
      modifies this
      ensures Usable(db) && Reached(old(db), db, actions, round, [])
      ensures QueueKept(old(db), db, {}) && db.sessions.Keys == old(db).sessions.Keys
      ensures Loaded(now, ids, round.group, round.stale, db)
      ensures NoneWaits(db, round)
      ensures forall s | s in db.sessions :: ResumedRow(old(db), db.sessions[s], s, round)
    {
      ghost var start := db;
      now, actions := sessions, [];
      ghost var done: set<SessionId> := {};
      ReachedNowhere(db, round);
      var i := 0;
      while i < |now|
        invariant 0 <= i <= |now| == |sessions|
        invariant Usable(db) && Reached(start, db, actions, round, [])
        invariant QueueKept(start, db, {}) && ResumedUpTo(start, db, round, done)
        invariant Loaded(now, ids, round.group, round.stale, db)
        invariant forall j | 0 <= j < |now| :: now[j].id in done <==> j < i
      {
        ghost var mid, before, steps := db, now, [];
        now, steps := ResumeNext(round, policy, now, ids, i);
        ResumedNext(start, mid, db, actions, steps, round, done, before[i].id);
        OneMoreSeen(before, now, ids, round.group, mid, done, i);
        actions, done := actions + steps, done + {before[i].id};
        i := i + 1;
      }
      AllSeen(now, done);
      AllResumed(start, db, round, done);
    }

    /** Claims an instance for an eligible forming session, or lets it wait for one. */
    method DispatchSession(round: Round, session: SessionCandidate, ghost ids: seq<EntryId>)
      returns (after: SessionCandidate, ghost actions: seq<Action>)
      requires Tracks(session, ids, round.group, db) && session.state == Forming && Eligible(db, session.id)
      modifies this
      ensures Reached(old(db), db, actions, round, []) && OnlySession(old(db), db, session.id, {})
      ensures after.id == session.id && Tracks(after, ids, round.group, db)
      ensures after.state == WaitingForInstance || after.state == InTransfer
      ensures actions == [DoAwaitInstance(session.id)] ||
              (after.instance.Some? && after.instance.value in round.usable &&
               actions == [DoReserve(session.id, after.instance.value)])
    {
      ghost var start := db;
      after, actions := TryAssignInstance(round.group, round.usable, session);
      if after.state == Forming {
        after := session.(state := WaitingForInstance);
        db := PutSession(db, session.id, db.sessions[session.id].(state := WaitingForInstance));
        actions := [DoAwaitInstance(session.id)];
        ReachedBy(start, DoAwaitInstance(session.id), round);
      } else {
        ReserveTracked(start, session, ids, round.group, after.instance.value);
        ReachedBy(start, actions[0], round);
      }
    }

    /** After its rows are written, the ticket is transferred at once or may complete the session. */
    method FollowUp(round: Round, policy: Policy, session: SessionCandidate, ghost ids: seq<EntryId>, e: EntryId)
      returns (after: SessionCandidate, ghost actions: seq<Action>)
      requires Tracks(session, ids, round.group, db) && JustSeated(db, e, session.id) && Usable(db)
      requires round.group in db.policies && policy == db.policies[round.group]
      modifies this
      ensures Reached(old(db), db, actions, round, []) && OnlySession(old(db), db, session.id, {})
      ensures after.id == session.id && Tracks(after, ids, round.group, db)
      ensures Begun(db, round, e) && Dispatched(db, session.id)
    {
      ghost var start := db;
      after, actions := session, [];
      ReachedNowhere(db, round);
      assert ReservationOk(start, session.id);
      if session.instance.Some? && session.instance.value in round.reach {
        StartTicketTransfer(e, session.id);
        actions := [DoBeginTicketTransfer(e, session.id)];
        ReachedBy(start, DoBeginTicketTransfer(e, session.id), round);
        TransferTracked(start, session, ids, round.group, e);
        TransferBegins(start, e, session.id, round);
      } else if session.state == Forming {
        var eligible := IsExpectedStartEligible(session, policy, db.sessions[session.id].members, ids);
        if eligible {
          after, actions := DispatchSession(round, session, ids);
          RunOne(start, actions[0]);
          BegunKept(start, actions[0], e, round);
        }
      }
    }

    method SeatTicket(round: Round, policy: Policy, sessions: seq<SessionCandidate>, ghost ids: seq<seq<EntryId>>,
                      e: EntryId, i: nat, ghost inserted: bool)
      returns (refused: bool, now: seq<SessionCandidate>, ghost nowIds: seq<seq<EntryId>>, ghost actions: seq<Action>)
      requires Usable(db) && Loaded(sessions, ids, round.group, round.stale, db)
      requires round.group in db.policies && policy == db.policies[round.group]
      requires i < |sessions| && Offered(db, e, sessions[i].id, inserted)
      requires !inserted ==> ChosenFor(db, round.group, round.stale, e, sessions[i].id)
      modifies this
      ensures refused <==> !NobodyThere(old(db), e, sessions[i].id)
      ensures !refused ==> Usable(db) && Reached(old(db), db, actions, round, [e])
      ensures !refused ==> |actions| >= 1 && actions[0] == DoAttach(e, sessions[i].id, inserted)
      ensures !refused ==> OnlySession(old(db), db, sessions[i].id, {e})
      ensures !refused ==> Loaded(now, nowIds, round.group, round.stale, db)
      ensures !refused ==> Seated(db, e) && db.entries[e].players == old(db).entries[e].players
      ensures !refused ==> db.entries[e].session == Some(sessions[i].id)
      ensures !refused ==> Begun(db, round, e) && Dispatched(db, sessions[i].id)
    {
      ghost var start := db;
      var session := sessions[i];
      now, nowIds, actions := sessions, ids, [];
      assert Tracks(session, ids[i], round.group, start);
      assert session.id in SessionIds(sessions);
      refused := AttachParty(e, session.id, inserted);
      if refused {
        return;
      }
      ghost var mid := db;
      AttachTracked(start, session, ids[i], round.group, e, inserted);
      UsableAction(start, DoAttach(e, session.id, inserted));
      AttachSeats(start, e, session.id, inserted);
      var view := session.(ticketSizes := session.ticketSizes + [|db.entries[e].players|]);
      ghost var steps;
      view, steps := FollowUp(round, policy, view, ids[i] + [e], e);
      SeatFollows(start, mid, db, session.id, e, inserted, steps, round);
      actions := [DoAttach(e, session.id, inserted)] + steps;
      now, nowIds := sessions[i := view], ids[i := ids[i] + [e]];
      ReplaceTracked(sessions, ids, round.group, round.stale, start, db, i, view, ids[i] + [e]);
    }

    /** No session has room: a new one is inserted for the ticket. */
    method OpenForTicket(round: Round, policy: Policy, sessions: seq<SessionCandidate>, ghost ids: seq<seq<EntryId>>,
                         e: EntryId, newId: SessionId, createdAt: int)
      returns (refused: bool, now: seq<SessionCandidate>, ghost nowIds: seq<seq<EntryId>>, ghost actions: seq<Action>)
      requires Usable(db) && Loaded(sessions, ids, round.group, round.stale, db)
      requires round.group in db.policies && policy == db.policies[round.group]
      requires newId !in db.sessions && newId !in round.stale
      requires e in db.entries && db.entries[e].state == EntryQueued && db.entries[e].group == round.group
      requires NoRoom(db, round.group, round.stale, |db.entries[e].players|)
      modifies this
      ensures !refused && Usable(db) && Reached(old(db), db, actions, round, [e])
      ensures QueueKept(old(db), db, {e}) && db.sessions.Keys == old(db).sessions.Keys + {newId}
      ensures Loaded(now, nowIds, round.group, round.stale, db)
      ensures Seated(db, e) && db.entries[e].players == old(db).entries[e].players
      ensures Begun(db, round, e) && db.entries[e].session == Some(newId) && Dispatched(db, newId)
      ensures forall t | t in old(db).sessions :: db.sessions[t] == old(db).sessions[t]
    {
      ghost var start := db;
      var session := SessionCandidate(newId, Forming, None, createdAt, []);
      db := PutSession(db, newId, Session(round.group, Forming, createdAt, None, 1, None, map[]));
      ghost var mid := db;
      OpenedLoaded(start, sessions, ids, round.group, round.stale, newId, createdAt);
      UsableAction(start, DoOpenSession(newId, round.group, createdAt));
      assert Active(map[]) == {};
      refused, now, nowIds, actions :=
        SeatTicket(round, policy, sessions + [session], ids + [[]], e, |sessions|, true);
      OpenThenSeat(start, mid, db, newId, createdAt, e, actions, round);
      actions := [DoOpenSession(newId, round.group, createdAt)] + actions;
    }

    /** One ticket of the window: the best session with room, else a new one. */
    method PlaceParty(round: Round, policy: Policy, sessions: seq<SessionCandidate>, ghost ids: seq<seq<EntryId>>,
                      e: EntryId, newId: SessionId, createdAt: int)
      returns (refused: bool, now: seq<SessionCandidate>, ghost nowIds: seq<seq<EntryId>>,
               ghost actions: seq<Action>, ghost s: SessionId)
      requires Usable(db) && Loaded(sessions, ids, round.group, round.stale, db)
      requires round.group in db.policies && policy == db.policies[round.group]
      requires newId !in db.sessions && newId !in round.stale
      requires e in db.entries && db.entries[e].state == EntryQueued && db.entries[e].group == round.group
      modifies this
      ensures refused ==> ChosenFor(old(db), round.group, round.stale, e, s) && !NobodyThere(old(db), e, s)
      ensures !refused ==> Usable(db) && Reached(old(db), db, actions, round, [e])
      ensures !refused ==> QueueKept(old(db), db, {e}) && db.sessions.Keys <= old(db).sessions.Keys + {newId}
      ensures !refused ==> Loaded(now, nowIds, round.group, round.stale, db)
      ensures !refused ==> Seated(db, e) && db.entries[e].players == old(db).entries[e].players
      ensures !refused ==> Begun(db, round, e) && db.entries[e].session == Some(s) && Dispatched(db, s)
      ensures !refused ==> forall t | t in old(db).sessions ::
                t in db.sessions && (t != s ==> db.sessions[t] == old(db).sessions[t])
    {
      var chosen, _ := ChooseSession(sessions, |db.entries[e].players|, policy);
      ChoiceMeansRoom(db, sessions, ids, round.group, round.stale, |db.entries[e].players|);
      if chosen >= 0 {
        s := sessions[chosen].id;
        ChoiceIsChosen(db, sessions, ids, round.group, round.stale, e, chosen);
        refused, now, nowIds, actions := SeatTicket(round, policy, sessions, ids, e, chosen, false);
      } else {
        s := newId;
        refused, now, nowIds, actions := OpenForTicket(round, policy, sessions, ids, e, newId, createdAt);
      }
    }

    /**
     The tick of one group. The window lists distinct queued entries of the group;
     which sessions are past their deadline, which instances are on a healthy host in the
     order in which they started to run, which have an endpoint, and the ids of new
     sessions are given; an instance that can be reserved has an endpoint. The tick is rolled back exactly when the
     session chosen for some ticket expects one of its players already, which takes a
     player in two places. Otherwise every step was justified, the window was seated in
     its order, a session that got a ticket does not go on forming if it can start, the
     tickets of sessions with an instance are on their way, no session waits while
     an instance is open, and sessions without a new ticket were only resumed.
     */
    method ProcessGroup(group: GroupId, stale: set<SessionId>, usable: seq<InstanceId>, reachable: set<InstanceId>,
                        window: seq<EntryId>, newIds: seq<SessionId>, createdAt: int)
      returns (refused: bool, ghost actions: seq<Action>, ghost i: nat, ghost s: SessionId)
      requires Usable(db) && group in db.policies && stale <= db.sessions.Keys
      requires Distinct(window)
      requires forall i | 0 <= i < |window| ::
                 window[i] in db.entries && db.entries[window[i]].state == EntryQueued &&
                 db.entries[window[i]].group == group
      requires |newIds| == |window| && Distinct(newIds)
      requires forall i | 0 <= i < |newIds| :: newIds[i] !in db.sessions
      modifies this
      ensures TickActions(actions) && OpensOnlyWhenFull(old(db), actions, group, stale)
      ensures Along(old(db), actions, Justified(Round(group, stale, usable, reachable + Elements(usable))))
      ensures refused ==> db == old(db)
      ensures refused ==> i < |window| && AllSeated(old(db), Run(old(db), actions), window[..i])
      ensures refused ==> ChosenFor(Run(old(db), actions), group, stale, window[i], s) &&
                          !NobodyThere(Run(old(db), actions), window[i], s)
      ensures !refused ==> db == Run(old(db), actions) && Attached(actions) == window
      ensures !refused ==> AllSeated(old(db), db, window) && QueueKept(old(db), db, Elements(window))
      ensures !refused ==> NoneWaits(db, Round(group, stale, usable, reachable + Elements(usable)))
      ensures !refused ==> forall e | e in window ::
                Begun(db, Round(group, stale, usable, reachable + Elements(usable)), e) && Dispatched(db, db.entries[e].session.value)
      ensures !refused ==> forall t | t in old(db).sessions :: t in db.sessions && (NoTicket(db, window, t) ==>
                ResumedRow(old(db), db.sessions[t], t, Round(group, stale, usable, reachable + Elements(usable))))
      ensures Usable(db) && (OnePlace(old(db)) ==> !refused && OnePlace(db))
    {
      var snapshot := db;
      ghost var start := db;
      var round := Round(group, stale, usable, reachable + Elements(usable));
      var policy := db.policies[group];
      ghost var ids: seq<seq<EntryId>>;
      var sessions: seq<SessionCandidate>;
      sessions, ids := LoadSessions(group, stale);
      sessions, actions := ResumeWaiting(round, policy, sessions, ids);
      ghost var resumed := db;
      var k := 0;
      i, s, refused := 0, 0, false;
      assert window[..0] == [];
      while k < |window|
        invariant 0 <= k <= |window|
        invariant Usable(db) && Reached(start, db, actions, round, window[..k]) && Loaded(sessions, ids, group, stale, db)
        invariant QueueKept(start, db, Elements(window[..k]))
        invariant forall j | k <= j < |newIds| :: newIds[j] !in db.sessions
        invariant AllSeated(start, db, window[..k]) && Progress(resumed, db, round, window[..k])
      {
        ghost var mid := db;
        assert window[k] !in window[..k];
        ghost var steps, chosen;
        refused, sessions, ids, steps, chosen :=
          PlaceParty(round, policy, sessions, ids, window[k], newIds[k], createdAt);
        if refused {
          db := snapshot;
          i, s := k, chosen;
          TickIsRefused(start, mid, actions, window[k], s);
          return;
        }
        TicketPlaced(start, resumed, mid, db, actions, steps, round, window, k, chosen);
        actions := actions + steps;
        k := k + 1;
      }
      assert window[..k] == window;
      TickActionsKeep(start, actions);
    }
  }

  /** The loop over the window, one ticket further. */
  lemma TicketPlaced(start: Db, resumed: Db, mid: Db, now: Db, actions: seq<Action>, steps: seq<Action>, round: Round,
                     window: seq<EntryId>, k: nat, s: SessionId)
    requires k < |window| && Usable(mid) && Reached(start, mid, actions, round, window[..k])
    requires QueueKept(start, mid, Elements(window[..k])) && QueueKept(mid, now, {window[k]})
    requires AllSeated(start, mid, window[..k]) && Progress(resumed, mid, round, window[..k])
    requires Reached(mid, now, steps, round, [window[k]])
    requires window[k] in start.entries && window[k] in mid.entries && mid.entries[window[k]] == start.entries[window[k]]
    requires Seated(now, window[k]) && now.entries[window[k]].players == mid.entries[window[k]].players
    requires Begun(now, round, window[k]) && now.entries[window[k]].session == Some(s) && Dispatched(now, s)
    requires forall t | t in mid.sessions :: t in now.sessions && (t != s ==> now.sessions[t] == mid.sessions[t])
    ensures Reached(start, now, actions + steps, round, window[..k + 1])
    ensures QueueKept(start, now, Elements(window[..k + 1])) && AllSeated(start, now, window[..k + 1])
    ensures Progress(resumed, now, round, window[..k + 1])
  {
    assert window[..k + 1] == window[..k] + [window[k]];
    ReachedThen(start, mid, now, actions, steps, round, window[..k], [window[k]]);
    AllSeatedThen(start, mid, steps, window[..k]);
    QueueKeptThen(start, mid, now, window, k);
    ProgressThen(resumed, mid, now, steps, round, window[..k], window[k]);
  }

  lemma TickIsRefused(start: Db, mid: Db, actions: seq<Action>, e: EntryId, s: SessionId)
    requires Usable(start) && TickActions(actions) && mid == Run(start, actions)
    requires Offered(mid, e, s, false) && !NobodyThere(mid, e, s)
    ensures !OnePlace(start)
  {
    TickActionsKeep(start, actions);
    if OnePlace(mid) {
      NobodyIsThere(mid, e, s);
    }
  }
}
