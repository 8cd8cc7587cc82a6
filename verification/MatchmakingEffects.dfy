/**
 What single matchmaking steps achieve, in terms of players and tickets, and
 what following steps undo or can no longer undo.
 */
module MatchmakingEffects {
  import opened Basics
  import opened Lifecycles
  import opened Tables
  import opened Protocol
  import opened MatchmakingSteps
  import opened ReservationSafety
  import opened MatchmakingSafety
  import opened Matchmaker

  // ----- Leaving

  /** Marking a ticket LEFT takes exactly its players out, and leaves every other ticket whole. */
  lemma TicketLeaves(members: Members, e: EntryId)
    ensures var after := MarkLeft(members, Ticket(members, e));
            && Ticket(after, e) == {}
            && (forall f | f != e :: Ticket(after, f) == Ticket(members, f))
            && Active(after) == Active(members) - Ticket(members, e)
  {
    var after := MarkLeft(members, Ticket(members, e));
    forall f | f != e ensures Ticket(after, f) == Ticket(members, f) {
      forall p | p in Ticket(members, f) ensures p !in Ticket(members, e) {
      }
    }
  }

  /**
   A ticket that leaves an open session is gone as a whole; other tickets and
   sessions are untouched; the session is cancelled exactly if nobody is left,
   and a waiting one forms again exactly if it is no longer eligible.
   */
  lemma LeavingTakesTheTicket(db: Db, e: EntryId)
    requires RowsOk(db) && ActiveEntry(db, e) && !db.entries[e].transferStarted
    requires db.entries[e].session.Some? && Ticket(db.sessions[db.entries[e].session.value].members, e) != {}
    ensures
      var s := db.entries[e].session.value;
      var after := LeaveParty(db, e);
      var members := after.sessions[s].members;
      && after.entries[e].state == EntryLeft
      && Ticket(members, e) == {}
      && (forall f | f != e :: Ticket(members, f) == Ticket(db.sessions[s].members, f))
      && (forall t | t in db.sessions && t != s :: after.sessions[t] == db.sessions[t])
      && (after.sessions[s].state == Cancelled <==> Active(members) == {})
      && (Active(members) != {} ==>
            after.sessions[s].state ==
              if db.sessions[s].state == WaitingForInstance && !StartEligible(members, db.policies[db.sessions[s].group])
              then Forming else db.sessions[s].state)
  {
    var s := db.entries[e].session.value;
    TicketLeaves(db.sessions[s].members, e);
    assert RowOk(db, s);
  }

  /**
   Being seated and leaving again before the transfer gives every player of the
   session and every player of the ticket back the place they had before: only
   the revision moved on, twice, and the players left rows behind.
   */
  lemma LeavingUndoesSeating(db: Db, e: EntryId, s: SessionId, inserted: bool)
    requires RowsOk(db) && OnePlace(db) && CanAttach(db, e, s, inserted) && !db.entries[e].transferStarted
    ensures
      var after := LeaveParty(Attach(db, e, s, inserted), e);
      && after.entries == db.entries[e := after.entries[e]] && after.entries[e].state == EntryLeft
      && after.sessions == db.sessions[s := after.sessions[s]] && after.instances == db.instances
      && Active(after.sessions[s].members) == Active(db.sessions[s].members)
      && (forall f :: Ticket(after.sessions[s].members, f) == Ticket(db.sessions[s].members, f))
      && after.sessions[s].revision == db.sessions[s].revision + 2
      && (after.sessions[s].state == Cancelled <==> Active(db.sessions[s].members) == {})
      && forall p | p in db.entries[e].players :: !Busy(after, p)
  {
    JoinedRows(db, e, s, inserted);
    AttachTickets(db, e, s, inserted);
    AttachKeepsRows(db, e, s, inserted);
    LeavingTakesTheTicket(Attach(db, e, s, inserted), e);
    JoinMeans(db.sessions[s].members, e, db.entries[e]);
    MarkLeftMeans(Join(db.sessions[s].members, e, db.entries[e]), db.entries[e].players);
    SeatedThenLeft(db, e, s, inserted);
    SeatedAndGone(db, e, s, inserted);
    assert Ticket(db.sessions[s].members, e) == {};
  }

  lemma SeatedThenLeft(db: Db, e: EntryId, s: SessionId, inserted: bool)
    requires CanAttach(db, e, s, inserted) && !db.entries[e].transferStarted && db.entries[e].players != {}
    requires Ticket(Join(db.sessions[s].members, e, db.entries[e]), e) == db.entries[e].players
    ensures
      var session, policy := db.sessions[s], db.policies[db.sessions[s].group];
      var after := LeaveParty(Attach(db, e, s, inserted), e);
      && after.entries == db.entries[e := after.entries[e]] && after.entries[e].state == EntryLeft
      && after.sessions == db.sessions[s := after.sessions[s]] && after.instances == db.instances
      && after.sessions[s] == AfterTicketLeft(
           Bump(session.(members := Join(session.members, e, db.entries[e]))), db.entries[e].players, policy)
  {
  }

  lemma SeatedAndGone(db: Db, e: EntryId, s: SessionId, inserted: bool)
    requires OnePlace(db) && CanAttach(db, e, s, inserted) && !db.entries[e].transferStarted
    requires Ticket(Attach(db, e, s, inserted).sessions[s].members, e) == db.entries[e].players != {}
    ensures forall p | p in db.entries[e].players :: !Busy(LeaveParty(Attach(db, e, s, inserted), e), p)
  {
    var seated := Attach(db, e, s, inserted);
    var after := LeaveParty(seated, e);
    assert after.sessions[s].members == MarkLeft(seated.sessions[s].members, db.entries[e].players);
    forall p | p in db.entries[e].players ensures !Busy(after, p) {
      assert QueuedWith(db, e, p);
      forall f ensures !QueuedWith(after, f, p) {
        assert f != e ==> !QueuedWith(db, f, p);
      }
      forall t ensures !PlaysIn(after, t, p) {
        assert !PlaysIn(db, t, p);
      }
    }
  }

  /** Leaving the queue again undoes the queueing for everybody else: only the entry remains, as left. */
  lemma LeavingUndoesQueueing(db: Db, e: EntryId, group: GroupId, party: PartyId, players: set<PlayerId>)
    requires CanEnqueue(db, e, group, party, players)
    ensures
      var after := LeaveParty(Enqueue(db, e, group, party, players), e);
      && after == db.(entries := db.entries[e := after.entries[e]])
      && after.entries[e].state == EntryLeft
      && forall p :: Busy(after, p) <==> Busy(db, p)
  {
    var after := LeaveParty(Enqueue(db, e, group, party, players), e);
    forall f, p ensures QueuedWith(after, f, p) <==> QueuedWith(db, f, p) {
    }
    forall s, p ensures PlaysIn(after, s, p) <==> PlaysIn(db, s, p) {
    }
    forall p ensures Busy(after, p) <==> Busy(db, p) {
    }
  }

  /** Once the transfer of a ticket has started, it can no longer leave as a party, whatever happens in between. */
  lemma {:induction false} NoWayBack(db: Db, actions: seq<Action>, e: EntryId)
    requires e in db.entries && db.entries[e].transferStarted && db.entries[e].state != EntryQueued
    ensures e in Run(db, actions).entries && Run(db, actions).entries[e].transferStarted
    ensures LeaveParty(Run(db, actions), e) == Run(db, actions)
  {
    StartedStays(db, actions, e);
  }

  lemma {:induction false} StartedStays(db: Db, actions: seq<Action>, e: EntryId)
    requires e in db.entries && db.entries[e].transferStarted && db.entries[e].state != EntryQueued
    ensures var after := Run(db, actions);
            e in after.entries && after.entries[e].transferStarted && after.entries[e].state != EntryQueued
  {
    if actions != [] {
      var n := |actions| - 1;
      StartedStays(db, actions[..n], e);
      StartedStep(Run(db, actions[..n]), actions[n], e);
    }
  }

  lemma StartedStep(db: Db, a: Action, e: EntryId)
    requires e in db.entries && db.entries[e].transferStarted && db.entries[e].state != EntryQueued
    ensures var after := Apply(db, a);
            e in after.entries && after.entries[e].transferStarted && after.entries[e].state != EntryQueued
  {
    if PluginEvent(a) {
      PluginQueuesNobody(db, a);
    } else if a.DoLeaveParty? || a.DoDisconnect? {
      StartedLeaves(db, a, e);
    }
  }

  lemma StartedLeaves(db: Db, a: Action, e: EntryId)
    requires a.DoLeaveParty? || a.DoDisconnect?
    requires e in db.entries && db.entries[e].transferStarted && db.entries[e].state != EntryQueued
    ensures var after := Apply(db, a);
            e in after.entries && after.entries[e].transferStarted && after.entries[e].state != EntryQueued
  {
  }

  // ----- Starting and losing an instance

  /** A reservation binds session and instance, moves everyone selected, and starts the transfer of every ticket. */
  lemma ReservingMovesEveryone(db: Db, s: SessionId, i: InstanceId)
    requires RowsOk(db) && Selections(db) && CanReserve(db, s, i)
    ensures
      var after := Reserve(db, s, i);
      && Bound(after, i, s) && after.instances[i].reserved && after.sessions[s].state == InTransfer
      && InState(after.sessions[s].members, {Selected}) == {}
      && Active(after.sessions[s].members) == Active(db.sessions[s].members)
      && (forall p | p in Active(after.sessions[s].members) ::
            after.entries[after.sessions[s].members[p].entry].transferStarted)
  {
    var after := Reserve(db, s, i);
    RestateMeans(db.sessions[s].members, Selected, Transferring);
    forall p | p in Active(after.sessions[s].members)
      ensures after.sessions[s].members[p].entry in after.entries &&
              after.entries[after.sessions[s].members[p].entry].transferStarted
    {
      assert SelectionOk(db, s, p) && TicketOk(db, s, p);
    }
  }

  /** After a reservation no ticket of the session can leave as a party again, whatever happens. */
  lemma ReservedForGood(db: Db, s: SessionId, i: InstanceId, actions: seq<Action>, p: PlayerId)
    requires RowsOk(db) && Selections(db) && CanReserve(db, s, i) && p in Active(db.sessions[s].members)
    ensures var later := Run(Reserve(db, s, i), actions);
            LeaveParty(later, db.sessions[s].members[p].entry) == later
  {
    ReservingMovesEveryone(db, s, i);
    assert TicketOk(db, s, p) && SelectionOk(db, s, p);
    NoWayBack(Reserve(db, s, i), actions, db.sessions[s].members[p].entry);
  }

  /**
   A session that loses its instance before anybody connected keeps its players and
   goes back to the queue for instances; any other open instance can then be reserved.
   */
  lemma RecoveryCanStartAgain(db: Db, s: SessionId, j: InstanceId)
    requires NeedsRecovery(db, s) && Accepting(db.sessions[s].state)
    requires ConnectedPlayers(db.sessions[s].members) == {}
    requires j in db.instances && db.instances[j].lifecycle == Running && !db.instances[j].reserved
    requires db.instances[j].group == db.sessions[s].group
    ensures
      var after := Recover(db, s);
      && after.sessions[s].state == WaitingForInstance && after.sessions[s].instance == None
      && InState(after.sessions[s].members, {Transferring}) == {}
      && (forall e :: Ticket(after.sessions[s].members, e) == Ticket(db.sessions[s].members, e))
      && CanReserve(after, s, j)
      && Active(Reserve(after, s, j).sessions[s].members) == Active(db.sessions[s].members)
  {
    var after := Recover(db, s);
    RestateMeans(db.sessions[s].members, Transferring, Selected);
    forall e ensures Ticket(after.sessions[s].members, e) == Ticket(db.sessions[s].members, e) {
      RestateTicket(db.sessions[s].members, Transferring, Selected, e);
    }
    RestateMeans(after.sessions[s].members, Selected, Transferring);
  }

  /** A session that still looks for an instance. */
  predicate Looking(session: Session) {
    session.state == Forming || session.state == WaitingForInstance
  }

  /** Nobody is transferred to, or connected in, a session without an instance. */
  ghost predicate NobodyTravelsEarly(db: Db) {
    forall s | s in db.sessions && Looking(db.sessions[s]) ::
      InState(db.sessions[s].members, {Transferring, Connected}) == {}
  }

  ghost predicate StaysEarly(a: Session, b: Session) {
    Looking(b) ==>
      Looking(a) && forall p | p in b.members && b.members[p].state in {Transferring, Connected} ::
        p in a.members && a.members[p].state == b.members[p].state
  }

  lemma EarlyStays(db: Db, after: Db)
    requires NobodyTravelsEarly(db)
    requires forall s | s in after.sessions && Looking(after.sessions[s]) ::
               if s in db.sessions then StaysEarly(db.sessions[s], after.sessions[s])
               else after.sessions[s].members == map[]
    ensures NobodyTravelsEarly(after)
  {
    forall s, p | s in after.sessions && Looking(after.sessions[s]) && p in after.sessions[s].members
      ensures after.sessions[s].members[p].state !in {Transferring, Connected}
    {
      assert s in db.sessions ==> StaysEarly(db.sessions[s], after.sessions[s]);
      assert s in db.sessions ==> p !in InState(db.sessions[s].members, {Transferring, Connected});
    }
  }

  lemma RecoveredEarly(db: Db, s: SessionId)
    requires NobodyTravelsEarly(db)
    ensures NobodyTravelsEarly(Recover(db, s))
  {
    if NeedsRecovery(db, s) {
      var after := Recover(db, s);
      forall t | t in after.sessions && Looking(after.sessions[t])
        ensures InState(after.sessions[t].members, {Transferring, Connected}) == {}
      {
        if t == s {
          RestateMeans(db.sessions[s].members, Transferring, Selected);
          assert ConnectedPlayers(after.sessions[s].members) == {};
          assert forall p | p in after.sessions[s].members :: after.sessions[s].members[p].state != Transferring;
        }
      }
    }
  }

  lemma ActionTravels(db: Db, a: Action)
    requires Reservations(db) && NobodyTravelsEarly(db)
    ensures NobodyTravelsEarly(Apply(db, a))
  {
    if a.DoRecover? {
      RecoveredEarly(db, a.s);
    } else if a.DoBeginTicketTransfer? {
      assert a.s in db.sessions ==> ReservationOk(db, a.s);
      EarlyStays(db, Apply(db, a));
    } else if PluginEvent(a) {
      PluginTravels(db, a);
    } else if a.DoLeaveParty? || a.DoDisconnect? {
      LeavingTravels(db, a);
    } else {
      ServiceTravels(db, a);
    }
  }

  lemma PluginTravels(db: Db, a: Action)
    requires NobodyTravelsEarly(db) && PluginEvent(a)
    ensures NobodyTravelsEarly(Apply(db, a))
  {
    EarlyStays(db, Apply(db, a));
  }

  lemma ServiceTravels(db: Db, a: Action)
    requires NobodyTravelsEarly(db) && !PluginEvent(a)
    requires !a.DoLeaveParty? && !a.DoDisconnect? && !a.DoRecover? && !a.DoBeginTicketTransfer?
    ensures NobodyTravelsEarly(Apply(db, a))
  {
    EarlyStays(db, Apply(db, a));
  }

  lemma CancellingTravels(db: Db, e: EntryId)
    requires NobodyTravelsEarly(db) && e in db.entries
    ensures NobodyTravelsEarly(CancelTicket(db, e))
  {
    EarlyStays(db, CancelTicket(db, e));
  }

  lemma LeavingTravels(db: Db, a: Action)
    requires NobodyTravelsEarly(db) && (a.DoLeaveParty? || a.DoDisconnect?)
    ensures NobodyTravelsEarly(Apply(db, a))
  {
    if a.DoLeaveParty? {
      if a.e in db.entries {
        CancellingTravels(db, a.e);
      }
    } else if CancelsFound(db, a.p, a.found) {
      CancellingTravels(db, a.found.value);
    } else {
      EarlyStays(db, LeaveAlone(db, a.p, a.first));
    }
  }

  /** In every run, players travel only to sessions that have an instance. */
  lemma {:induction false} PlayersTravelToInstances(start: Db, actions: seq<Action>)
    requires start.sessions == map[] && start.instances == map[]
    ensures NobodyTravelsEarly(Run(start, actions))
  {
    if actions != [] {
      var n := |actions| - 1;
      PlayersTravelToInstances(start, actions[..n]);
      RunKeepsReservations(start, actions[..n]);
      ActionTravels(Run(start, actions[..n]), actions[n]);
    }
  }

  /**
   Losing a reserved instance before anybody connected is undone by the recovery:
   the session and its members are as before the reservation, and wait for the
   next instance.
   */
  lemma RecoveryUndoesReserving(db: Db, s: SessionId, i: InstanceId)
    requires NobodyTravelsEarly(db) && CanReserve(db, s, i)
    ensures
      var lost := MoveInstance(Reserve(db, s, i), i, InstanceFailed);
      NeedsRecovery(lost, s) &&
      Recover(lost, s).sessions == db.sessions[s := db.sessions[s].(state := WaitingForInstance, instance := None)]
  {
    var reserved := Reserve(db, s, i);
    var lost := MoveInstance(reserved, i, InstanceFailed);
    var members := db.sessions[s].members;
    forall p | p in members ensures members[p].state in {Selected, Left} {
      assert p !in InState(members, {Transferring, Connected});
    }
    assert ConnectedPlayers(lost.sessions[s].members) == {};
    assert Restate(Restate(members, Selected, Transferring), Transferring, Selected) == members;
  }

  // ----- Seats

  /** A seated ticket has no player in any other open session, and its players are nowhere else. */
  lemma SeatedInOneSession(db: Db, e: EntryId, t: SessionId, p: PlayerId)
    requires Sound(db) && Seated(db, e) && !Terminal(db.sessions[db.entries[e].session.value].state)
    requires p in db.entries[e].players && t in db.sessions && t != db.entries[e].session.value
    ensures Ticket(db.sessions[t].members, e) == {}
    ensures !PlaysIn(db, t, p) && forall f :: !QueuedWith(db, f, p)
  {
    var s := db.entries[e].session.value;
    forall q | q in Active(db.sessions[t].members) ensures db.sessions[t].members[q].entry != e {
      assert TicketOk(db, t, q);
    }
    assert p in Ticket(db.sessions[s].members, e);
    assert PlaysIn(db, s, p);
  }

  /**
   Everybody has arrived exactly when the game could start now without dropping
   anybody; a promotion changes nothing about what the start does. So a promotion
   loses nobody if what was counted for it still holds when it is written.
   */
  lemma PromotionLosesNobody(db: Db, i: InstanceId, s: SessionId)
    requires Bound(db, i, s) && db.sessions[s].state == InTransfer && Active(db.sessions[s].members) != {}
    ensures
      var before, started := db.sessions[s], GameStart(db, i, s);
      && (AllArrived(db, s) <==> started.sessions[s] == before.(state := GameStarting))
      && (AllArrived(db, s) <==> Active(started.sessions[s].members) == Active(before.members))
      && AdvanceWaiting(db, s).sessions[s].state == Waiting
      && GameStart(AdvanceWaiting(db, s), i, s).sessions == started.sessions
  {
    GameStartsWithTheConnected(db, i, s);
    NobodyLeaves(db.sessions[s].members);
  }

  /**
   It need not hold any more: a ticket that joins after the arrivals were counted is
   promoted unarrived, and a start drops it, and nobody else.
   */
  lemma LateJoinerIsPromoted(db: Db, i: InstanceId, s: SessionId, e: EntryId)
    requires AllArrived(db, s) && Bound(db, i, s) && CanAttach(db, e, s, false) && db.entries[e].players != {}
    ensures
      var joined := BeginTicketTransfer(Attach(db, e, s, false), e, s);
      var promoted := AdvanceWaiting(joined, s);
      && !AllArrived(joined, s) && promoted.sessions[s].state == Waiting
      && Active(promoted.sessions[s].members) == Active(db.sessions[s].members) + db.entries[e].players
      && Active(GameStart(promoted, i, s).sessions[s].members) == Active(db.sessions[s].members)
  {
    var members := db.sessions[s].members;
    var joined := BeginTicketTransfer(Attach(db, e, s, false), e, s);
    var promoted := AdvanceWaiting(joined, s);
    JoinedMembers(db, s, e);
    var p := Witness(db.entries[e].players);
    assert p in Active(joined.sessions[s].members) && p !in ConnectedPlayers(joined.sessions[s].members);
    GameStartsWithTheConnected(promoted, i, s);
  }

  /** The ticket is on its way, everybody else where they were. */
  lemma JoinedMembers(db: Db, s: SessionId, e: EntryId)
    requires AllArrived(db, s) && db.sessions[s].instance.Some? && CanAttach(db, e, s, false)
    ensures
      var joined := BeginTicketTransfer(Attach(db, e, s, false), e, s).sessions[s];
      && joined.state == InTransfer
      && Active(joined.members) == Active(db.sessions[s].members) + db.entries[e].players
      && ConnectedPlayers(joined.members) == Active(db.sessions[s].members)
  {
    var members := db.sessions[s].members;
    var after := BeginTicketTransfer(Attach(db, e, s, false), e, s).sessions[s].members;
    forall p ensures p in Active(after) <==> p in Active(members) + db.entries[e].players {
    }
    forall p ensures p in ConnectedPlayers(after) <==> p in ConnectedPlayers(members) {
    }
  }

  /** Once the game starts, the expected players are those who connected. */
  lemma GameStartsWithTheConnected(db: Db, i: InstanceId, s: SessionId)
    requires Bound(db, i, s) && (db.sessions[s].state == InTransfer || db.sessions[s].state == Waiting)
    ensures
      var after := GameStart(db, i, s).sessions[s];
      && after.state == GameStarting
      && Active(after.members) == ConnectedPlayers(db.sessions[s].members) == ConnectedPlayers(after.members)
      && (after.revision == db.sessions[s].revision <==>
            Active(db.sessions[s].members) == ConnectedPlayers(db.sessions[s].members))
  {
    var members := db.sessions[s].members;
    var who := InState(members, {Selected, Transferring});
    MarkLeftMeans(members, who);
    assert forall p | p in members :: members[p].state in {Selected, Transferring, Connected, Left};
    assert Active(members) - who == ConnectedPlayers(members);
    assert who == {} <==> Active(members) == ConnectedPlayers(members) by {
      if who != {} {
        var p := Witness(who);
        assert p in Active(members) && p !in ConnectedPlayers(members);
      }
    }
  }
}
