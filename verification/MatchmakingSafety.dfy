/**
 What every run of matchmaking keeps. Rows and parties need no condition;
 one place per player, the player limit and the teams each end exactly where a
 player marked LEFT comes back under the wrong circumstances.
 */
module MatchmakingSafety {
  import opened Basics
  import opened Assignments
  import opened ProfileRanking
  import opened Lifecycles
  import opened Tables
  import opened Protocol
  import opened MatchmakingSteps
  import opened ReservationSafety

  // ----- Rows

  lemma QuietKeepsRows(before: Db, after: Db)
    requires RowsOk(before) && Quiet(before, after)
    ensures RowsOk(after)
  {
    forall e | e in after.entries ensures EntryOk(after, e) {
      assert EntryOk(before, e) && QuietEntry(before.entries[e], after.entries[e]);
    }
    forall s | s in after.sessions ensures RowOk(after, s) {
      assert RowOk(before, s) && QuietSession(before.sessions[s], after.sessions[s]);
    }
    forall s, p | s in after.sessions && p in after.sessions[s].members ensures TicketOk(after, s, p) {
      QuietKeepsTicket(before, after, s, p);
    }
  }

  lemma QuietKeepsTicket(before: Db, after: Db, s: SessionId, p: PlayerId)
    requires RowsOk(before) && Quiet(before, after) && s in after.sessions && p in after.sessions[s].members
    ensures TicketOk(after, s, p)
  {
    assert QuietSession(before.sessions[s], after.sessions[s]);
    assert TicketOk(before, s, p);
    var e := after.sessions[s].members[p].entry;
    assert QuietEntry(before.entries[e], after.entries[e]);
  }

  lemma EnqueueKeepsRows(db: Db, e: EntryId, group: GroupId, party: PartyId, players: set<PlayerId>)
    requires RowsOk(db)
    ensures RowsOk(Enqueue(db, e, group, party, players))
  {
    var after := Enqueue(db, e, group, party, players);
    if CanEnqueue(db, e, group, party, players) {
      forall f | f in after.entries ensures EntryOk(after, f) {
        assert f != e ==> EntryOk(db, f);
      }
      forall s | s in after.sessions ensures RowOk(after, s) {
        assert RowOk(db, s);
      }
      forall s, p | s in after.sessions && p in after.sessions[s].members ensures TicketOk(after, s, p) {
        assert TicketOk(db, s, p);
      }
    }
  }

  lemma OpenSessionKeepsRows(db: Db, s: SessionId, group: GroupId, createdAt: int)
    requires RowsOk(db)
    ensures RowsOk(OpenSession(db, s, group, createdAt))
  {
    var after := OpenSession(db, s, group, createdAt);
    if s !in db.sessions && group in db.policies {
      forall e | e in after.entries ensures EntryOk(after, e) {
        assert EntryOk(db, e);
      }
      forall t | t in after.sessions ensures RowOk(after, t) {
        assert t != s ==> RowOk(db, t);
      }
      forall t, p | t in after.sessions && p in after.sessions[t].members ensures TicketOk(after, t, p) {
        assert TicketOk(db, t, p);
      }
    }
  }

  lemma AttachKeepsRows(db: Db, e: EntryId, s: SessionId, inserted: bool)
    requires RowsOk(db)
    ensures RowsOk(Attach(db, e, s, inserted))
  {
    if CanAttach(db, e, s, inserted) {
      var after := Attach(db, e, s, inserted);
      forall f | f in after.entries ensures EntryOk(after, f) {
        assert EntryOk(db, f);
      }
      forall t | t in after.sessions ensures RowOk(after, t) {
        assert RowOk(db, t);
      }
      forall t, p | t in after.sessions && p in after.sessions[t].members ensures TicketOk(after, t, p) {
        AttachKeepsTicket(db, e, s, inserted, t, p);
      }
    }
  }

  lemma AttachKeepsTicket(db: Db, e: EntryId, s: SessionId, inserted: bool, t: SessionId, p: PlayerId)
    requires RowsOk(db) && CanAttach(db, e, s, inserted)
    requires t in Attach(db, e, s, inserted).sessions && p in Attach(db, e, s, inserted).sessions[t].members
    ensures TicketOk(Attach(db, e, s, inserted), t, p)
  {
    if t == s && p in db.entries[e].players {
    } else {
      assert TicketOk(db, t, p) && EntryOk(db, e);
    }
  }

  /** Transfers start or are undone, and sessions change hands, but the people stay where they are. */
  ghost predicate SamePeople(db: Db, after: Db) {
    && after.policies == db.policies
    && after.entries.Keys == db.entries.Keys && after.sessions.Keys == db.sessions.Keys
    && (forall e | e in db.entries ::
          after.entries[e] == db.entries[e].(transferStarted := after.entries[e].transferStarted))
    && (forall s | s in db.sessions :: SamePeopleRow(db.sessions[s], after.sessions[s]))
  }

  ghost predicate SamePeopleRow(a: Session, b: Session) {
    && b.group == a.group && b.revision == a.revision && b.acknowledged == a.acknowledged
    && (Terminal(a.state) ==> Terminal(b.state))
    && b.members.Keys == a.members.Keys
    && (forall p | p in b.members :: b.members[p].entry == a.members[p].entry)
    && Active(b.members) == Active(a.members) && ConnectedPlayers(b.members) == ConnectedPlayers(a.members)
  }

  lemma SamePeopleKeepRows(db: Db, after: Db)
    requires RowsOk(db) && SamePeople(db, after)
    ensures RowsOk(after)
  {
    forall e | e in after.entries ensures EntryOk(after, e) {
      assert EntryOk(db, e);
    }
    forall s | s in after.sessions ensures RowOk(after, s) {
      assert RowOk(db, s) && SamePeopleRow(db.sessions[s], after.sessions[s]);
    }
    forall s, p | s in after.sessions && p in after.sessions[s].members ensures TicketOk(after, s, p) {
      assert TicketOk(db, s, p) && SamePeopleRow(db.sessions[s], after.sessions[s]);
    }
  }

  predicate MovesPeople(a: Action) {
    a.DoEnqueue? || a.DoOpenSession? || a.DoAttach?
  }

  /** Reservations, recoveries and instances leave the people where they are. */
  lemma SamePeopleStays(db: Db, a: Action)
    requires AddsOrReopens(a) && !MovesPeople(a)
    ensures SamePeople(db, Apply(db, a))
  {
    match a {
      case DoReserve(s, i) =>
        if CanReserve(db, s, i) {
          RestateMeans(db.sessions[s].members, Selected, Transferring);
        }
      case DoRecover(s) =>
        if NeedsRecovery(db, s) {
          RestateMeans(db.sessions[s].members, Transferring, Selected);
        }
      case DoAddInstance(_, _) =>
      case DoMoveInstance(_, _) =>
    }
  }

  lemma ActionKeepsRows(db: Db, a: Action)
    requires RowsOk(db)
    ensures RowsOk(Apply(db, a))
  {
    if !AddsOrReopens(a) {
      QuietAction(db, a);
      QuietKeepsRows(db, Apply(db, a));
    } else if !MovesPeople(a) {
      SamePeopleStays(db, a);
      SamePeopleKeepRows(db, Apply(db, a));
    } else {
      match a {
        case DoEnqueue(e, group, party, players) => EnqueueKeepsRows(db, e, group, party, players);
        case DoOpenSession(s, group, createdAt) => OpenSessionKeepsRows(db, s, group, createdAt);
        case DoAttach(e, s, inserted) => AttachKeepsRows(db, e, s, inserted);
      }
    }
  }

  // ----- One place per player

  lemma CalmKeepsPlaces(before: Db, after: Db)
    requires Calm(before, after) && OnePlace(before)
    ensures OnePlace(after)
  {
    forall e, p | QueuedWith(after, e, p) ensures QueuedWith(before, e, p) {
      assert QuietEntry(before.entries[e], after.entries[e]);
    }
    forall s, p | PlaysIn(after, s, p) ensures PlaysIn(before, s, p) {
      assert CalmSession(before.sessions[s], after.sessions[s]);
    }
  }

  lemma EnqueueKeepsPlaces(db: Db, after: Db, e: EntryId)
    requires OnePlace(db) && e !in db.entries && e in after.entries
    requires after.sessions == db.sessions && after.entries == db.entries[e := after.entries[e]]
    requires forall p | p in after.entries[e].players :: !Busy(db, p)
    ensures OnePlace(after)
  {
    forall s, p ensures PlaysIn(after, s, p) <==> PlaysIn(db, s, p) {
    }
    forall f, p ensures f != e ==> (QueuedWith(after, f, p) <==> QueuedWith(db, f, p)) {
    }
    forall f, p | f != e && QueuedWith(after, f, p) && QueuedWith(after, e, p) ensures false {
      assert QueuedWith(db, f, p);
      assert Busy(db, p);
    }
    forall s, p | QueuedWith(after, e, p) && PlaysIn(after, s, p) ensures false {
      assert PlaysIn(db, s, p);
      assert Busy(db, p);
    }
  }

  lemma JoinMeans(members: Members, e: EntryId, entry: Entry)
    requires entry.players !! Active(members)
    ensures Active(Join(members, e, entry)) == Active(members) + entry.players
    ensures ConnectedPlayers(Join(members, e, entry)) == ConnectedPlayers(members)
  {
    assert forall p | p in ConnectedPlayers(members) :: p in Active(members);
  }

  lemma AttachKeepsPlaces(db: Db, after: Db, e: EntryId, s: SessionId)
    requires OnePlace(db) && e in db.entries && s in db.sessions
    requires db.entries[e].state == EntryQueued && !Terminal(db.sessions[s].state)
    requires after.entries.Keys == db.entries.Keys && after.sessions.Keys == db.sessions.Keys
    requires after.entries[e].state == EntrySelected
    requires forall f | f in db.entries && f != e :: after.entries[f] == db.entries[f]
    requires forall t | t in db.sessions && t != s :: after.sessions[t] == db.sessions[t]
    requires after.sessions[s].state == db.sessions[s].state
    requires Active(after.sessions[s].members) == Active(db.sessions[s].members) + db.entries[e].players
    ensures OnePlace(after)
  {
    forall f, p ensures QueuedWith(after, f, p) <==> QueuedWith(db, f, p) && f != e {
    }
    forall t, p ensures PlaysIn(after, t, p) <==> PlaysIn(db, t, p) || (t == s && p in db.entries[e].players) {
    }
    forall p | p in db.entries[e].players ensures QueuedWith(db, e, p) {
    }
    forall t, u, p | PlaysIn(after, t, p) && PlaysIn(after, u, p) ensures t == u {
    }
    forall f, t, p | QueuedWith(after, f, p) ensures !PlaysIn(after, t, p) {
    }
  }

  lemma SamePeopleKeepPlaces(db: Db, after: Db)
    requires OnePlace(db) && SamePeople(db, after)
    ensures OnePlace(after)
  {
    forall e, p ensures QueuedWith(after, e, p) <==> QueuedWith(db, e, p) {
    }
    forall s, p | PlaysIn(after, s, p) ensures PlaysIn(db, s, p) {
      assert SamePeopleRow(db.sessions[s], after.sessions[s]);
    }
  }

  lemma OpenSessionKeepsPlaces(db: Db, s: SessionId, group: GroupId, createdAt: int)
    requires OnePlace(db)
    ensures OnePlace(OpenSession(db, s, group, createdAt))
  {
    var after := OpenSession(db, s, group, createdAt);
    forall t, p ensures PlaysIn(after, t, p) <==> PlaysIn(db, t, p) {
    }
    forall e, p ensures QueuedWith(after, e, p) <==> QueuedWith(db, e, p) {
    }
  }

  /** Who plays and who queues after a heartbeat. */
  lemma HeartbeatPlaces(db: Db, i: InstanceId, players: set<PlayerId>)
    ensures
      var a, after := DoHeartbeat(i, players), Heartbeat(db, i, players);
      && (forall e, p :: QueuedWith(after, e, p) <==> QueuedWith(db, e, p))
      && (forall s, p :: PlaysIn(after, s, p) <==>
            PlaysIn(db, s, p) || (Reports(db, a) && s == ReportedSession(db, a) && p in Returning(db, a)))
  {
    HeartbeatBringsBack(db, i, players);
  }

  lemma HeartbeatKeepsPlaces(db: Db, i: InstanceId, players: set<PlayerId>)
    requires OnePlace(db)
    ensures OnePlace(Heartbeat(db, i, players)) <==> NoneBusy(db, DoHeartbeat(i, players))
  {
    var a, after := DoHeartbeat(i, players), Heartbeat(db, i, players);
    HeartbeatPlaces(db, i, players);
    if NoneBusy(db, a) {
      FreeReturnKeepsPlaces(db, a, after);
    } else {
      var p :| p in Returning(db, a) && Busy(db, p);
      BusyReturnDoublesPlaces(db, a, after, p);
    }
  }

  lemma FreeReturnKeepsPlaces(db: Db, a: Action, after: Db)
    requires OnePlace(db) && NoneBusy(db, a)
    requires forall e, p :: QueuedWith(after, e, p) <==> QueuedWith(db, e, p)
    requires forall s, p :: PlaysIn(after, s, p) <==>
               PlaysIn(db, s, p) || (Reports(db, a) && s == ReportedSession(db, a) && p in Returning(db, a))
    ensures OnePlace(after)
  {
    forall p, e | p in Returning(db, a) ensures !QueuedWith(db, e, p) {
      assert !Busy(db, p);
    }
    forall p, s | p in Returning(db, a) ensures !PlaysIn(db, s, p) {
      assert !Busy(db, p);
    }
  }

  lemma BusyReturnDoublesPlaces(db: Db, a: Action, after: Db, p: PlayerId)
    requires p in Returning(db, a) && Busy(db, p)
    requires forall e :: QueuedWith(after, e, p) <==> QueuedWith(db, e, p)
    requires forall s :: PlaysIn(after, s, p) <==> PlaysIn(db, s, p) || s == ReportedSession(db, a)
    ensures !OnePlace(after)
  {
    assert PlaysIn(after, ReportedSession(db, a), p);
    if e :| QueuedWith(db, e, p) {
      assert QueuedWith(after, e, p);
    } else {
      var s :| PlaysIn(db, s, p);
      assert PlaysIn(after, s, p) && s != ReportedSession(db, a);
    }
  }

  /** A step keeps one place per player exactly when no player it brings back is busy elsewhere. */
  lemma ActionKeepsPlaces(db: Db, a: Action)
    requires OnePlace(db)
    ensures OnePlace(Apply(db, a)) <==> NoneBusy(db, a)
  {
    if a.DoHeartbeat? {
      HeartbeatKeepsPlaces(db, a.i, a.players);
    } else if !AddsOrReopens(a) {
      QuietAction(db, a);
      CalmKeepsPlaces(db, Apply(db, a));
    } else if !MovesPeople(a) {
      SamePeopleStays(db, a);
      SamePeopleKeepPlaces(db, Apply(db, a));
    } else {
      MovingKeepsPlaces(db, a);
    }
  }

  lemma MovingKeepsPlaces(db: Db, a: Action)
    requires OnePlace(db) && MovesPeople(a)
    ensures OnePlace(Apply(db, a))
  {
    match a {
      case DoEnqueue(e, group, party, players) =>
        if CanEnqueue(db, e, group, party, players) {
          EnqueueKeepsPlaces(db, Apply(db, a), e);
        }
      case DoOpenSession(s, group, createdAt) => OpenSessionKeepsPlaces(db, s, group, createdAt);
      case DoAttach(e, s, inserted) =>
        AttachingKeepsPlaces(db, e, s, inserted);
    }
  }

  lemma AttachingKeepsPlaces(db: Db, e: EntryId, s: SessionId, inserted: bool)
    requires OnePlace(db)
    ensures OnePlace(Attach(db, e, s, inserted))
  {
    if CanAttach(db, e, s, inserted) {
      var entry, members := db.entries[e], db.sessions[s].members;
      forall p | p in entry.players ensures p !in Active(members) {
      }
      JoinMeans(members, e, entry);
      AttachKeepsPlaces(db, Attach(db, e, s, inserted), e, s);
    }
  }

  // ----- The revision

  lemma SamePeopleIsFaithful(db: Db, after: Db)
    requires SamePeople(db, after)
    ensures Faithful(db, after)
  {
    forall s | s in db.sessions ensures FaithfulRow(db.sessions[s], after.sessions[s]) {
      assert SamePeopleRow(db.sessions[s], after.sessions[s]);
    }
  }

  /** A step is faithful exactly when it takes nobody out of two sessions at once. */
  lemma ActionIsFaithful(db: Db, a: Action)
    ensures Faithful(db, Apply(db, a)) <==> LeavesOneSession(db, a)
  {
    if !AddsOrReopens(a) {
      QuietAction(db, a);
    } else if !MovesPeople(a) {
      SamePeopleStays(db, a);
      SamePeopleIsFaithful(db, Apply(db, a));
    }
  }

  // ----- The player limit

  ghost predicate TeamFits(p: Policy) {
    1 <= p.teamSize <= p.maximumPlayers
  }

  lemma CalmKeepsLimits(before: Db, after: Db)
    requires Calm(before, after) && Limits(before)
    ensures Limits(after)
  {
    forall s | s in after.sessions ensures LimitOk(after, s) {
      assert LimitOk(before, s) && CalmSession(before.sessions[s], after.sessions[s]);
      SubsetSize(Active(after.sessions[s].members), Active(before.sessions[s].members));
    }
  }

  lemma SamePeopleKeepLimits(db: Db, after: Db)
    requires Limits(db) && SamePeople(db, after)
    ensures Limits(after)
  {
    forall s | s in after.sessions ensures LimitOk(after, s) {
      assert LimitOk(db, s) && SamePeopleRow(db.sessions[s], after.sessions[s]);
    }
  }

  lemma JoinTickets(members: Members, e: EntryId, entry: Entry)
    requires forall p | p in members && members[p].state != Left :: members[p].entry != e
    requires entry.players !! Active(members)
    ensures Ticket(Join(members, e, entry), e) == entry.players
    ensures forall f | f != e :: Ticket(Join(members, e, entry), f) == Ticket(members, f)
  {
    var joined := Join(members, e, entry);
    forall p ensures p in Ticket(joined, e) <==> p in entry.players {
      if p in entry.players {
        assert p in joined && joined[p] == Member(entry.party, e, Selected);
      } else if p in joined {
        assert joined[p] == members[p];
      }
    }
    forall f | f != e ensures Ticket(Join(members, e, entry), f) == Ticket(members, f) {
      forall p | p in Ticket(members, f) ensures p !in entry.players {
        assert p in Active(members);
      }
    }
  }

  lemma JoinedTicketList(members: Members, e: EntryId, entry: Entry, ids: seq<EntryId>)
    requires forall p | p in members && members[p].state != Left :: members[p].entry != e
    requires entry.players !! Active(members) && entry.players != {}
    requires TicketList(members, ids)
    ensures TicketList(Join(members, e, entry), ids + [e])
    ensures SizesOf(Join(members, e, entry), ids + [e]) == SizesOf(members, ids) + [|entry.players|]
  {
    JoinTickets(members, e, entry);
    assert Ticket(members, e) == {};
    assert e !in ids;
  }

  lemma JoinedRows(db: Db, e: EntryId, s: SessionId, inserted: bool)
    requires RowsOk(db) && CanAttach(db, e, s, inserted)
    ensures
      var entry, members := db.entries[e], db.sessions[s].members;
      && entry.players !! Active(members)
      && 1 <= |entry.players| <= db.policies[entry.group].teamSize && entry.players != {}
      && (forall p | p in members && members[p].state != Left :: members[p].entry != e)
  {
    var entry, members := db.entries[e], db.sessions[s].members;
    assert EntryOk(db, e);
    forall p | p in members ensures members[p].entry != e {
      assert TicketOk(db, s, p);
    }
    forall p | p in entry.players ensures p !in Active(members) {
    }
  }

  lemma AttachKeepsLimits(db: Db, e: EntryId, s: SessionId, inserted: bool)
    requires RowsOk(db) && Limits(db) && forall g | g in db.policies :: TeamFits(db.policies[g])
    ensures Limits(Attach(db, e, s, inserted))
  {
    if CanAttach(db, e, s, inserted) {
      var after, entry := Attach(db, e, s, inserted), db.entries[e];
      var members, policy := db.sessions[s].members, db.policies[db.sessions[s].group];
      JoinedRows(db, e, s, inserted);
      JoinMeans(members, e, entry);
      if inserted {
        assert Active(members) == {};
        assert Active(after.sessions[s].members) == entry.players;
      } else {
        JoinWithRoomIsWithinLimit(members, e, entry, policy);
      }
      assert LimitOk(after, s);
      forall t | t in after.sessions ensures LimitOk(after, t) {
        assert LimitOk(db, t);
      }
    }
  }

  /** A ticket that was given room keeps the session within its limit. */
  lemma JoinWithRoomIsWithinLimit(members: Members, e: EntryId, entry: Entry, policy: Policy)
    requires forall p | p in members && members[p].state != Left :: members[p].entry != e
    requires entry.players !! Active(members) && entry.players != {}
    requires RoomFor(members, |entry.players|, policy)
    ensures |Active(Join(members, e, entry))| <= policy.maximumPlayers
  {
    var ids :| TicketList(members, ids) &&
      FitsTicket(SizesOf(members, ids), |entry.players|, policy.teamCount, policy.teamSize, policy.maximumPlayers);
    JoinedTicketList(members, e, entry, ids);
    SizesCountPlayers(Join(members, e, entry), ids + [e]);
  }

  lemma HeartbeatKeepsLimits(db: Db, i: InstanceId, players: set<PlayerId>)
    requires Limits(db)
    ensures Limits(Heartbeat(db, i, players)) <==> PlacesFree(db, DoHeartbeat(i, players))
  {
    var a, after := DoHeartbeat(i, players), Heartbeat(db, i, players);
    HeartbeatBringsBack(db, i, players);
    forall s | s in after.sessions && !(Reports(db, a) && s == ReportedSession(db, a)) ensures LimitOk(after, s) {
      assert LimitOk(db, s) && QuietSession(db.sessions[s], after.sessions[s]);
    }
    if Reports(db, a) {
      var s := ReportedSession(db, a);
      assert LimitOk(db, s) && QuietSession(db.sessions[s], after.sessions[s]);
      DisjointUnionSize(Active(db.sessions[s].members), Returning(db, a));
      assert LimitOk(after, s) <==> PlacesFree(db, a);
    }
  }

  /** Where a team fits into a session, a step keeps the limit exactly when there is a place for everybody it brings back. */
  lemma ActionKeepsLimits(db: Db, a: Action)
    requires RowsOk(db) && Limits(db) && forall g | g in db.policies :: TeamFits(db.policies[g])
    ensures Limits(Apply(db, a)) <==> PlacesFree(db, a)
  {
    if a.DoHeartbeat? {
      HeartbeatKeepsLimits(db, a.i, a.players);
    } else if !AddsOrReopens(a) {
      QuietAction(db, a);
      CalmKeepsLimits(db, Apply(db, a));
    } else if !MovesPeople(a) {
      SamePeopleStays(db, a);
      SamePeopleKeepLimits(db, Apply(db, a));
    } else {
      MovingKeepsLimits(db, a);
    }
  }

  lemma OpenSessionKeepsLimits(db: Db, s: SessionId, group: GroupId, createdAt: int)
    requires Limits(db) && forall g | g in db.policies :: TeamFits(db.policies[g])
    ensures Limits(OpenSession(db, s, group, createdAt))
  {
    var after := OpenSession(db, s, group, createdAt);
    assert Active(map[]) == {};
    forall t | t in after.sessions ensures LimitOk(after, t) {
      assert t in db.sessions ==> LimitOk(db, t);
    }
  }

  lemma MovingKeepsLimits(db: Db, a: Action)
    requires RowsOk(db) && Limits(db) && MovesPeople(a)
    requires forall g | g in db.policies :: TeamFits(db.policies[g])
    ensures Limits(Apply(db, a))
  {
    match a {
      case DoEnqueue(e, group, party, players) =>
        forall t | t in Apply(db, a).sessions ensures LimitOk(Apply(db, a), t) {
          assert LimitOk(db, t);
        }
      case DoOpenSession(s, group, createdAt) => OpenSessionKeepsLimits(db, s, group, createdAt);
      case DoAttach(e, s, inserted) => AttachKeepsLimits(db, e, s, inserted);
    }
  }

  // ----- The teams

  ghost predicate TeamsExist(p: Policy) {
    p.teamCount >= 1 && p.teamSize >= 1
  }

  lemma FewerMembersHaveTeams(a: Members, b: Members, teamCount: int, teamSize: int)
    requires HasPlan(a, teamCount, teamSize)
    requires b.Keys == a.Keys && Active(b) <= Active(a)
    requires forall p | p in b :: b[p].entry == a[p].entry
    ensures HasPlan(b, teamCount, teamSize)
  {
    var plan :| PlanFits(a, plan, teamCount, teamSize);
    forall p | p in Active(b) ensures b[p].entry in plan && plan[b[p].entry] < teamCount {
      assert p in Active(a);
    }
    forall t: nat | t < teamCount ensures |Team(b, plan, t)| <= teamSize {
      forall p | p in Team(b, plan, t) ensures p in Team(a, plan, t) {
        assert p in Active(b);
        assert p in Active(a);
      }
      SubsetSize(Team(b, plan, t), Team(a, plan, t));
    }
    assert PlanFits(b, plan, teamCount, teamSize);
  }

  lemma CalmKeepsTeams(before: Db, after: Db)
    requires Calm(before, after) && Teams(before)
    ensures Teams(after)
  {
    forall s | s in after.sessions ensures TeamsOk(after, s) {
      var a, b := before.sessions[s], after.sessions[s];
      assert TeamsOk(before, s) && CalmSession(a, b);
      if !Terminal(b.state) && b.group in after.policies {
        var policy := after.policies[b.group];
        FewerMembersHaveTeams(a.members, b.members, policy.teamCount, policy.teamSize);
      }
    }
  }

  lemma SamePeopleKeepTeams(db: Db, after: Db)
    requires Teams(db) && SamePeople(db, after)
    ensures Teams(after)
  {
    forall s | s in after.sessions ensures TeamsOk(after, s) {
      var a, b := db.sessions[s], after.sessions[s];
      assert TeamsOk(db, s) && SamePeopleRow(a, b);
      if !Terminal(b.state) && b.group in after.policies {
        var policy := after.policies[b.group];
        FewerMembersHaveTeams(a.members, b.members, policy.teamCount, policy.teamSize);
      }
    }
  }

  lemma NobodyHasTeams(policy: Policy)
    requires TeamsExist(policy)
    ensures HasPlan(map[], policy.teamCount, policy.teamSize)
  {
    var plan: map<EntryId, nat> := map[];
    forall t: nat | t < policy.teamCount ensures |Team(map[], plan, t)| <= policy.teamSize {
      assert Team(map[], plan, t) == {};
    }
    assert Active(map[]) == {};
    assert PlanFits(map[], plan, policy.teamCount, policy.teamSize);
  }

  /** A ticket that was given room finds a team. */
  lemma JoinWithRoomHasTeams(members: Members, e: EntryId, entry: Entry, policy: Policy)
    requires TeamsExist(policy)
    requires forall p | p in members && members[p].state != Left :: members[p].entry != e
    requires entry.players !! Active(members) && entry.players != {}
    requires RoomFor(members, |entry.players|, policy)
    ensures HasPlan(Join(members, e, entry), policy.teamCount, policy.teamSize)
  {
    var ids :| TicketList(members, ids) &&
      FitsTicket(SizesOf(members, ids), |entry.players|, policy.teamCount, policy.teamSize, policy.maximumPlayers);
    JoinedTicketList(members, e, entry, ids);
    PlanIffAssignable(Join(members, e, entry), ids + [e], policy.teamCount, policy.teamSize);
  }

  /** The first ticket of a new session takes the first team. */
  lemma FirstTicketHasTeams(e: EntryId, entry: Entry, policy: Policy)
    requires TeamsExist(policy) && |entry.players| <= policy.teamSize
    ensures HasPlan(Join(map[], e, entry), policy.teamCount, policy.teamSize)
  {
    var members := Join(map[], e, entry);
    var plan: map<EntryId, nat> := map[e := 0];
    forall t: nat | t < policy.teamCount ensures |Team(members, plan, t)| <= policy.teamSize {
      assert Team(members, plan, t) <= entry.players;
      SubsetSize(Team(members, plan, t), entry.players);
    }
    assert PlanFits(members, plan, policy.teamCount, policy.teamSize);
  }

  lemma AttachKeepsTeams(db: Db, e: EntryId, s: SessionId, inserted: bool)
    requires RowsOk(db) && Teams(db) && forall g | g in db.policies :: TeamsExist(db.policies[g])
    ensures Teams(Attach(db, e, s, inserted))
  {
    if CanAttach(db, e, s, inserted) {
      var after, entry := Attach(db, e, s, inserted), db.entries[e];
      var members, policy := db.sessions[s].members, db.policies[db.sessions[s].group];
      JoinedRows(db, e, s, inserted);
      if inserted {
        FirstTicketHasTeams(e, entry, policy);
      } else {
        JoinWithRoomHasTeams(members, e, entry, policy);
      }
      assert TeamsOk(after, s);
      forall t | t in after.sessions ensures TeamsOk(after, t) {
        assert TeamsOk(db, t);
      }
    }
  }

  lemma {:induction false} ListOf(s: set<EntryId>) returns (ids: seq<EntryId>)
    ensures Distinct(ids)
    ensures forall e :: e in ids <==> e in s
  {
    if s == {} {
      ids := [];
    } else {
      var e := Witness(s);
      var rest := ListOf(s - {e});
      ids := [e] + rest;
    }
  }

  lemma TicketsCanBeListed(members: Members) returns (ids: seq<EntryId>)
    ensures TicketList(members, ids)
  {
    var tickets := set p | p in Active(members) :: members[p].entry;
    ids := ListOf(tickets);
    forall e ensures e in ids <==> Ticket(members, e) != {} {
      if e in tickets {
        var p :| p in Active(members) && members[p].entry == e;
        assert p in Ticket(members, e);
      }
      forall p | p in Ticket(members, e) ensures e in tickets {
        assert p in Active(members);
      }
    }
  }

  /** The tickets after a return are the grown tickets before it. */
  lemma ReturnedTickets(a: Members, b: Members, who: set<PlayerId>, ids: seq<EntryId>)
    requires b.Keys == a.Keys && forall p | p in b :: b[p].entry == a[p].entry
    requires who <= a.Keys && who !! Active(a) && Active(b) == Active(a) + who
    ensures TicketList(b, ids) <==> TicketsWith(a, who, ids)
    ensures SizesOf(b, ids) == GrownSizes(a, who, ids)
  {
    forall e ensures |Ticket(b, e)| == |Ticket(a, e)| + |PartOf(a, who, e)| {
      ReturnedTicket(a, b, who, e);
    }
    forall e ensures Ticket(b, e) != {} <==> Ticket(a, e) != {} || PartOf(a, who, e) != {} {
      assert Ticket(b, e) == {} <==> |Ticket(b, e)| == 0;
      assert |Ticket(b, e)| == |Ticket(a, e)| + |PartOf(a, who, e)|;
    }
  }

  lemma ReturnedTicket(a: Members, b: Members, who: set<PlayerId>, e: EntryId)
    requires b.Keys == a.Keys && forall p | p in b :: b[p].entry == a[p].entry
    requires who <= a.Keys && who !! Active(a) && Active(b) == Active(a) + who
    ensures |Ticket(b, e)| == |Ticket(a, e)| + |PartOf(a, who, e)|
  {
    forall p ensures p in Ticket(b, e) <==> p in Ticket(a, e) || p in PartOf(a, who, e) {
      assert p in Active(b) <==> p in Active(a) || p in who;
    }
    forall p | p in Ticket(a, e) ensures p in Active(a) {
    }
    DisjointUnionSize(Ticket(a, e), PartOf(a, who, e));
    assert Ticket(b, e) == Ticket(a, e) + PartOf(a, who, e);
  }

  lemma ReturnHasTeams(a: Members, b: Members, who: set<PlayerId>, teamCount: nat, teamSize: int)
    requires b.Keys == a.Keys && forall p | p in b :: b[p].entry == a[p].entry
    requires who <= a.Keys && who !! Active(a) && Active(b) == Active(a) + who
    ensures HasPlan(b, teamCount, teamSize) <==>
            exists ids :: TicketsWith(a, who, ids) && Assignable(GrownSizes(a, who, ids), teamCount, teamSize)
  {
    if HasPlan(b, teamCount, teamSize) {
      var ids := TicketsCanBeListed(b);
      ReturnedTickets(a, b, who, ids);
      PlanIffAssignable(b, ids, teamCount, teamSize);
    }
    if ids :| TicketsWith(a, who, ids) && Assignable(GrownSizes(a, who, ids), teamCount, teamSize) {
      ReturnedTickets(a, b, who, ids);
      PlanIffAssignable(b, ids, teamCount, teamSize);
    }
  }

  lemma HeartbeatKeepsTeams(db: Db, i: InstanceId, players: set<PlayerId>)
    requires Teams(db) && forall g | g in db.policies :: TeamsExist(db.policies[g])
    ensures Teams(Heartbeat(db, i, players)) <==> TeamsFree(db, DoHeartbeat(i, players))
  {
    var a, after := DoHeartbeat(i, players), Heartbeat(db, i, players);
    HeartbeatBringsBack(db, i, players);
    if Returning(db, a) == {} {
      HeartbeatIsCalm(db, i, players);
      CalmKeepsTeams(db, after);
    } else {
      var s := ReportedSession(db, a);
      ReportedTeams(db, i, players);
      forall t | t in after.sessions && t != s ensures TeamsOk(after, t) {
        assert TeamsOk(db, t) && after.sessions[t] == db.sessions[t];
      }
      assert Teams(after) <==> TeamsOk(after, s);
    }
  }

  lemma ReportedTeams(db: Db, i: InstanceId, players: set<PlayerId>)
    requires Reports(db, DoHeartbeat(i, players)) && Returning(db, DoHeartbeat(i, players)) != {}
    requires forall g | g in db.policies :: TeamsExist(db.policies[g])
    ensures var s := ReportedSession(db, DoHeartbeat(i, players));
            s in Heartbeat(db, i, players).sessions &&
            (TeamsOk(Heartbeat(db, i, players), s) <==> TeamsFree(db, DoHeartbeat(i, players)))
  {
    var a, after := DoHeartbeat(i, players), Heartbeat(db, i, players);
    var s := ReportedSession(db, a);
    HeartbeatBringsBack(db, i, players);
    assert QuietSession(db.sessions[s], after.sessions[s]);
    if db.sessions[s].group in db.policies {
      var policy := db.policies[db.sessions[s].group];
      ReturnHasTeams(db.sessions[s].members, after.sessions[s].members, Returning(db, a), policy.teamCount, policy.teamSize);
    }
  }

  /** Where there are teams, a step keeps a team for every ticket exactly when the tickets it lets grow still fit. */
  lemma ActionKeepsTeams(db: Db, a: Action)
    requires RowsOk(db) && Teams(db) && forall g | g in db.policies :: TeamsExist(db.policies[g])
    ensures Teams(Apply(db, a)) <==> TeamsFree(db, a)
  {
    if a.DoHeartbeat? {
      HeartbeatKeepsTeams(db, a.i, a.players);
    } else if !AddsOrReopens(a) {
      QuietAction(db, a);
      CalmKeepsTeams(db, Apply(db, a));
    } else if !MovesPeople(a) {
      SamePeopleStays(db, a);
      SamePeopleKeepTeams(db, Apply(db, a));
    } else {
      MovingKeepsTeams(db, a);
    }
  }

  lemma MovingKeepsTeams(db: Db, a: Action)
    requires RowsOk(db) && Teams(db) && MovesPeople(a)
    requires forall g | g in db.policies :: TeamsExist(db.policies[g])
    ensures Teams(Apply(db, a))
  {
    match a {
      case DoEnqueue(e, group, party, players) =>
        forall t | t in Apply(db, a).sessions ensures TeamsOk(Apply(db, a), t) {
          assert TeamsOk(db, t);
        }
      case DoOpenSession(s, group, createdAt) => OpenSessionKeepsTeams(db, s, group, createdAt);
      case DoAttach(e, s, inserted) => AttachKeepsTeams(db, e, s, inserted);
    }
  }

  lemma OpenSessionKeepsTeams(db: Db, s: SessionId, group: GroupId, createdAt: int)
    requires Teams(db) && forall g | g in db.policies :: TeamsExist(db.policies[g])
    ensures Teams(OpenSession(db, s, group, createdAt))
  {
    var after := OpenSession(db, s, group, createdAt);
    if group in db.policies {
      NobodyHasTeams(db.policies[group]);
    }
    forall t | t in after.sessions ensures TeamsOk(after, t) {
      assert t in db.sessions ==> TeamsOk(db, t);
    }
  }

  // ----- The tickets of expected players

  lemma EntriesStaySelected(before: Db, after: Db)
    requires Selections(before) && before.sessions.Keys == after.sessions.Keys
    requires forall s | s in before.sessions ::
               CalmSession(before.sessions[s], after.sessions[s]) || SamePeopleRow(before.sessions[s], after.sessions[s])
    requires before.entries.Keys <= after.entries.Keys
    requires forall s, p | s in after.sessions && p in Active(after.sessions[s].members) ::
               var e := after.sessions[s].members[p].entry;
               e in before.entries ==> after.entries[e].state == before.entries[e].state
    ensures Selections(after)
  {
    forall s, p | s in after.sessions && p in after.sessions[s].members ensures SelectionOk(after, s, p) {
      var a, b := before.sessions[s], after.sessions[s];
      assert CalmSession(a, b) || SamePeopleRow(a, b);
      assert SelectionOk(before, s, p);
      if b.members[p].state != Left {
        assert p in Active(b.members);
        assert p in Active(a.members);
      }
    }
  }

  lemma CancelTicketKeepsSelections(db: Db, e: EntryId)
    requires RowsOk(db) && Selections(db) && e in db.entries
    ensures Selections(CancelTicket(db, e))
  {
    var after := CancelTicket(db, e);
    CancelTicketIsCalm(db, e);
    forall t, p | t in after.sessions && p in Active(after.sessions[t].members)
      ensures after.sessions[t].members[p].entry != e
    {
      assert QuietSession(db.sessions[t], after.sessions[t]);
      assert TicketOk(db, t, p) && RowOk(db, t);
      assert p in Active(db.sessions[t].members);
      assert db.sessions[t].members[p].entry == e ==> p in Ticket(db.sessions[t].members, e);
    }
    EntriesStaySelected(db, after);
  }

  lemma AttachKeepsSelections(db: Db, e: EntryId, s: SessionId, inserted: bool)
    requires RowsOk(db) && Selections(db)
    ensures Selections(Attach(db, e, s, inserted))
  {
    if CanAttach(db, e, s, inserted) {
      var after := Attach(db, e, s, inserted);
      forall t, p | t in after.sessions && p in after.sessions[t].members ensures SelectionOk(after, t, p) {
        AttachKeepsSelection(db, e, s, inserted, t, p);
      }
    }
  }

  lemma AttachKeepsSelection(db: Db, e: EntryId, s: SessionId, inserted: bool, t: SessionId, p: PlayerId)
    requires RowsOk(db) && Selections(db) && CanAttach(db, e, s, inserted)
    requires t in Attach(db, e, s, inserted).sessions && p in Attach(db, e, s, inserted).sessions[t].members
    ensures SelectionOk(Attach(db, e, s, inserted), t, p)
  {
    if t == s && p in db.entries[e].players {
    } else {
      assert TicketOk(db, t, p) && EntryOk(db, e) && SelectionOk(db, t, p);
    }
  }

  lemma HeartbeatKeepsSelections(db: Db, i: InstanceId, players: set<PlayerId>)
    requires Selections(db)
    ensures Selections(Heartbeat(db, i, players)) <==> TicketsHeld(db, DoHeartbeat(i, players))
  {
    var a, after := DoHeartbeat(i, players), Heartbeat(db, i, players);
    HeartbeatBringsBack(db, i, players);
    forall s, p | s in after.sessions && p in after.sessions[s].members
      ensures SelectionOk(after, s, p) <==>
              !(Reports(db, a) && s == ReportedSession(db, a) && p in Returning(db, a)) ||
              (db.sessions[s].members[p].entry in db.entries &&
               db.entries[db.sessions[s].members[p].entry].state == EntrySelected)
    {
      assert QuietSession(db.sessions[s], after.sessions[s]);
      assert SelectionOk(db, s, p);
      assert p in Active(after.sessions[s].members) <==> after.sessions[s].members[p].state != Left;
      assert p in Active(db.sessions[s].members) <==> db.sessions[s].members[p].state != Left;
    }
    if Selections(after) {
      forall p | p in Returning(db, a)
        ensures db.sessions[ReportedSession(db, a)].members[p].entry in db.entries &&
                db.entries[db.sessions[ReportedSession(db, a)].members[p].entry].state == EntrySelected
      {
        assert SelectionOk(after, ReportedSession(db, a), p);
      }
    }
  }

  /** Expected players keep selected tickets exactly when nobody is brought back to a cancelled one. */
  lemma ActionKeepsSelections(db: Db, a: Action)
    requires RowsOk(db) && Selections(db)
    ensures Selections(Apply(db, a)) <==> TicketsHeld(db, a)
  {
    if a.DoHeartbeat? {
      HeartbeatKeepsSelections(db, a.i, a.players);
    } else if a.DoLeaveParty? || a.DoDisconnect? {
      DepartureKeepsSelections(db, a);
    } else if !AddsOrReopens(a) {
      QuietKeepsSelections(db, a);
    } else if !MovesPeople(a) {
      SamePeopleKeepSelections(db, a);
    } else if a.DoAttach? {
      AttachKeepsSelections(db, a.e, a.s, a.inserted);
    } else {
      QueueingKeepsSelections(db, a);
    }
  }

  lemma SamePeopleKeepSelections(db: Db, a: Action)
    requires Selections(db) && AddsOrReopens(a) && !MovesPeople(a)
    ensures Selections(Apply(db, a))
  {
    SamePeopleStays(db, a);
    EntriesStaySelected(db, Apply(db, a));
  }

  lemma QuietKeepsSelections(db: Db, a: Action)
    requires Selections(db) && !AddsOrReopens(a) && !a.DoHeartbeat? && !a.DoLeaveParty? && !a.DoDisconnect?
    ensures Selections(Apply(db, a))
  {
    QuietAction(db, a);
    QuietEntries(db, a);
    EntriesStaySelected(db, Apply(db, a));
  }

  /** Only leaving and disconnecting cancel tickets. */
  lemma QuietEntries(db: Db, a: Action)
    requires !AddsOrReopens(a) && !a.DoLeaveParty? && !a.DoDisconnect?
    ensures Apply(db, a).entries.Keys == db.entries.Keys
    ensures forall e | e in db.entries :: Apply(db, a).entries[e].state == db.entries[e].state
  {
  }

  lemma QueueingKeepsSelections(db: Db, a: Action)
    requires Selections(db) && (a.DoEnqueue? || a.DoOpenSession?)
    ensures Selections(Apply(db, a))
  {
    var after := Apply(db, a);
    forall s, p | s in after.sessions && p in after.sessions[s].members ensures SelectionOk(after, s, p) {
      assert SelectionOk(db, s, p);
    }
  }

  lemma DepartureKeepsSelections(db: Db, a: Action)
    requires RowsOk(db) && Selections(db) && (a.DoLeaveParty? || a.DoDisconnect?)
    ensures Selections(Apply(db, a))
  {
    if a.DoLeaveParty? {
      if ActiveEntry(db, a.e) && !db.entries[a.e].transferStarted {
        CancelTicketKeepsSelections(db, a.e);
      }
    } else if a.found.Some? && ActiveEntry(db, a.found.value) && a.p in db.entries[a.found.value].players &&
              !db.entries[a.found.value].transferStarted {
      CancelTicketKeepsSelections(db, a.found.value);
    } else {
      QuietAction(db, a);
      EntriesStaySelected(db, Apply(db, a));
    }
  }

  // ----- One action

  /** A step keeps the invariant exactly when it brings nobody back, or everybody safely. */
  lemma ActionKeeps(db: Db, a: Action)
    requires Inv(db)
    ensures Inv(Apply(db, a)) <==> SafeReturn(db, a)
    ensures Faithful(db, Apply(db, a))
  {
    ActionKeepsPolicies(db, a);
    ActionKeepsRows(db, a);
    ActionKeepsReservations(db, a);
    ActionKeepsPlaces(db, a);
    ActionKeepsLimits(db, a);
    ActionKeepsTeams(db, a);
    ActionKeepsSelections(db, a);
    ActionIsFaithful(db, a);
  }

  lemma UsableAction(db: Db, a: Action)
    requires Usable(db)
    ensures Usable(Apply(db, a))
  {
    ActionKeepsRows(db, a);
    ActionKeepsReservations(db, a);
  }

  /** Only heartbeats bring anybody back; no other step ends one place per player. */
  lemma SoundAction(db: Db, a: Action)
    requires Sound(db) && !a.DoHeartbeat?
    ensures Sound(Apply(db, a))
  {
    UsableAction(db, a);
    ActionKeepsPlaces(db, a);
  }

  lemma ActionKeepsPolicies(db: Db, a: Action)
    ensures Apply(db, a).policies == db.policies
  {
    if !AddsOrReopens(a) {
      QuietAction(db, a);
    }
  }

  // ----- Runs

  lemma AlongFront(db: Db, actions: seq<Action>, cond: (Db, Action) -> bool)
    requires Along(db, actions, cond) && actions != []
    ensures Along(db, actions[..|actions| - 1], cond)
    ensures cond(Run(db, actions[..|actions| - 1]), actions[|actions| - 1])
  {
    var n := |actions| - 1;
    assert At(db, actions, cond, n);
    forall k: nat | k < n ensures At(db, actions[..n], cond, k) {
      assert At(db, actions, cond, k);
      assert actions[..n][..k] == actions[..k];
    }
  }

  lemma {:induction false} RunSplit(db: Db, first: seq<Action>, later: seq<Action>)
    ensures Run(db, first + later) == Run(Run(db, first), later)
    decreases |later|
  {
    if later == [] {
      assert first + later == first;
    } else {
      var n := |later| - 1;
      assert (first + later)[..|first + later| - 1] == first + later[..n];
      RunSplit(db, first, later[..n]);
    }
  }

  lemma AlongSplit(db: Db, first: seq<Action>, later: seq<Action>, cond: (Db, Action) -> bool)
    requires Along(db, first + later, cond)
    ensures Along(db, first, cond) && Along(Run(db, first), later, cond)
  {
    var all := first + later;
    forall k: nat | k < |first| ensures At(db, first, cond, k) {
      assert At(db, all, cond, k);
      assert first[..k] == all[..k];
    }
    forall k: nat | k < |later| ensures At(Run(db, first), later, cond, k) {
      assert At(db, all, cond, |first| + k);
      RunSplit(db, first, later[..k]);
      assert first + later[..k] == all[..|first| + k];
    }
  }

  lemma AtEarlier(db: Db, first: seq<Action>, later: seq<Action>, cond: (Db, Action) -> bool, k: nat)
    requires Along(db, first, cond) && k < |first|
    ensures At(db, first + later, cond, k)
  {
    assert At(db, first, cond, k);
    assert (first + later)[..k] == first[..k] && (first + later)[k] == first[k];
  }

  lemma AtLater(db: Db, first: seq<Action>, later: seq<Action>, cond: (Db, Action) -> bool, k: nat)
    requires Along(Run(db, first), later, cond) && |first| <= k < |first + later|
    ensures At(db, first + later, cond, k)
  {
    var j := k - |first|;
    assert At(Run(db, first), later, cond, j);
    RunSplit(db, first, later[..j]);
    assert (first + later)[..k] == first + later[..j] && (first + later)[k] == later[j];
  }

  lemma AlongConcat(db: Db, first: seq<Action>, later: seq<Action>, cond: (Db, Action) -> bool)
    requires Along(db, first, cond) && Along(Run(db, first), later, cond)
    ensures Along(db, first + later, cond)
  {
    forall k: nat | k < |first + later| ensures At(db, first + later, cond, k) {
      if k < |first| {
        AtEarlier(db, first, later, cond, k);
      } else {
        AtLater(db, first, later, cond, k);
      }
    }
  }

  lemma {:induction false} RunKeepsPolicies(db: Db, actions: seq<Action>)
    ensures Run(db, actions).policies == db.policies
  {
    if actions != [] {
      var n := |actions| - 1;
      RunKeepsPolicies(db, actions[..n]);
      ActionKeepsPolicies(Run(db, actions[..n]), actions[n]);
    }
  }

  lemma {:induction false} RunKeepsRows(db: Db, actions: seq<Action>)
    requires RowsOk(db)
    ensures RowsOk(Run(db, actions))
  {
    if actions != [] {
      var n := |actions| - 1;
      RunKeepsRows(db, actions[..n]);
      ActionKeepsRows(Run(db, actions[..n]), actions[n]);
    }
  }

  lemma {:induction false} RunKeepsPlaces(db: Db, actions: seq<Action>)
    requires OnePlace(db) && Along(db, actions, NoneBusy)
    ensures OnePlace(Run(db, actions)) && Along(db, actions, LeavesOneSession)
  {
    if actions != [] {
      var n := |actions| - 1;
      AlongFront(db, actions, NoneBusy);
      RunKeepsPlaces(db, actions[..n]);
      ActionKeepsPlaces(Run(db, actions[..n]), actions[n]);
      forall k: nat | k < |actions| ensures At(db, actions, LeavesOneSession, k) {
        if k < n {
          assert At(db, actions[..n], LeavesOneSession, k);
          assert actions[..n][..k] == actions[..k];
        }
      }
    }
  }

  lemma {:induction false} RunIsFaithful(db: Db, actions: seq<Action>)
    requires Along(db, actions, LeavesOneSession)
    ensures Faithful(db, Run(db, actions))
  {
    if actions != [] {
      var n := |actions| - 1;
      AlongFront(db, actions, LeavesOneSession);
      RunIsFaithful(db, actions[..n]);
      ActionIsFaithful(Run(db, actions[..n]), actions[n]);
      FaithfulTransitive(db, Run(db, actions[..n]), Run(db, actions));
    }
  }

  lemma {:induction false} RunKeepsLimits(db: Db, actions: seq<Action>)
    requires RowsOk(db) && Limits(db) && Along(db, actions, PlacesFree)
    requires forall g | g in db.policies :: TeamFits(db.policies[g])
    ensures Limits(Run(db, actions))
  {
    if actions != [] {
      var n := |actions| - 1;
      AlongFront(db, actions, PlacesFree);
      RunKeepsLimits(db, actions[..n]);
      RunKeepsRows(db, actions[..n]);
      RunKeepsPolicies(db, actions[..n]);
      ActionKeepsLimits(Run(db, actions[..n]), actions[n]);
    }
  }

  lemma {:induction false} RunKeepsTeams(db: Db, actions: seq<Action>)
    requires RowsOk(db) && Teams(db) && Along(db, actions, TeamsFree)
    requires forall g | g in db.policies :: TeamsExist(db.policies[g])
    ensures Teams(Run(db, actions))
  {
    if actions != [] {
      var n := |actions| - 1;
      AlongFront(db, actions, TeamsFree);
      RunKeepsTeams(db, actions[..n]);
      RunKeepsRows(db, actions[..n]);
      RunKeepsPolicies(db, actions[..n]);
      ActionKeepsTeams(Run(db, actions[..n]), actions[n]);
    }
  }

  lemma {:induction false} SafeRunKeeps(db: Db, actions: seq<Action>)
    requires Inv(db) && Along(db, actions, SafeReturn)
    ensures Inv(Run(db, actions)) && Faithful(db, Run(db, actions))
  {
    if actions != [] {
      var n := |actions| - 1;
      AlongFront(db, actions, SafeReturn);
      SafeRunKeeps(db, actions[..n]);
      ActionKeeps(Run(db, actions[..n]), actions[n]);
      FaithfulTransitive(db, Run(db, actions[..n]), Run(db, actions));
    }
  }

  /** A run stays within the invariant from end to end exactly when every return in it is safe. */
  lemma RunKeeps(db: Db, actions: seq<Action>)
    requires Inv(db)
    ensures (forall k | 0 <= k <= |actions| :: Inv(Run(db, actions[..k]))) <==> Along(db, actions, SafeReturn)
  {
    if forall k | 0 <= k <= |actions| :: Inv(Run(db, actions[..k])) {
      forall k: nat | k < |actions| ensures At(db, actions, SafeReturn, k) {
        assert Inv(Run(db, actions[..k]));
        assert Inv(Run(db, actions[..k + 1]));
        assert actions[..k + 1][..k] == actions[..k];
        ActionKeeps(Run(db, actions[..k]), actions[k]);
      }
    }
    if Along(db, actions, SafeReturn) {
      forall k | 0 <= k <= |actions| ensures Inv(Run(db, actions[..k])) {
        assert actions == actions[..k] + actions[k..];
        AlongSplit(db, actions[..k], actions[k..], SafeReturn);
        SafeRunKeeps(db, actions[..k]);
      }
    }
  }

  ghost predicate Empty(db: Db) {
    db.entries == map[] && db.sessions == map[] && db.instances == map[]
  }

  lemma EmptyIsGood(db: Db)
    requires Empty(db)
    ensures RowsOk(db) && Reservations(db) && OnePlace(db) && Limits(db) && Teams(db) && Selections(db)
    ensures GoodPolicies(db) ==> Inv(db)
  {
  }

  /**
   Where a full team fits into a session, every open session respects its player
   limit, and its tickets listed in any order add up to its players, as long as
   no more players come back than there are places.
   */
  lemma OpenSessionsRespectTheLimit(start: Db, actions: seq<Action>, s: SessionId, ids: seq<EntryId>)
    requires Empty(start) && Along(start, actions, PlacesFree)
    requires forall g | g in start.policies :: TeamFits(start.policies[g])
    requires s in Run(start, actions).sessions && !Terminal(Run(start, actions).sessions[s].state)
    requires TicketList(Run(start, actions).sessions[s].members, ids)
    ensures
      var db := Run(start, actions);
      var session := db.sessions[s];
      && session.group in db.policies
      && Sum(SizesOf(session.members, ids)) == |Active(session.members)|
      && |Active(session.members)| <= db.policies[session.group].maximumPlayers
  {
    EmptyIsGood(start);
    RunKeepsRows(start, actions);
    RunKeepsLimits(start, actions);
    var db := Run(start, actions);
    assert RowOk(db, s) && LimitOk(db, s);
    SizesCountPlayers(db.sessions[s].members, ids);
  }

  /**
   Every open session has a team for each whole ticket, in whatever order the
   tickets are listed, as long as the tickets of those who come back still fit.
   */
  lemma OpenSessionsAreFeasible(start: Db, actions: seq<Action>, s: SessionId, ids: seq<EntryId>)
    requires Empty(start) && Along(start, actions, TeamsFree)
    requires forall g | g in start.policies :: TeamsExist(start.policies[g])
    requires s in Run(start, actions).sessions && !Terminal(Run(start, actions).sessions[s].state)
    requires TicketList(Run(start, actions).sessions[s].members, ids)
    ensures
      var db := Run(start, actions);
      var session := db.sessions[s];
      && session.group in db.policies && db.policies[session.group].teamCount >= 1
      && Assignable(SizesOf(session.members, ids), db.policies[session.group].teamCount, db.policies[session.group].teamSize)
  {
    EmptyIsGood(start);
    RunKeepsPolicies(start, actions);
    RunKeepsRows(start, actions);
    RunKeepsTeams(start, actions);
    var db := Run(start, actions);
    assert RowOk(db, s) && TeamsOk(db, s);
    var policy := db.policies[db.sessions[s].group];
    PlanIffAssignable(db.sessions[s].members, ids, policy.teamCount, policy.teamSize);
  }

  /** Under any policies nobody is ever in two places exactly as long as nobody comes back who is busy. */
  lemma OnePlacePerPlayer(start: Db, actions: seq<Action>)
    requires Empty(start)
    ensures (forall k | 0 <= k <= |actions| :: OnePlace(Run(start, actions[..k]))) <==> Along(start, actions, NoneBusy)
  {
    EmptyIsGood(start);
    if forall k | 0 <= k <= |actions| :: OnePlace(Run(start, actions[..k])) {
      forall k: nat | k < |actions| ensures At(start, actions, NoneBusy, k) {
        assert OnePlace(Run(start, actions[..k]));
        assert OnePlace(Run(start, actions[..k + 1]));
        assert actions[..k + 1][..k] == actions[..k];
        ActionKeepsPlaces(Run(start, actions[..k]), actions[k]);
      }
    }
    if Along(start, actions, NoneBusy) {
      forall k | 0 <= k <= |actions| ensures OnePlace(Run(start, actions[..k])) {
        assert actions == actions[..k] + actions[k..];
        AlongSplit(start, actions[..k], actions[k..], NoneBusy);
        RunKeepsPlaces(start, actions[..k]);
      }
    }
  }

  /** A party waits in the queue of a group once. */
  ghost predicate QueuedOnce(db: Db) {
    forall e, f | e in db.entries && f in db.entries && db.entries[e].state == db.entries[f].state == EntryQueued ::
      db.entries[e].group == db.entries[f].group && db.entries[e].party == db.entries[f].party ==> e == f
  }

  /** No entry joins the queue, or changes its group or party. */
  ghost predicate QueuesNobody(before: Db, after: Db) {
    forall e | e in after.entries && after.entries[e].state == EntryQueued ::
      e in before.entries && before.entries[e].state == EntryQueued &&
      after.entries[e].group == before.entries[e].group && after.entries[e].party == before.entries[e].party
  }

  lemma PluginQueuesNobody(db: Db, a: Action)
    requires PluginEvent(a)
    ensures Apply(db, a).entries == db.entries
  {
  }

  /** Nothing but queueing makes a queued entry. */
  lemma OnlyEnqueueQueues(db: Db, a: Action)
    requires !a.DoEnqueue?
    ensures QueuesNobody(db, Apply(db, a))
  {
    if PluginEvent(a) {
      PluginQueuesNobody(db, a);
    } else if a.DoLeaveParty? || a.DoDisconnect? {
      LeavingQueuesNobody(db, a);
    }
  }

  lemma LeavingQueuesNobody(db: Db, a: Action)
    requires a.DoLeaveParty? || a.DoDisconnect?
    ensures QueuesNobody(db, Apply(db, a))
  {
  }

  /** In every reachable state a party is queued once per group. */
  lemma {:induction false} PartiesAreQueuedOnce(start: Db, actions: seq<Action>)
    requires start.entries == map[]
    ensures QueuedOnce(Run(start, actions))
  {
    if actions != [] {
      var n := |actions| - 1;
      var before, a := Run(start, actions[..n]), actions[n];
      PartiesAreQueuedOnce(start, actions[..n]);
      if !a.DoEnqueue? {
        OnlyEnqueueQueues(before, a);
      }
    }
  }

  /**
   The assignment revision is a version number: between any two states of a run,
   the same revision means the same expected and connected players, as long as no
   disconnect takes a player out of two sessions at once.
   */
  lemma RevisionIsAVersion(start: Db, earlier: seq<Action>, later: seq<Action>, s: SessionId)
    requires Along(start, earlier + later, LeavesOneSession)
    requires s in Run(start, earlier).sessions
    ensures s in Run(start, earlier + later).sessions
    ensures
      var a, b := Run(start, earlier).sessions[s], Run(start, earlier + later).sessions[s];
      && a.revision <= b.revision
      && (a.revision == b.revision ==>
            Active(a.members) == Active(b.members) && ConnectedPlayers(a.members) == ConnectedPlayers(b.members))
  {
    AlongSplit(start, earlier, later, LeavesOneSession);
    RunSplit(start, earlier, later);
    var mid := Run(start, earlier);
    RunIsFaithful(mid, later);
    assert FaithfulRow(mid.sessions[s], Run(mid, later).sessions[s]);
  }

  /** No disconnect does, as long as nobody comes back who is busy. */
  lemma FreeReturnsKeepTheRevision(start: Db, actions: seq<Action>)
    requires Empty(start) && Along(start, actions, NoneBusy)
    ensures Along(start, actions, LeavesOneSession)
  {
    EmptyIsGood(start);
    RunKeepsPlaces(start, actions);
  }

  /** In every run an acknowledgement refers to the current revision. */
  lemma AcknowledgementsAreCurrent(start: Db, actions: seq<Action>, s: SessionId)
    requires Empty(start) && s in Run(start, actions).sessions
    requires Run(start, actions).sessions[s].acknowledged.Some?
    ensures Run(start, actions).sessions[s].acknowledged.value == Run(start, actions).sessions[s].revision
  {
    EmptyIsGood(start);
    RunKeepsRows(start, actions);
    assert RowOk(Run(start, actions), s);
  }
}
