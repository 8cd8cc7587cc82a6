/**
 Runs from empty tables that end where a guarantee of matchmaking ends: an
 overfull session, a session without a team for every ticket, and a revision that
 stands for two different sets of players.
 */
module MatchmakingRuns {
  import opened Basics
  import opened Assignments
  import opened ProfileRanking
  import opened Lifecycles
  import opened Tables
  import opened Protocol
  import opened MatchmakingSteps
  import opened ReservationSafety
  import opened MatchmakingSafety
  import opened MatchmakingLimits
  import Matchmaker

  ghost predicate Reaches(start: Db, db: Db) {
    exists actions :: Run(start, actions) == db
  }

  lemma ReachesItself(db: Db)
    ensures Reaches(db, db)
  {
    assert Run(db, []) == db;
  }

  lemma ReachesNext(start: Db, db: Db, a: Action)
    requires Reaches(start, db)
    ensures Reaches(start, Apply(db, a))
  {
    var actions :| Run(start, actions) == db;
    assert (actions + [a])[..|actions|] == actions;
    assert Run(start, actions + [a]) == Apply(db, a);
  }

  lemma ReachesExpired(start: Db, db: Db, due: set<(SessionId, PlayerId)>)
    requires Reaches(start, db)
    ensures Reaches(start, ExpireTransfers(db, due))
  {
    ReachesNext(start, db, DoExpireTransfers(due));
  }

  lemma ReachesReported(start: Db, db: Db, i: InstanceId, players: set<PlayerId>)
    requires Reaches(start, db)
    ensures Reaches(start, Heartbeat(db, i, players))
  {
    ReachesNext(start, db, DoHeartbeat(i, players));
  }

  /** The transfer of one player of the only travelling session expires. */
  lemma OneExpires(db: Db, s: SessionId, p: PlayerId)
    requires s in db.sessions && db.sessions[s].state == InTransfer
    requires p in db.sessions[s].members && db.sessions[s].members[p].state == Transferring
    requires db.sessions.Keys == {s}
    ensures ExpireTransfers(db, {(s, p)}) ==
            PutSession(db, s, Bump(db.sessions[s].(members := MarkLeft(db.sessions[s].members, {p}))))
  {
    var due, session := {(s, p)}, db.sessions[s];
    var who := set q | q in InState(session.members, {Transferring}) && (s, q) in due;
    assert who == {p};
    var after, row := ExpireTransfers(db, due), Bump(session.(members := MarkLeft(session.members, {p})));
    assert after.sessions[s] == BumpIf(session.(members := MarkLeft(session.members, who)), who != {});
    forall t | t in after.sessions ensures after.sessions[t] == db.sessions[s := row][t] {
      assert t in db.sessions.Keys;
    }
    SameMap(after.sessions, db.sessions[s := row]);
  }

  /** The players that are reported, all of them new, are connected. */
  lemma TheseConnect(db: Db, i: InstanceId, s: SessionId, players: set<PlayerId>)
    requires EventSession(db, i) && db.instances[i].session == Some(s) && db.sessions[s].state == InTransfer
    requires Arriving(db.sessions[s], players) == players != {}
    ensures Heartbeat(db, i, players) ==
            PutSession(db, s, Bump(db.sessions[s].(members := MarkConnected(db.sessions[s].members, players))))
  {
  }

  // ----- A ticket gets a session and an instance of its own

  function Travelling(e: EntryId, party: PartyId, players: set<PlayerId>): Members {
    map p | p in players :: Member(party, e, Transferring)
  }

  function Started(e: EntryId, s: SessionId, group: GroupId, party: PartyId, players: set<PlayerId>): Entry {
    Entry(group, party, players, EntrySelected, Some(s), true)
  }

  function Launched(
      db: Db, e: EntryId, s: SessionId, i: InstanceId, group: GroupId, party: PartyId, players: set<PlayerId>): Db {
    db.(entries := db.entries[e := Started(e, s, group, party, players)],
        sessions := db.sessions[s := Session(group, InTransfer, 0, Some(i), 2, None, Travelling(e, party, players))],
        instances := db.instances[i := Instance(group, Running, true, Some(s), false)])
  }

  /** The ticket is queued, and seated in a session that was opened for it. */
  function Seated(db: Db, e: EntryId, s: SessionId, group: GroupId, party: PartyId, players: set<PlayerId>): Db {
    db.(entries := db.entries[e := Entry(group, party, players, EntrySelected, Some(s), false)],
        sessions := db.sessions[s := Session(group, Forming, 0, None, 2, None,
                                             map p | p in players :: Member(party, e, Selected))])
  }

  lemma SeatingReaches(
      start: Db, db: Db, e: EntryId, s: SessionId, group: GroupId, party: PartyId, players: set<PlayerId>)
    requires Reaches(start, db) && CanEnqueue(db, e, group, party, players) && s !in db.sessions
    ensures Reaches(start, Seated(db, e, s, group, party, players))
  {
    var queued := PutEntry(db, e, Entry(group, party, players, EntryQueued, None, false));
    var formed := PutSession(queued, s, Session(group, Forming, 0, None, 1, None, map[]));
    ReachesNext(start, db, DoEnqueue(e, group, party, players));
    ReachesNext(start, queued, DoOpenSession(s, group, 0));
    ReachesNext(start, formed, DoAttach(e, s, true));
    FirstTicketSits(queued, formed, e, s, group, party, players);
    assert Seated(db, e, s, group, party, players).entries == Seated(queued, e, s, group, party, players).entries;
    assert Seated(db, e, s, group, party, players) == Seated(queued, e, s, group, party, players);
  }

  lemma FirstTicketSits(
      queued: Db, formed: Db, e: EntryId, s: SessionId, group: GroupId, party: PartyId, players: set<PlayerId>)
    requires e in queued.entries && queued.entries[e] == Entry(group, party, players, EntryQueued, None, false)
    requires group in queued.policies
    requires formed == PutSession(queued, s, Session(group, Forming, 0, None, 1, None, map[]))
    ensures Attach(formed, e, s, true) == Seated(queued, e, s, group, party, players)
  {
    assert Active(map[]) == {};
    assert CanAttach(formed, e, s, true);
    var after := Attach(formed, e, s, true);
    assert Join(map[], e, formed.entries[e]) == map p | p in players :: Member(party, e, Selected);
    assert after.sessions == Seated(queued, e, s, group, party, players).sessions;
  }

  /** An instance is created, gets ready, and is reserved for the session. */
  lemma LaunchReaches(
      start: Db, db: Db, e: EntryId, s: SessionId, i: InstanceId, group: GroupId, party: PartyId, players: set<PlayerId>)
    requires Reaches(start, db) && CanEnqueue(db, e, group, party, players) && s !in db.sessions && i !in db.instances
    requires forall f | f in db.entries :: db.entries[f].session != Some(s)
    ensures Reaches(start, Launched(db, e, s, i, group, party, players))
  {
    SeatingReaches(start, db, e, s, group, party, players);
    var seated := Seated(db, e, s, group, party, players);
    InstanceReaches(start, seated, i, group);
    var running := PutInstance(seated, i, Instance(group, Running, false, None, false));
    ReservedIsLaunched(db, running, e, s, i, group, party, players);
    ReachesReserved(start, running, s, i);
  }

  lemma ReachesReserved(start: Db, db: Db, s: SessionId, i: InstanceId)
    requires Reaches(start, db)
    ensures Reaches(start, Reserve(db, s, i))
  {
    ReachesNext(start, db, DoReserve(s, i));
  }

  lemma InstanceReaches(start: Db, db: Db, i: InstanceId, group: GroupId)
    requires Reaches(start, db) && i !in db.instances
    ensures Reaches(start, PutInstance(db, i, Instance(group, Running, false, None, false)))
  {
    var created := AddInstance(db, i, group);
    ReachesNext(start, db, DoAddInstance(i, group));
    ReachesNext(start, created, DoMoveInstance(i, Starting));
    ReachesNext(start, MoveInstance(created, i, Starting), DoMoveInstance(i, Running));
    InstanceRuns(db, i, group);
  }

  lemma InstanceRuns(db: Db, i: InstanceId, group: GroupId)
    requires i !in db.instances
    ensures MoveInstance(MoveInstance(AddInstance(db, i, group), i, Starting), i, Running) ==
            PutInstance(db, i, Instance(group, Running, false, None, false))
  {
    var after := MoveInstance(MoveInstance(AddInstance(db, i, group), i, Starting), i, Running);
    assert after.instances == db.instances[i := Instance(group, Running, false, None, false)];
  }

  lemma ReservedIsLaunched(
      db: Db, running: Db, e: EntryId, s: SessionId, i: InstanceId, group: GroupId, party: PartyId, players: set<PlayerId>)
    requires e !in db.entries && s !in db.sessions && i !in db.instances
    requires forall f | f in db.entries :: db.entries[f].session != Some(s)
    requires running.policies == db.policies
    requires running.entries == Seated(db, e, s, group, party, players).entries
    requires running.sessions == Seated(db, e, s, group, party, players).sessions
    requires running.instances == db.instances[i := Instance(group, Running, false, None, false)]
    ensures Reserve(running, s, i) == Launched(db, e, s, i, group, party, players)
  {
    assert CanReserve(running, s, i);
    var after := Reserve(running, s, i);
    var expected := Launched(db, e, s, i, group, party, players);
    forall f | f in after.entries ensures after.entries[f] == expected.entries[f] {
    }
    SameMap(after.entries, expected.entries);
    assert after.sessions[s].members == Travelling(e, party, players);
    assert after.sessions == expected.sessions;
    assert after.instances == expected.instances;
  }

  // ----- A later ticket joins a session that has an instance

  function Joined(db: Db, e: EntryId, s: SessionId, party: PartyId, players: set<PlayerId>): Db
    requires s in db.sessions
  {
    var session := db.sessions[s];
    db.(entries := db.entries[e := Started(e, s, session.group, party, players)],
        sessions := db.sessions[s := Bump(session.(members := session.members + Travelling(e, party, players)))])
  }

  lemma JoinReaches(start: Db, db: Db, e: EntryId, s: SessionId, party: PartyId, players: set<PlayerId>)
    requires Reaches(start, db) && s in db.sessions && db.sessions[s].state == InTransfer && db.sessions[s].instance.Some?
    requires CanEnqueue(db, e, db.sessions[s].group, party, players)
    requires RoomFor(db.sessions[s].members, |players|, db.policies[db.sessions[s].group])
    requires forall p | p in db.sessions[s].members :: db.sessions[s].members[p].state != Selected
    ensures Reaches(start, Joined(db, e, s, party, players))
  {
    var session := db.sessions[s];
    var queued := PutEntry(db, e, Entry(session.group, party, players, EntryQueued, None, false));
    ReachesNext(start, db, DoEnqueue(e, session.group, party, players));
    forall p | p in players ensures p !in Active(session.members) {
      assert !Busy(db, p);
      assert !PlaysIn(db, s, p);
    }
    assert CanAttach(queued, e, s, false);
    TravelReaches(start, queued, e, s);
    LaterTicketTravels(db, queued, e, s, party, players);
  }

  lemma TravelReaches(start: Db, queued: Db, e: EntryId, s: SessionId)
    requires Reaches(start, queued)
    ensures Reaches(start, BeginTicketTransfer(Attach(queued, e, s, false), e, s))
  {
    ReachesNext(start, queued, DoAttach(e, s, false));
    ReachesNext(start, Attach(queued, e, s, false), DoBeginTicketTransfer(e, s));
  }

  lemma LaterTicketTravels(db: Db, queued: Db, e: EntryId, s: SessionId, party: PartyId, players: set<PlayerId>)
    requires s in db.sessions && db.sessions[s].instance.Some? && e !in db.entries
    requires queued == PutEntry(db, e, Entry(db.sessions[s].group, party, players, EntryQueued, None, false))
    requires CanAttach(queued, e, s, false)
    requires forall p | p in db.sessions[s].members :: db.sessions[s].members[p].state != Selected
    ensures BeginTicketTransfer(Attach(queued, e, s, false), e, s) == Joined(db, e, s, party, players)
  {
    var after := BeginTicketTransfer(Attach(queued, e, s, false), e, s);
    var expected := Joined(db, e, s, party, players);
    var members, later := after.sessions[s].members, expected.sessions[s].members;
    forall p | p in members ensures members[p] == later[p] {
    }
    SameMap(members, later);
    assert after.sessions == expected.sessions;
    assert after.entries == expected.entries;
  }

  /** A ticket for which there is a plan has room. */
  lemma RoomFromPlan(members: Members, e: EntryId, entry: Entry, policy: Policy)
    requires TeamsExist(policy) && entry.players != {} && entry.players !! Active(members)
    requires forall p | p in members && members[p].state != Left :: members[p].entry != e
    requires |Active(members)| + |entry.players| <= policy.maximumPlayers
    requires HasPlan(Join(members, e, entry), policy.teamCount, policy.teamSize)
    ensures RoomFor(members, |entry.players|, policy)
  {
    var joined := Join(members, e, entry);
    var ids := TicketsCanBeListed(members);
    JoinedTicketList(members, e, entry, ids);
    SizesCountPlayers(joined, ids + [e]);
    JoinMeans(members, e, entry);
    DisjointUnionSize(Active(members), entry.players);
    PlanIffAssignable(joined, ids + [e], policy.teamCount, policy.teamSize);
    TicketsFitTeams(joined, ids + [e], policy);
    assert FitsTicket(SizesOf(members, ids), |entry.players|, policy.teamCount, policy.teamSize, policy.maximumPlayers);
  }

  lemma TicketsFitTeams(members: Members, ids: seq<EntryId>, policy: Policy)
    requires TeamsExist(policy) && TicketList(members, ids) && HasPlan(members, policy.teamCount, policy.teamSize)
    ensures ValidTickets(SizesOf(members, ids), policy.teamCount, policy.teamSize)
  {
    var plan :| PlanFits(members, plan, policy.teamCount, policy.teamSize);
    forall k | 0 <= k < |ids| ensures 1 <= |Ticket(members, ids[k])| <= policy.teamSize {
      var ticket := Ticket(members, ids[k]);
      assert ids[k] in ids && ticket != {};
      var p := Witness(ticket);
      assert p in Active(members);
      forall q | q in ticket ensures q in Team(members, plan, plan[ids[k]]) {
        assert q in Active(members);
      }
      SubsetSize(ticket, Team(members, plan, plan[ids[k]]));
    }
  }

  // ----- The overfull session

  lemma ReplacementHasRoom()
    ensures RoomFor(map[1 := Member(1, 1, Left)], 1, SOLO)
  {
    var members := map[1 := Member(1, 1, Left)];
    var entry := Entry(GROUP, 2, {2}, EntryQueued, None, false);
    assert Active(members) == {};
    var joined := Join(members, 2, entry);
    var plan: map<EntryId, nat> := map[2 := 0];
    assert Active(joined) == {2};
    assert Team(joined, plan, 0) == {2};
    assert PlanFits(joined, plan, 1, 1);
    RoomFromPlan(members, 2, entry, SOLO);
  }

  /** The first player of a group did not arrive in time. */
  ghost function TimedOut(policy: Policy): Db {
    Db(map[GROUP := policy], map[1 := Started(1, 0, GROUP, 1, {1})],
       map[0 := Session(GROUP, InTransfer, 0, Some(0), 3, None, map[1 := Member(1, 1, Left)])],
       map[0 := Instance(GROUP, Running, true, Some(0), false)])
  }

  lemma TimedOutIsReached(policy: Policy)
    requires policy.teamSize >= 1
    ensures Reaches(Fresh(policy), TimedOut(policy))
  {
    var start := Fresh(policy);
    ReachesItself(start);
    assert CanEnqueue(start, 1, GROUP, 1, {1});
    LaunchReaches(start, start, 1, 0, 0, GROUP, 1, {1});
    var launched := Launched(start, 1, 0, 0, GROUP, 1, {1});
    ReachesExpired(start, launched, {(0, 1)});
    OneExpires(launched, 0, 1);
    assert MarkLeft(launched.sessions[0].members, {1}) == map[1 := Member(1, 1, Left)];
  }

  /** A player times out, another one takes the place: the state that a heartbeat overfills. */
  lemma ReplacedPlayerIsReached() returns (actions: seq<Action>)
    ensures Run(Fresh(SOLO), actions) == ReplacedPlayer()
  {
    TimedOutIsReached(SOLO);
    var db := TimedOut(SOLO);
    assert CanEnqueue(db, 2, GROUP, 2, {2});
    ReplacementHasRoom();
    JoinReaches(Fresh(SOLO), db, 2, 0, 2, {2});
    ReplacementJoins();
    actions :| Run(Fresh(SOLO), actions) == ReplacedPlayer();
  }

  lemma ReplacementJoins()
    ensures Joined(TimedOut(SOLO), 2, 0, 2, {2}) == ReplacedPlayer()
  {
    var after := Joined(TimedOut(SOLO), 2, 0, 2, {2});
    assert after.sessions[0].members == ReplacedPlayer().sessions[0].members;
    assert after.sessions == ReplacedPlayer().sessions;
    assert after.entries == ReplacedPlayer().entries;
  }

  // ----- The session without a team for every ticket

  ghost function Trios(entries: map<EntryId, Entry>, revision: nat, members: Members): Db {
    Db(map[GROUP := TRIOS], entries, map[0 := Session(GROUP, InTransfer, 0, Some(0), revision, None, members)],
       map[0 := Instance(GROUP, Running, true, Some(0), false)])
  }

  function Two(e: EntryId, first: MemberState, second: MemberState): Members {
    map[e := Member(e, e, first), e + 1 := Member(e, e, second)]
  }

  lemma OnePairIsReached()
    ensures Reaches(Fresh(TRIOS), Trios(map[1 := Pair(1, 1)], 2, Two(1, Transferring, Transferring)))
  {
    var start := Fresh(TRIOS);
    ReachesItself(start);
    assert |{1, 2}| == 2;
    assert CanEnqueue(start, 1, GROUP, 1, {1, 2});
    LaunchReaches(start, start, 1, 0, 0, GROUP, 1, {1, 2});
    var launched := Launched(start, 1, 0, 0, GROUP, 1, {1, 2});
    assert Travelling(1, 1, {1, 2}) == Two(1, Transferring, Transferring);
    assert launched == Trios(map[1 := Pair(1, 1)], 2, Two(1, Transferring, Transferring));
  }

  /** A pair that can be queued and has room joins the session. */
  lemma PairJoins(entries: map<EntryId, Entry>, revision: nat, members: Members, e: EntryId)
    requires Reaches(Fresh(TRIOS), Trios(entries, revision, members))
    requires e !in entries && (forall f | f in entries :: entries[f].state == EntrySelected)
    requires e !in members && e + 1 !in members && RoomFor(members, 2, TRIOS)
    requires forall p | p in members :: members[p].state != Selected
    ensures Reaches(Fresh(TRIOS),
                    Trios(entries[e := Pair(e, e)], revision + 1, members + Two(e, Transferring, Transferring)))
  {
    var db := Trios(entries, revision, members);
    assert |{e, e + 1}| == 2;
    forall p | p in {e, e + 1} ensures !Busy(db, p) {
    }
    assert CanEnqueue(db, e, GROUP, e, {e, e + 1});
    JoinReaches(Fresh(TRIOS), db, e, 0, e, {e, e + 1});
    PairJoined(entries, revision, members, e);
  }

  lemma PairJoined(entries: map<EntryId, Entry>, revision: nat, members: Members, e: EntryId)
    ensures Joined(Trios(entries, revision, members), e, 0, e, {e, e + 1}) ==
            Trios(entries[e := Pair(e, e)], revision + 1, members + Two(e, Transferring, Transferring))
  {
    var after := Joined(Trios(entries, revision, members), e, 0, e, {e, e + 1});
    var expected := Trios(entries[e := Pair(e, e)], revision + 1, members + Two(e, Transferring, Transferring));
    assert Travelling(e, e, {e, e + 1}) == Two(e, Transferring, Transferring);
    assert after.sessions == expected.sessions;
  }

  lemma SecondPairHasRoom()
    ensures RoomFor(Two(1, Transferring, Transferring), 2, TRIOS)
  {
    var members := Two(1, Transferring, Transferring);
    var entry := Entry(GROUP, 3, {3, 4}, EntryQueued, None, false);
    assert |{3, 4}| == 2 && Active(members) == {1, 2} && |{1, 2}| == 2;
    var joined := Join(members, 3, entry);
    var plan: map<EntryId, nat> := map[1 := 0, 3 := 1];
    assert Active(joined) == {1, 2, 3, 4};
    assert Team(joined, plan, 0) == {1, 2} && Team(joined, plan, 1) == {3, 4};
    assert PlanFits(joined, plan, 2, 3);
    RoomFromPlan(members, 3, entry, TRIOS);
  }

  function WithoutTwo(): Members {
    Two(1, Transferring, Left) + Two(3, Transferring, Transferring)
  }

  lemma ThirdPairHasRoom()
    ensures RoomFor(WithoutTwo(), 2, TRIOS)
  {
    var members := WithoutTwo();
    var entry := Entry(GROUP, 5, {5, 6}, EntryQueued, None, false);
    assert |{5, 6}| == 2 && Active(members) == {1, 3, 4} && |{1, 3, 4}| == 3;
    ThirdPairPlan(Join(members, 5, entry));
    RoomFromPlan(members, 5, entry, TRIOS);
  }

  lemma ThirdPairPlan(joined: Members)
    requires joined == Join(WithoutTwo(), 5, Entry(GROUP, 5, {5, 6}, EntryQueued, None, false))
    ensures HasPlan(joined, 2, 3)
  {
    var plan: map<EntryId, nat> := map[1 := 0, 3 := 0, 5 := 1];
    assert Active(joined) == {1, 3, 4, 5, 6};
    assert Team(joined, plan, 0) == {1, 3, 4} && Team(joined, plan, 1) == {5, 6};
    assert PlanFits(joined, plan, 2, 3);
  }

  lemma SecondPlayerExpires(entries: map<EntryId, Entry>)
    requires Reaches(Fresh(TRIOS), Trios(entries, 3, Two(1, Transferring, Transferring) + Two(3, Transferring, Transferring)))
    ensures Reaches(Fresh(TRIOS), Trios(entries, 4, WithoutTwo()))
  {
    var members := Two(1, Transferring, Transferring) + Two(3, Transferring, Transferring);
    var db := Trios(entries, 3, members);
    ReachesExpired(Fresh(TRIOS), db, {(0, 2)});
    TwoLeaves();
    OneExpires(db, 0, 2);
    TriosPut(entries, 3, members, WithoutTwo());
  }

  lemma TwoLeaves()
    ensures
      var members := Two(1, Transferring, Transferring) + Two(3, Transferring, Transferring);
      2 in members && members[2].state == Transferring && MarkLeft(members, {2}) == WithoutTwo()
  {
  }

  lemma TriosPut(entries: map<EntryId, Entry>, revision: nat, before: Members, after: Members)
    ensures var db := Trios(entries, revision, before);
            PutSession(db, 0, Bump(db.sessions[0].(members := after))) == Trios(entries, revision + 1, after)
  {
    var db := Trios(entries, revision, before);
    assert PutSession(db, 0, Bump(db.sessions[0].(members := after))).sessions ==
           Trios(entries, revision + 1, after).sessions;
  }

  lemma EverybodyElseConnects(entries: map<EntryId, Entry>)
    requires Reaches(Fresh(TRIOS), Trios(entries, 5, WithoutTwo() + Two(5, Transferring, Transferring)))
    ensures Reaches(Fresh(TRIOS), Trios(entries, 6, ThreePairs(Left)))
  {
    var db := Trios(entries, 5, WithoutTwo() + Two(5, Transferring, Transferring));
    ReachesReported(Fresh(TRIOS), db, 0, {1, 3, 4, 5, 6});
    OthersArrive(db.sessions[0]);
    TheseConnect(db, 0, 0, {1, 3, 4, 5, 6});
    TriosPut(entries, 5, WithoutTwo() + Two(5, Transferring, Transferring), ThreePairs(Left));
  }

  lemma OthersArrive(session: Session)
    requires session.members == WithoutTwo() + Two(5, Transferring, Transferring)
    ensures Arriving(session, {1, 3, 4, 5, 6}) == {1, 3, 4, 5, 6}
    ensures MarkConnected(session.members, {1, 3, 4, 5, 6}) == ThreePairs(Left)
  {
  }

  lemma PairTimesOut()
    ensures Reaches(Fresh(TRIOS), Trios(map[1 := Pair(1, 1)][3 := Pair(3, 3)], 4, WithoutTwo()))
  {
    OnePairIsReached();
    SecondPairHasRoom();
    PairJoins(map[1 := Pair(1, 1)], 2, Two(1, Transferring, Transferring), 3);
    SecondPlayerExpires(map[1 := Pair(1, 1)][3 := Pair(3, 3)]);
  }

  lemma ThirdPairTakesRoom(entries: map<EntryId, Entry>)
    requires entries == map[1 := Pair(1, 1)][3 := Pair(3, 3)]
    ensures Reaches(Fresh(TRIOS), Trios(entries[5 := Pair(5, 5)], 6, ThreePairs(Left)))
  {
    PairTimesOut();
    ThirdPairHasRoom();
    PairJoins(entries, 4, WithoutTwo(), 5);
    EverybodyElseConnects(entries[5 := Pair(5, 5)]);
  }

  /** Two pairs travel, player 2 times out, the third pair takes the room, and everybody else connects. */
  lemma SplitPairIsReached() returns (actions: seq<Action>)
    ensures Run(Fresh(TRIOS), actions) == SplitPair()
  {
    ThirdPairTakesRoom(map[1 := Pair(1, 1)][3 := Pair(3, 3)]);
    PairsSplit();
    actions :| Run(Fresh(TRIOS), actions) == SplitPair();
  }

  lemma PairsSplit()
    ensures Trios(map[1 := Pair(1, 1)][3 := Pair(3, 3)][5 := Pair(5, 5)], 6, ThreePairs(Left)) == SplitPair()
  {
  }

  // ----- The revision that stands for two sets of players

  const OTHER: GroupId := 1

  ghost function TwoModes(): Db {
    Db(map[GROUP := SOLO, OTHER := SOLO], map[], map[], map[])
  }

  function Alone(group: GroupId, i: InstanceId, revision: nat, e: EntryId, state: MemberState): Session {
    Session(group, InTransfer, 0, Some(i), revision, None, map[1 := Member(1, e, state)])
  }

  /** The player timed out in the first mode. */
  ghost function GivenUp(): Db {
    Db(TwoModes().policies, map[1 := Started(1, 0, GROUP, 1, {1})], map[0 := Alone(GROUP, 0, 3, 1, Left)],
       map[0 := Instance(GROUP, Running, true, Some(0), false)])
  }

  /** And travels in the other one, while the first instance reports a connection, or does not yet. */
  ghost function InTwoModes(revision: nat, state: MemberState): Db {
    Db(TwoModes().policies,
       map[1 := Started(1, 0, GROUP, 1, {1}), 2 := Started(2, 1, OTHER, 1, {1})],
       map[0 := Alone(GROUP, 0, revision, 1, state), 1 := Alone(OTHER, 1, 2, 2, Transferring)],
       map[0 := Instance(GROUP, Running, true, Some(0), false), 1 := Instance(OTHER, Running, true, Some(1), false)])
  }

  lemma GivenUpIsReached()
    ensures Reaches(TwoModes(), GivenUp())
  {
    var start := TwoModes();
    ReachesItself(start);
    assert CanEnqueue(start, 1, GROUP, 1, {1});
    LaunchReaches(start, start, 1, 0, 0, GROUP, 1, {1});
    var launched := Launched(start, 1, 0, 0, GROUP, 1, {1});
    ReachesExpired(start, launched, {(0, 1)});
    OneExpires(launched, 0, 1);
    assert MarkLeft(launched.sessions[0].members, {1}) == map[1 := Member(1, 1, Left)];
  }

  lemma InTwoModesIsReached()
    ensures Reaches(TwoModes(), InTwoModes(4, Connected))
  {
    GivenUpIsReached();
    var db := GivenUp();
    assert !Busy(db, 1);
    assert CanEnqueue(db, 2, OTHER, 1, {1});
    LaunchReaches(TwoModes(), db, 2, 1, 1, OTHER, 1, {1});
    LaunchedAgain();
    ReachesReported(TwoModes(), InTwoModes(3, Left), 0, {1});
    Returned();
  }

  lemma LaunchedAgain()
    ensures Launched(GivenUp(), 2, 1, 1, OTHER, 1, {1}) == InTwoModes(3, Left)
  {
    var launched := Launched(GivenUp(), 2, 1, 1, OTHER, 1, {1});
    assert Travelling(2, 1, {1}) == map[1 := Member(1, 2, Transferring)];
    assert launched.sessions == InTwoModes(3, Left).sessions;
    assert launched.entries == InTwoModes(3, Left).entries;
    assert launched.instances == InTwoModes(3, Left).instances;
  }

  lemma Returned()
    ensures Heartbeat(InTwoModes(3, Left), 0, {1}) == InTwoModes(4, Connected)
  {
    var db := InTwoModes(3, Left);
    assert Arriving(db.sessions[0], {1}) == {1};
    assert MarkConnected(db.sessions[0].members, {1}) == map[1 := Member(1, 1, Connected)];
    assert Heartbeat(db, 0, {1}).sessions == InTwoModes(4, Connected).sessions;
  }

  /**
   A player times out, queues for another mode, travels there, and is reported by
   the first instance after all. Whichever entry a disconnect then finds and
   whichever session it bumps, one session loses the player at an unchanged revision.
   */
  lemma RevisionFails() returns (actions: seq<Action>)
    ensures
      var db := Run(TwoModes(), actions);
      && PlaysIn(db, 0, 1) && PlaysIn(db, 1, 1)
      && forall found, first | PlaysIn(db, first, 1) :: !Faithful(db, Apply(db, DoDisconnect(1, found, first)))
  {
    InTwoModesIsReached();
    actions :| Run(TwoModes(), actions) == InTwoModes(4, Connected);
    var db := InTwoModes(4, Connected);
    assert PlaysIn(db, 0, 1) && PlaysIn(db, 1, 1);
    forall found, first | PlaysIn(db, first, 1) ensures !Faithful(db, Apply(db, DoDisconnect(1, found, first))) {
      assert !CancelsFound(db, 1, found);
      assert !LeavesOneSession(db, DoDisconnect(1, found, first));
      ActionIsFaithful(db, DoDisconnect(1, found, first));
    }
  }

  // ----- The tick that is rolled back

  const DUO := Policy(1, 2, 2, 1, 0, 1)

  /** The player is back in the session, and still queued for another one of the same mode. */
  ghost function BackAndQueued(revision: nat, state: MemberState): Db {
    TimedOut(DUO).(
      entries := map[1 := Started(1, 0, GROUP, 1, {1}), 2 := Entry(GROUP, 1, {1}, EntryQueued, None, false)],
      sessions := map[0 := Session(GROUP, InTransfer, 0, Some(0), revision, None, map[1 := Member(1, 1, state)])])
  }

  lemma BackAndQueuedIsReached()
    ensures Reaches(Fresh(DUO), BackAndQueued(4, Connected))
  {
    TimedOutIsReached(DUO);
    var db := TimedOut(DUO);
    assert !Busy(db, 1);
    assert CanEnqueue(db, 2, GROUP, 1, {1});
    ReachesNext(Fresh(DUO), db, DoEnqueue(2, GROUP, 1, {1}));
    QueuesAgain();
    ReachesReported(Fresh(DUO), BackAndQueued(3, Left), 0, {1});
    ComesBack();
  }

  lemma QueuesAgain()
    ensures Enqueue(TimedOut(DUO), 2, GROUP, 1, {1}) == BackAndQueued(3, Left)
  {
    assert !Busy(TimedOut(DUO), 1);
    assert CanEnqueue(TimedOut(DUO), 2, GROUP, 1, {1});
    assert Enqueue(TimedOut(DUO), 2, GROUP, 1, {1}).entries == BackAndQueued(3, Left).entries;
  }

  lemma ComesBack()
    ensures Heartbeat(BackAndQueued(3, Left), 0, {1}) == BackAndQueued(4, Connected)
  {
    var db := BackAndQueued(3, Left);
    assert Arriving(db.sessions[0], {1}) == {1};
    TheseConnect(db, 0, 0, {1});
    assert MarkConnected(db.sessions[0].members, {1}) == map[1 := Member(1, 1, Connected)];
    assert Heartbeat(db, 0, {1}).sessions == BackAndQueued(4, Connected).sessions;
  }

  lemma SecondPlaceIsFree()
    ensures RoomFor(map[1 := Member(1, 1, Connected)], 1, DUO)
  {
    var members := map[1 := Member(1, 1, Connected)];
    var entry := Entry(GROUP, 2, {2}, EntryQueued, None, false);
    assert Active(members) == {1};
    var joined := Join(members, 2, entry);
    var plan: map<EntryId, nat> := map[1 := 0, 2 := 1];
    assert Active(joined) == {1, 2} && Team(joined, plan, 0) == {1} && Team(joined, plan, 1) == {2};
    assert PlanFits(joined, plan, 2, 1);
    RoomFromPlan(members, 2, entry, DUO);
  }

  /**
   A player times out, queues again for the same mode, and is reported by the first
   instance before the next tick: the tick chooses the very session that expects the
   player, and is rolled back with everything it did for others.
   */
  lemma TickIsRolledBack(stale: set<SessionId>) returns (actions: seq<Action>)
    ensures
      var db := Run(Fresh(DUO), actions);
      && Usable(db) && Matchmaker.ChosenFor(db, GROUP, stale, 2, 0) && !NobodyThere(db, 2, 0)
      && forall s | s in Matchmaker.AcceptingSessions(db, GROUP, {}) :: s == 0
  {
    BackAndQueuedIsReached();
    actions :| Run(Fresh(DUO), actions) == BackAndQueued(4, Connected);
    var db := BackAndQueued(4, Connected);
    EmptyIsGood(Fresh(DUO));
    RunKeepsRows(Fresh(DUO), actions);
    RunKeepsReservations(Fresh(DUO), actions);
    SecondPlaceIsFree();
    assert |db.entries[2].players| == 1;
    assert 1 in Active(db.sessions[0].members);
  }
}
