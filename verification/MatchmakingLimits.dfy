/**
 Where the matchmaking guarantees end: exactly which configurations keep the
 player limit, and exactly when a returning player breaks a guarantee.
 */
module MatchmakingLimits {
  import opened Basics
  import opened Assignments
  import opened ProfileRanking
  import opened Lifecycles
  import opened Tables
  import opened Protocol
  import opened MatchmakingSteps
  import opened MatchmakingSafety

  // ----- The configuration gap: a team larger than a session

  const GROUP: GroupId := 0

  ghost function Fresh(policy: Policy): Db {
    Db(map[GROUP := policy], map[], map[], map[])
  }

  ghost predicate LimitHolds(db: Db) {
    forall s | s in db.sessions && !Terminal(db.sessions[s].state) && db.sessions[s].group in db.policies ::
      |Active(db.sessions[s].members)| <= db.policies[db.sessions[s].group].maximumPlayers
  }

  ghost predicate LimitHoldsAlways(policy: Policy) {
    forall actions | Along(Fresh(policy), actions, PlacesFree) :: LimitHolds(Run(Fresh(policy), actions))
  }

  ghost function Crowd(n: nat): (players: set<PlayerId>)
    ensures |players| == n && forall p | p in players :: p < n
  {
    if n == 0 then {} else Crowd(n - 1) + {n - 1}
  }

  ghost function CrowdEntry(players: set<PlayerId>): Entry {
    Entry(GROUP, 0, players, EntryQueued, None, false)
  }

  const NEW_SESSION := Session(GROUP, Forming, 0, None, 1, None, map[])

  lemma CrowdQueues(policy: Policy, players: set<PlayerId>)
    requires 1 <= |players| <= policy.teamSize
    ensures Enqueue(Fresh(policy), 0, GROUP, 0, players) == Fresh(policy).(entries := map[0 := CrowdEntry(players)])
  {
    assert CanEnqueue(Fresh(policy), 0, GROUP, 0, players);
  }

  lemma CrowdAttaches(policy: Policy, players: set<PlayerId>)
    ensures
      var waiting := Fresh(policy).(entries := map[0 := CrowdEntry(players)], sessions := map[0 := NEW_SESSION]);
      var after := Attach(waiting, 0, 0, true);
      0 in after.sessions && after.sessions[0].state == Forming && after.sessions[0].group == GROUP &&
      after.policies == waiting.policies && Active(after.sessions[0].members) == players
  {
    var waiting := Fresh(policy).(entries := map[0 := CrowdEntry(players)], sessions := map[0 := NEW_SESSION]);
    assert Active(map[]) == {};
    assert CanAttach(waiting, 0, 0, true);
    JoinMeans(map[], 0, CrowdEntry(players));
  }

  ghost function CrowdActions(players: set<PlayerId>): seq<Action> {
    [DoEnqueue(0, GROUP, 0, players), DoOpenSession(0, GROUP, 0), DoAttach(0, 0, true)]
  }

  lemma CrowdRun(policy: Policy, players: set<PlayerId>)
    requires 1 <= |players| <= policy.teamSize
    ensures
      Run(Fresh(policy), CrowdActions(players)) ==
      Attach(Fresh(policy).(entries := map[0 := CrowdEntry(players)], sessions := map[0 := NEW_SESSION]), 0, 0, true)
  {
    RunThree(Fresh(policy), CrowdActions(players));
    CrowdQueues(policy, players);
    var queued := Fresh(policy).(entries := map[0 := CrowdEntry(players)]);
    assert OpenSession(queued, 0, GROUP, 0) == queued.(sessions := map[0 := NEW_SESSION]);
  }

  /** One party of a full team is enough to open an overfull session. */
  lemma FullTeamOverfills(policy: Policy)
    requires policy.teamSize >= 1 && policy.teamSize > policy.maximumPlayers
    ensures !LimitHoldsAlways(policy)
  {
    var players := Crowd(policy.teamSize);
    CrowdRun(policy, players);
    CrowdAttaches(policy, players);
    var actions := CrowdActions(players);
    NobodyReturns(Fresh(policy), players);
    assert !LimitHolds(Run(Fresh(policy), actions));
  }

  lemma NobodyReturns(db: Db, players: set<PlayerId>)
    ensures Along(db, CrowdActions(players), PlacesFree)
  {
    var actions := CrowdActions(players);
    forall k: nat | k < |actions| ensures At(db, actions, PlacesFree, k) {
      assert !actions[k].DoHeartbeat?;
    }
  }

  lemma RunThree(db: Db, actions: seq<Action>)
    requires |actions| == 3
    ensures Run(db, actions) == Apply(Apply(Apply(db, actions[0]), actions[1]), actions[2])
  {
    assert actions[..2][..1] == actions[..1] && actions[..1][..0] == [];
    assert Run(db, actions[..1]) == Apply(Run(db, []), actions[0]);
    assert Run(db, actions[..2]) == Apply(Run(db, actions[..1]), actions[1]);
  }

  /** With places for those who come back, the player limit holds in every run exactly when a full team fits into a session. */
  lemma LimitNeedsTeamToFit(policy: Policy)
    requires policy.teamSize >= 1
    ensures LimitHoldsAlways(policy) <==> policy.teamSize <= policy.maximumPlayers
  {
    if policy.teamSize > policy.maximumPlayers {
      FullTeamOverfills(policy);
    } else {
      forall actions | Along(Fresh(policy), actions, PlacesFree) ensures LimitHolds(Run(Fresh(policy), actions)) {
        EmptyIsGood(Fresh(policy));
        RunKeepsLimits(Fresh(policy), actions);
        assert forall s | s in Run(Fresh(policy), actions).sessions :: LimitOk(Run(Fresh(policy), actions), s);
      }
    }
  }

  // ----- The return of a player marked LEFT

  ghost predicate Returns(db: Db, i: InstanceId, p: PlayerId) {
    && EventSession(db, i)
    && var session := db.sessions[db.instances[i].session.value];
       (session.state == InTransfer || session.state == Waiting) &&
       p in session.members && session.members[p].state == Left
  }

  /**
   The join handler accepts players that the session gave up on. Everything that
   matchmaking promises survives such a return exactly when the player is not
   queued or expected anywhere, the session has a free place, its tickets still
   fit into the teams with the returning player's ticket grown by one, and that
   ticket has not been cancelled.
   */
  lemma ReturnIsSafeExactlyWhen(db: Db, i: InstanceId, p: PlayerId)
    requires Inv(db) && Returns(db, i, p)
    ensures
      var session := db.sessions[db.instances[i].session.value];
      && session.group in db.policies && db.policies[session.group].teamCount >= 1
      && session.members[p].entry in db.entries
      && var policy := db.policies[session.group];
         Inv(Heartbeat(db, i, {p})) <==>
           && !Busy(db, p)
           && |Active(session.members)| < policy.maximumPlayers
           && (exists ids ::
                 TicketsWith(session.members, {p}, ids) &&
                 Assignable(GrownSizes(session.members, {p}, ids), policy.teamCount, policy.teamSize))
           && db.entries[session.members[p].entry].state == EntrySelected
  {
    var s := db.instances[i].session.value;
    assert RowOk(db, s) && TicketOk(db, s, p);
    SafeReturnOfOne(db, i, p);
    ReturnIsSafe(db, i, p);
  }

  lemma ReturnIsSafe(db: Db, i: InstanceId, p: PlayerId)
    requires Inv(db)
    ensures Inv(Heartbeat(db, i, {p})) <==> SafeReturn(db, DoHeartbeat(i, {p}))
  {
    var a := DoHeartbeat(i, {p});
    ActionKeeps(db, a);
    ApplyHeartbeat(db, a);
  }

  lemma ApplyHeartbeat(db: Db, a: Action)
    requires a.DoHeartbeat?
    ensures Apply(db, a) == Heartbeat(db, a.i, a.players)
  {
  }

  /** The condition on a step for one player who returns. */
  lemma SafeReturnOfOne(db: Db, i: InstanceId, p: PlayerId)
    requires Returns(db, i, p)
    requires var session := db.sessions[db.instances[i].session.value];
             session.group in db.policies && db.policies[session.group].teamCount >= 1 && session.members[p].entry in db.entries
    ensures
      var session := db.sessions[db.instances[i].session.value];
      var policy := db.policies[session.group];
      SafeReturn(db, DoHeartbeat(i, {p})) <==>
        && !Busy(db, p)
        && |Active(session.members)| < policy.maximumPlayers
        && (exists ids ::
              TicketsWith(session.members, {p}, ids) &&
              Assignable(GrownSizes(session.members, {p}, ids), policy.teamCount, policy.teamSize))
        && db.entries[session.members[p].entry].state == EntrySelected
  {
    var a := DoHeartbeat(i, {p});
    assert Returning(db, a) == {p};
    assert NoneBusy(db, a) <==> !Busy(db, p);
  }

  const SOLO := Policy(1, 1, 1, 1, 0, 1)

  /** A session for one player whose first player timed out and was replaced. */
  ghost function ReplacedPlayer(): Db {
    Db(
      map[GROUP := SOLO],
      map[1 := Entry(GROUP, 1, {1}, EntrySelected, Some(0), true),
          2 := Entry(GROUP, 2, {2}, EntrySelected, Some(0), true)],
      map[0 := Session(GROUP, InTransfer, 0, Some(0), 4, None,
            map[1 := Member(1, 1, Left), 2 := Member(2, 2, Transferring)])],
      map[0 := Instance(GROUP, Running, true, Some(0), false)])
  }

  lemma ReplacedPlayerRows()
    ensures forall e | e in ReplacedPlayer().entries :: EntryOk(ReplacedPlayer(), e)
    ensures forall s, p | s in ReplacedPlayer().sessions && p in ReplacedPlayer().sessions[s].members ::
              TicketOk(ReplacedPlayer(), s, p) && SelectionOk(ReplacedPlayer(), s, p)
    ensures Reservations(ReplacedPlayer()) && OnePlace(ReplacedPlayer())
  {
  }

  lemma ReplacedPlayerFits()
    ensures RowOk(ReplacedPlayer(), 0) && LimitOk(ReplacedPlayer(), 0) && TeamsOk(ReplacedPlayer(), 0)
    ensures Active(ReplacedPlayer().sessions[0].members) == {2}
  {
    var members := ReplacedPlayer().sessions[0].members;
    assert Active(members) == {2};
    var plan: map<EntryId, nat> := map[2 := 0];
    forall t: nat | t < 1 ensures |Team(members, plan, t)| <= 1 {
      assert Team(members, plan, t) == {2};
    }
    assert PlanFits(members, plan, 1, 1);
  }

  lemma ReplacedPlayerIsGood()
    ensures Inv(ReplacedPlayer())
  {
    ReplacedPlayerRows();
    ReplacedPlayerFits();
  }

  /** A concrete return that overfills the session, from a state that satisfies every invariant. */
  lemma ReturnOverfills()
    ensures Inv(ReplacedPlayer()) && Returns(ReplacedPlayer(), 0, 1)
    ensures |Active(Heartbeat(ReplacedPlayer(), 0, {1}).sessions[0].members)| > SOLO.maximumPlayers
  {
    ReplacedPlayerIsGood();
    ReplacedPlayerReturns();
  }

  lemma ReplacedPlayerReturns()
    ensures Returns(ReplacedPlayer(), 0, 1)
    ensures |Active(Heartbeat(ReplacedPlayer(), 0, {1}).sessions[0].members)| == 2
  {
    var session := ReplacedPlayer().sessions[0];
    var who := Arriving(session, {1});
    assert who == {1};
    MarkConnectedMeans(session.members, who);
    assert Active(session.members) == {2};
    assert Active(MarkConnected(session.members, who)) == {1, 2};
  }

  // ----- A return with a free place but without a team

  const TRIOS := Policy(2, 6, 2, 3, 0, 6)

  ghost function Pair(e: EntryId, p: PlayerId): Entry {
    Entry(GROUP, e, {p, p + 1}, EntrySelected, Some(0), true)
  }

  /** Three pairs for two teams of three: the third fitted once player 2 had timed out. */
  ghost function ThreePairs(state: MemberState): Members {
    map[1 := Member(1, 1, Connected), 2 := Member(1, 1, state),
        3 := Member(3, 3, Connected), 4 := Member(3, 3, Connected),
        5 := Member(5, 5, Connected), 6 := Member(5, 5, Connected)]
  }

  ghost function SplitPair(): Db {
    Db(
      map[GROUP := TRIOS],
      map[1 := Pair(1, 1), 3 := Pair(3, 3), 5 := Pair(5, 5)],
      map[0 := Session(GROUP, InTransfer, 0, Some(0), 6, None, ThreePairs(Left))],
      map[0 := Instance(GROUP, Running, true, Some(0), false)])
  }

  lemma SplitPairRows()
    ensures RowsOk(SplitPair())
  {
    assert |{1, 2}| == 2 && |{3, 4}| == 2 && |{5, 6}| == 2;
    assert forall e | e in SplitPair().entries :: EntryOk(SplitPair(), e);
    assert forall p | p in SplitPair().sessions[0].members :: TicketOk(SplitPair(), 0, p);
  }

  lemma SplitPairPlaces()
    ensures Reservations(SplitPair()) && Selections(SplitPair()) && OnePlace(SplitPair()) && !Busy(SplitPair(), 2)
  {
    var db := SplitPair();
    forall e, p ensures !QueuedWith(db, e, p) {
    }
    forall s ensures !PlaysIn(db, s, 2) {
    }
    assert forall p | p in db.sessions[0].members :: SelectionOk(db, 0, p);
  }

  lemma SplitPairFits()
    ensures Active(ThreePairs(Left)) == {1, 3, 4, 5, 6} && |Active(ThreePairs(Left))| == 5
    ensures HasPlan(ThreePairs(Left), 2, 3)
  {
    var members := ThreePairs(Left);
    var plan: map<EntryId, nat> := map[1 := 0, 3 := 0, 5 := 1];
    assert Active(members) == {1, 3, 4, 5, 6};
    forall t: nat | t < 2 ensures |Team(members, plan, t)| <= 3 {
      assert t == 0 ==> Team(members, plan, t) == {1, 3, 4};
      assert t == 1 ==> Team(members, plan, t) == {5, 6};
    }
    assert PlanFits(members, plan, 2, 3);
  }

  /** Two of three whole pairs end in one team. */
  lemma ThreePairsHaveNoTeams(plan: map<EntryId, nat>)
    ensures !PlanFits(ThreePairs(Connected), plan, 2, 3)
  {
    if PlanFits(ThreePairs(Connected), plan, 2, 3) {
      PairsApart(plan, 1, 3);
      PairsApart(plan, 3, 5);
      PairsApart(plan, 1, 5);
    }
  }

  lemma PairsApart(plan: map<EntryId, nat>, e: EntryId, f: EntryId)
    requires PlanFits(ThreePairs(Connected), plan, 2, 3)
    requires e in {1, 3, 5} && f in {1, 3, 5} && e != f
    ensures e in plan && f in plan && plan[e] < 2 && plan[f] < 2 && plan[e] != plan[f]
  {
    var members := ThreePairs(Connected);
    assert e in Active(members) && f in Active(members);
    if plan[e] == plan[f] {
      var four := {e, e + 1, f, f + 1};
      assert |four| == 4;
      assert four <= Team(members, plan, plan[e]);
      SubsetSize(four, Team(members, plan, plan[e]));
    }
  }

  lemma SplitPairReturns()
    ensures Heartbeat(SplitPair(), 0, {2}).sessions[0].members == ThreePairs(Connected)
    ensures Heartbeat(SplitPair(), 0, {2}).sessions[0].state == InTransfer
  {
    var session := SplitPair().sessions[0];
    assert Arriving(session, {2}) == {2};
    assert MarkConnected(session.members, {2}) == ThreePairs(Connected);
  }

  lemma SplitPairIsGood()
    ensures Inv(SplitPair())
  {
    SplitPairRows();
    SplitPairPlaces();
    SplitPairFits();
    assert LimitOk(SplitPair(), 0) && TeamsOk(SplitPair(), 0);
  }

  /** Player 2 is free, has a place and a held ticket; once back, the pairs cannot be put whole into the teams. */
  lemma ReturnSplitsTeams()
    ensures
      var db := SplitPair();
      && Inv(db) && Returns(db, 0, 2) && !Busy(db, 2) && TicketsHeld(db, DoHeartbeat(0, {2}))
      && |Active(db.sessions[0].members)| < TRIOS.maximumPlayers
      && !HasPlan(Heartbeat(db, 0, {2}).sessions[0].members, TRIOS.teamCount, TRIOS.teamSize)
  {
    SplitPairIsGood();
    SplitPairPlaces();
    SplitPairFits();
    SplitPairReturns();
    NoPlanForThreePairs();
    SplitPairIsHeld();
  }

  lemma SplitPairIsHeld()
    ensures Returns(SplitPair(), 0, 2) && TicketsHeld(SplitPair(), DoHeartbeat(0, {2}))
  {
  }

  lemma NoPlanForThreePairs()
    ensures !HasPlan(ThreePairs(Connected), 2, 3)
  {
    forall plan ensures !PlanFits(ThreePairs(Connected), plan, 2, 3) {
      ThreePairsHaveNoTeams(plan);
    }
  }
}
