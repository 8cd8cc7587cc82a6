/** The lifecycle of a server instance (orchestrator/src/domain/types.ts). */
module Lifecycles {

  datatype Lifecycle = Creating | Starting | Running | Draining | Stopping | Stopped | InstanceFailed

  /** On its way, or open to players. */
  predicate Serving(lifecycle: Lifecycle) {
    lifecycle == Creating || lifecycle == Starting || lifecycle == Running
  }

  predicate Live(lifecycle: Lifecycle) {
    Serving(lifecycle) || lifecycle == Draining
  }

  /** The lifecycle updates that the services guard; a stop is confirmed from any state. */
  predicate Follows(from: Lifecycle, to: Lifecycle) {
    match to
    case Creating => false
    case Starting => from == Creating || from == Starting
    case Running => from == Starting
    case Draining => from == Running
    case Stopping => from in {Draining, InstanceFailed, Stopping}
    case Stopped => true
    case InstanceFailed => Live(from)
  }
}

/**
 The rows that matchmaking works on, and what must hold of them in every
 reachable state (orchestrator/src/db/schema.ts).
 */
module Tables {
  import opened Basics
  import opened Lifecycles
  import opened Assignments

  type PlayerId = int
  type EntryId = int
  type SessionId = int
  type InstanceId = int
  type GroupId = int
  type PartyId = int

  datatype Policy = Policy(
    minimumPlayers: int,
    maximumPlayers: int,
    teamCount: int,
    teamSize: int,
    minimumPlayersPerTeam: int,
    maximumTeamSpread: int
  )

  datatype EntryState = EntryQueued | EntrySelected | EntryLeft

  /** A queue_entries row with its queue_entry_players. */
  datatype Entry = Entry(
    group: GroupId,
    party: PartyId,
    players: set<PlayerId>,
    state: EntryState,
    session: Option<SessionId>,
    transferStarted: bool
  )

  datatype MemberState = Selected | Transferring | Connected | Left

  /** A session_players row; its key is the session and the player. */
  datatype Member = Member(party: PartyId, entry: EntryId, state: MemberState)

  datatype SessionState =
    | Forming | WaitingForInstance | InTransfer | Waiting | GameStarting | GameRunning
    | Finished | Cancelled | SessionFailed

  /**
   A game_sessions row with its session_players. `acknowledged` is the revision
   for which assignment_acknowledged_at was written, or None when it is null.
   */
  datatype Session = Session(
    group: GroupId,
    state: SessionState,
    createdAt: int,
    instance: Option<InstanceId>,
    revision: nat,
    acknowledged: Option<nat>,
    members: map<PlayerId, Member>
  )

  /** A server_instances row; `failed` says that a failure reason is recorded. */
  datatype Instance = Instance(
    group: GroupId,
    lifecycle: Lifecycle,
    reserved: bool,
    session: Option<SessionId>,
    failed: bool
  )

  datatype Db = Db(
    policies: map<GroupId, Policy>,
    entries: map<EntryId, Entry>,
    sessions: map<SessionId, Session>,
    instances: map<InstanceId, Instance>
  )

  predicate Terminal(state: SessionState) {
    state == Finished || state == Cancelled || state == SessionFailed
  }

  predicate Accepting(state: SessionState) {
    state == Forming || state == WaitingForInstance || state == InTransfer || state == Waiting
  }

  type Members = map<PlayerId, Member>

  /** The expected players of a session: everyone not LEFT. */
  function Active(members: Members): set<PlayerId> {
    set p | p in members && members[p].state != Left
  }

  function ConnectedPlayers(members: Members): set<PlayerId> {
    set p | p in members && members[p].state == Connected
  }

  /** The active members that came with one queue entry. */
  function Ticket(members: Members, entry: EntryId): set<PlayerId> {
    set p | p in members && members[p].state != Left && members[p].entry == entry
  }

  // ----- Tickets of a session and their teams

  /** ids enumerates the tickets that still have active members, in some order. */
  ghost predicate TicketList(members: Members, ids: seq<EntryId>) {
    && Distinct(ids)
    && (forall e :: e in ids <==> Ticket(members, e) != {})
  }

  ghost function SizesOf(members: Members, ids: seq<EntryId>): (r: seq<int>)
    ensures |r| == |ids| && forall i | 0 <= i < |ids| :: r[i] == |Ticket(members, ids[i])|
  {
    seq(|ids|, i requires 0 <= i < |ids| => |Ticket(members, ids[i])|)
  }

  /** The active members whose ticket is put into team t. */
  ghost function Team(members: Members, plan: map<EntryId, nat>, t: nat): set<PlayerId> {
    set p | p in members && members[p].state != Left && members[p].entry in plan && plan[members[p].entry] == t
  }

  /** Every active member's whole ticket goes to one team and no team is overfull. */
  ghost predicate PlanFits(members: Members, plan: map<EntryId, nat>, teamCount: int, teamSize: int) {
    && (forall p | p in Active(members) :: members[p].entry in plan && plan[members[p].entry] < teamCount)
    && (forall t: nat | t < teamCount :: |Team(members, plan, t)| <= teamSize)
  }

  ghost predicate HasPlan(members: Members, teamCount: int, teamSize: int) {
    exists plan :: PlanFits(members, plan, teamCount, teamSize)
  }

  ghost function PlanOf(ids: seq<EntryId>, teams: seq<nat>): map<EntryId, nat>
    requires |ids| == |teams|
  {
    if ids == [] then map[]
    else
      var n := |ids| - 1;
      PlanOf(ids[..n], teams[..n])[ids[n] := teams[n]]
  }

  lemma {:induction false} PlanOfLookup(ids: seq<EntryId>, teams: seq<nat>)
    requires |ids| == |teams| && Distinct(ids)
    ensures forall e :: e in PlanOf(ids, teams) <==> e in ids
    ensures forall i | 0 <= i < |ids| :: ids[i] in PlanOf(ids, teams) && PlanOf(ids, teams)[ids[i]] == teams[i]
  {
    if ids != [] {
      var n := |ids| - 1;
      PlanOfLookup(ids[..n], teams[..n]);
      assert ids == ids[..n] + [ids[n]];
      assert ids[n] !in ids[..n];
      forall i | 0 <= i < |ids| ensures ids[i] in PlanOf(ids, teams) && PlanOf(ids, teams)[ids[i]] == teams[i] {
        if i < n {
          assert ids[i] == ids[..n][i] && ids[i] != ids[n];
        }
      }
    }
  }

  lemma DisjointUnionSize<T>(a: set<T>, b: set<T>)
    requires a !! b
    ensures |a + b| == |a| + |b|
  {
  }

  lemma SubsetSize<T>(a: set<T>, b: set<T>)
    requires a <= b
    ensures |a| <= |b|
  {
    DisjointUnionSize(a, b - a);
    assert b == a + (b - a);
  }

  /** The players in a team are counted by the loads of its tickets. */
  lemma {:induction false} TeamIsLoad(members: Members, ids: seq<EntryId>, teams: seq<nat>, t: nat)
    requires |ids| == |teams| && Distinct(ids)
    ensures |Team(members, PlanOf(ids, teams), t)| == Load(SizesOf(members, ids), teams, t)
  {
    if ids == [] {
      assert Team(members, PlanOf(ids, teams), t) == {};
    } else {
      var n := |ids| - 1;
      PlanOfLookup(ids[..n], teams[..n]);
      TeamIsLoad(members, ids[..n], teams[..n], t);
      assert ids[n] !in ids[..n];
      assert SizesOf(members, ids)[..n] == SizesOf(members, ids[..n]);
      TeamGrows(members, PlanOf(ids[..n], teams[..n]), ids[n], teams[n], t);
    }
  }

  lemma TeamGrows(members: Members, plan: map<EntryId, nat>, e: EntryId, team: nat, t: nat)
    requires e !in plan
    ensures |Team(members, plan[e := team], t)| ==
            |Team(members, plan, t)| + if team == t then |Ticket(members, e)| else 0
  {
    var more := if team == t then Ticket(members, e) else {};
    forall p ensures p in Team(members, plan[e := team], t) <==> p in Team(members, plan, t) || p in more {
    }
    assert Team(members, plan[e := team], t) == Team(members, plan, t) + more;
    DisjointUnionSize(Team(members, plan, t), more);
  }

  /** Assignments of the ticket sizes and plans for the tickets are the same thing. */
  lemma PlanIffAssignable(members: Members, ids: seq<EntryId>, teamCount: nat, teamSize: int)
    requires TicketList(members, ids)
    ensures HasPlan(members, teamCount, teamSize) <==> Assignable(SizesOf(members, ids), teamCount, teamSize)
  {
    if HasPlan(members, teamCount, teamSize) {
      var plan :| PlanFits(members, plan, teamCount, teamSize);
      AssignmentFromPlan(members, ids, plan, teamCount, teamSize);
    }
    if Assignable(SizesOf(members, ids), teamCount, teamSize) {
      var teams :| Assigns(teams, SizesOf(members, ids), teamCount, teamSize);
      PlanFromAssignment(members, ids, teams, teamCount, teamSize);
    }
  }

  lemma PlanFromAssignment(members: Members, ids: seq<EntryId>, teams: seq<nat>, teamCount: nat, teamSize: int)
    requires TicketList(members, ids) && Assigns(teams, SizesOf(members, ids), teamCount, teamSize)
    ensures PlanFits(members, PlanOf(ids, teams), teamCount, teamSize)
  {
    PlanOfLookup(ids, teams);
    forall p | p in Active(members)
      ensures members[p].entry in PlanOf(ids, teams) && PlanOf(ids, teams)[members[p].entry] < teamCount
    {
      assert p in Ticket(members, members[p].entry);
      var i :| 0 <= i < |ids| && ids[i] == members[p].entry;
    }
    forall t: nat | t < teamCount ensures |Team(members, PlanOf(ids, teams), t)| <= teamSize {
      TeamIsLoad(members, ids, teams, t);
    }
  }

  lemma AssignmentFromPlan(members: Members, ids: seq<EntryId>, plan: map<EntryId, nat>, teamCount: nat, teamSize: int)
    requires TicketList(members, ids) && PlanFits(members, plan, teamCount, teamSize)
    ensures Assignable(SizesOf(members, ids), teamCount, teamSize)
  {
    forall i | 0 <= i < |ids| ensures ids[i] in plan && plan[ids[i]] < teamCount {
      var p := Witness(Ticket(members, ids[i]));
      assert p in Active(members);
    }
    var teams: seq<nat> := seq(|ids|, i requires 0 <= i < |ids| => plan[ids[i]]);
    PlanOfLookup(ids, teams);
    forall t: nat | t < teamCount ensures Load(SizesOf(members, ids), teams, t) <= teamSize {
      TeamIsLoad(members, ids, teams, t);
      forall p | p in Team(members, PlanOf(ids, teams), t) ensures p in Team(members, plan, t) {
        var i :| 0 <= i < |ids| && ids[i] == members[p].entry;
      }
      SubsetSize(Team(members, PlanOf(ids, teams), t), Team(members, plan, t));
    }
    assert Assigns(teams, SizesOf(members, ids), teamCount, teamSize);
  }

  /** Ticket sizes add up to the active players. */
  lemma {:induction false} SizesCountPlayers(members: Members, ids: seq<EntryId>)
    requires TicketList(members, ids)
    ensures Sum(SizesOf(members, ids)) == |Active(members)|
  {
    TicketPlayersCount(members, ids);
    assert TicketPlayers(members, ids) == Active(members) by {
      forall p | p in Active(members) ensures p in TicketPlayers(members, ids) {
        assert p in Ticket(members, members[p].entry);
      }
    }
  }

  ghost function TicketPlayers(members: Members, ids: seq<EntryId>): set<PlayerId> {
    set p | p in members && members[p].state != Left && members[p].entry in ids
  }

  lemma {:induction false} TicketPlayersCount(members: Members, ids: seq<EntryId>)
    requires Distinct(ids)
    ensures Sum(SizesOf(members, ids)) == |TicketPlayers(members, ids)|
  {
    if ids == [] {
      assert TicketPlayers(members, ids) == {};
    } else {
      var n := |ids| - 1;
      TicketPlayersCount(members, ids[..n]);
      assert ids[n] !in ids[..n];
      assert ids == ids[..n] + [ids[n]];
      assert SizesOf(members, ids)[..n] == SizesOf(members, ids[..n]);
      assert TicketPlayers(members, ids) == TicketPlayers(members, ids[..n]) + Ticket(members, ids[n]);
      DisjointUnionSize(TicketPlayers(members, ids[..n]), Ticket(members, ids[n]));
    }
  }

  lemma SameTicketsSameSizes(members: Members, ids: seq<EntryId>, other: seq<EntryId>)
    requires TicketList(members, ids) && TicketList(members, other)
    ensures multiset(SizesOf(members, ids)) == multiset(SizesOf(members, other))
  {
    SameDistinctElements(ids, other);
    SizesFollowIds(members, ids, other);
  }

  lemma {:induction false} SameDistinctElements(a: seq<EntryId>, b: seq<EntryId>)
    requires Distinct(a)
    requires Distinct(b)
    requires forall e :: e in a <==> e in b
    ensures multiset(a) == multiset(b)
  {
    forall e ensures multiset(a)[e] == multiset(b)[e] {
      CountOnce(a, e);
      CountOnce(b, e);
    }
  }

  lemma {:induction false} CountOnce(a: seq<EntryId>, e: EntryId)
    requires Distinct(a)
    ensures multiset(a)[e] == if e in a then 1 else 0
  {
    if a != [] {
      var n := |a| - 1;
      CountOnce(a[..n], e);
      assert a == a[..n] + [a[n]];
      assert a[n] !in a[..n];
    }
  }

  lemma {:induction false} SizesFollowIds(members: Members, ids: seq<EntryId>, other: seq<EntryId>)
    requires multiset(ids) == multiset(other)
    ensures multiset(SizesOf(members, ids)) == multiset(SizesOf(members, other))
    decreases |ids|
  {
    assert |multiset(ids)| == |ids| && |multiset(other)| == |other|;
    if ids == [] {
      assert SizesOf(members, ids) == SizesOf(members, other) == [];
    } else {
      var n := |ids| - 1;
      assert ids[n] in multiset(other);
      var i :| 0 <= i < |other| && other[i] == ids[n];
      MultisetFront(ids);
      MultisetWithout(other, i);
      SizesFollowIds(members, ids[..n], other[..i] + other[i + 1..]);
      SizesFront(members, ids);
      SizesWithout(members, other, i);
    }
  }

  lemma SizesFront(members: Members, ids: seq<EntryId>)
    requires ids != []
    ensures multiset(SizesOf(members, ids)) ==
            multiset(SizesOf(members, ids[..|ids| - 1])) + multiset{|Ticket(members, ids[|ids| - 1])|}
  {
    var sizes := SizesOf(members, ids);
    assert sizes == SizesOf(members, ids[..|ids| - 1]) + [|Ticket(members, ids[|ids| - 1])|];
  }

  lemma SizesWithout(members: Members, ids: seq<EntryId>, i: nat)
    requires i < |ids|
    ensures multiset(SizesOf(members, ids)) ==
            multiset(SizesOf(members, ids[..i] + ids[i + 1..])) + multiset{|Ticket(members, ids[i])|}
  {
    var sizes := SizesOf(members, ids);
    MultisetWithout(sizes, i);
    assert sizes[..i] + sizes[i + 1..] == SizesOf(members, ids[..i] + ids[i + 1..]);
    assert sizes[i] in multiset(sizes);
  }
}
