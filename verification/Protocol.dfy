/**
 Matchmaking as atomic steps over the rows: what each transaction of the queue,
 matchmaker, session and instance services writes, the invariants these rows are
 meant to have, and what a step must meet to keep them.
 */
module Protocol {
  import opened Basics
  import opened Assignments
  import opened ProfileRanking
  import opened Lifecycles
  import opened Tables

  // ----- Invariants

  /** Accepted by configuration, plus: one full team fits into a session. */
  ghost predicate GoodPolicy(p: Policy) {
    p.teamCount >= 1 && 1 <= p.teamSize <= p.maximumPlayers
  }

  ghost predicate GoodPolicies(db: Db) {
    forall g | g in db.policies :: GoodPolicy(db.policies[g])
  }

  predicate QueuedWith(db: Db, e: EntryId, p: PlayerId) {
    e in db.entries && db.entries[e].state == EntryQueued && p in db.entries[e].players
  }

  predicate PlaysIn(db: Db, s: SessionId, p: PlayerId) {
    s in db.sessions && !Terminal(db.sessions[s].state) && p in Active(db.sessions[s].members)
  }

  ghost predicate EntryOk(db: Db, e: EntryId)
    requires e in db.entries
  {
    var entry := db.entries[e];
    && entry.group in db.policies
    && 1 <= |entry.players| <= db.policies[entry.group].teamSize
    && (entry.state == EntryQueued ==> entry.session == None)
  }

  ghost predicate RowOk(db: Db, s: SessionId)
    requires s in db.sessions
  {
    var session := db.sessions[s];
    && session.group in db.policies
    && (session.acknowledged.Some? ==> session.acknowledged.value == session.revision)
  }

  /** A member, expected or LEFT, came with a queue entry of this session. */
  ghost predicate TicketOk(db: Db, s: SessionId, p: PlayerId)
    requires s in db.sessions && p in db.sessions[s].members
  {
    var e := db.sessions[s].members[p].entry;
    e in db.entries && db.entries[e].session == Some(s) && p in db.entries[e].players
  }

  ghost predicate RowsOk(db: Db) {
    && (forall e | e in db.entries :: EntryOk(db, e))
    && (forall s | s in db.sessions :: RowOk(db, s))
    && (forall s, p | s in db.sessions && p in db.sessions[s].members :: TicketOk(db, s, p))
  }

  /** An open session expects no more players than its policy allows. */
  ghost predicate LimitOk(db: Db, s: SessionId)
    requires s in db.sessions
  {
    var session := db.sessions[s];
    !Terminal(session.state) && session.group in db.policies ==>
      |Active(session.members)| <= db.policies[session.group].maximumPlayers
  }

  ghost predicate Limits(db: Db) {
    forall s | s in db.sessions :: LimitOk(db, s)
  }

  /** An open session has a team for every whole ticket. */
  ghost predicate TeamsOk(db: Db, s: SessionId)
    requires s in db.sessions
  {
    var session := db.sessions[s];
    !Terminal(session.state) && session.group in db.policies ==>
      HasPlan(session.members, db.policies[session.group].teamCount, db.policies[session.group].teamSize)
  }

  ghost predicate Teams(db: Db) {
    forall s | s in db.sessions :: TeamsOk(db, s)
  }

  /** The ticket of an expected player is selected. */
  ghost predicate SelectionOk(db: Db, s: SessionId, p: PlayerId)
    requires s in db.sessions && p in db.sessions[s].members
  {
    var member := db.sessions[s].members[p];
    member.state != Left ==> member.entry in db.entries && db.entries[member.entry].state == EntrySelected
  }

  ghost predicate Selections(db: Db) {
    forall s, p | s in db.sessions && p in db.sessions[s].members :: SelectionOk(db, s, p)
  }

  /** Nobody is in two queue entries, in two open sessions, or in both a queue and a session. */
  ghost predicate OnePlace(db: Db) {
    && (forall e, f, p :: QueuedWith(db, e, p) && QueuedWith(db, f, p) ==> e == f)
    && (forall e, s, p :: QueuedWith(db, e, p) ==> !PlaysIn(db, s, p))
    && (forall s, t, p :: PlaysIn(db, s, p) && PlaysIn(db, t, p) ==> s == t)
  }

  /** A session without an instance looks for one; a session with one is named by it. */
  ghost predicate ReservationOk(db: Db, s: SessionId)
    requires s in db.sessions
  {
    var session := db.sessions[s];
    && (session.state == Forming || session.state == WaitingForInstance ==> session.instance == None)
    && (session.instance.Some? ==>
          session.instance.value in db.instances && db.instances[session.instance.value].session == Some(s))
  }

  /** An instance serves a session of its group; while it is live it is the instance of that session, and has not failed. */
  ghost predicate InstanceOk(db: Db, i: InstanceId)
    requires i in db.instances
  {
    var instance := db.instances[i];
    && (instance.reserved <==> instance.session.Some?)
    && (instance.session.Some? ==>
          instance.session.value in db.sessions && db.sessions[instance.session.value].group == instance.group)
    && (instance.session.Some? && Live(instance.lifecycle) ==>
          db.sessions[instance.session.value].instance == Some(i))
    && (Live(instance.lifecycle) ==> !instance.failed)
  }

  ghost predicate Reservations(db: Db) {
    && (forall s | s in db.sessions :: ReservationOk(db, s))
    && (forall i | i in db.instances :: InstanceOk(db, i))
  }

  /** What every run keeps, and the matchmaker relies on. */
  ghost predicate Usable(db: Db) {
    RowsOk(db) && Reservations(db)
  }

  /** What every run without the return of a busy player keeps. */
  ghost predicate Sound(db: Db) {
    Usable(db) && OnePlace(db)
  }

  ghost predicate Inv(db: Db) {
    GoodPolicies(db) && Sound(db) && Limits(db) && Teams(db) && Selections(db)
  }

  // ----- Row updates

  function MarkLeft(members: Members, who: set<PlayerId>): Members {
    map p | p in members :: if p in who then members[p].(state := Left) else members[p]
  }

  function MarkConnected(members: Members, who: set<PlayerId>): Members {
    map p | p in members :: if p in who then members[p].(state := Connected) else members[p]
  }

  function Restate(members: Members, from: MemberState, to: MemberState): Members {
    map p | p in members :: if members[p].state == from then members[p].(state := to) else members[p]
  }

  function InState(members: Members, states: set<MemberState>): set<PlayerId> {
    set p | p in members && members[p].state in states
  }

  /** assignment_revision + 1 and no acknowledgement. */
  function Bump(session: Session): Session {
    session.(revision := session.revision + 1, acknowledged := None)
  }

  function BumpIf(session: Session, changed: bool): Session {
    if changed then Bump(session) else session
  }

  function PutSession(db: Db, s: SessionId, session: Session): Db {
    db.(sessions := db.sessions[s := session])
  }

  function PutEntry(db: Db, e: EntryId, entry: Entry): Db {
    db.(entries := db.entries[e := entry])
  }

  function PutInstance(db: Db, i: InstanceId, instance: Instance): Db {
    db.(instances := db.instances[i := instance])
  }

  // ----- Guards

  /** The player is queued somewhere or expected in an open session. */
  ghost predicate Busy(db: Db, p: PlayerId) {
    (exists e :: QueuedWith(db, e, p)) || (exists s :: PlaysIn(db, s, p))
  }

  /** Enough expected players, and the recommended profile meets the balance limits. */
  ghost predicate StartEligible(members: Members, policy: Policy) {
    && |Active(members)| >= policy.minimumPlayers
    && exists ids, rec ::
         TicketList(members, ids) &&
         IsRecommended(rec, SizesOf(members, ids), policy.teamCount, policy.teamSize) &&
         IsProfileEligible(rec, policy.minimumPlayersPerTeam, policy.maximumTeamSpread)
  }

  /** chooseSession may pick s for a ticket of this size. */
  ghost predicate RoomFor(members: Members, ticketSize: int, policy: Policy) {
    exists ids ::
      TicketList(members, ids) &&
      FitsTicket(SizesOf(members, ids), ticketSize, policy.teamCount, policy.teamSize, policy.maximumPlayers)
  }

  /** The entry that leaving or disconnecting finds: queued, or selected for an open session. */
  predicate ActiveEntry(db: Db, e: EntryId) {
    && e in db.entries
    && (db.entries[e].state == EntryQueued ||
        (db.entries[e].state == EntrySelected && db.entries[e].session.Some? &&
         db.entries[e].session.value in db.sessions &&
         !Terminal(db.sessions[db.entries[e].session.value].state)))
  }

  /** The instance and the session name each other. */
  predicate Bound(db: Db, i: InstanceId, s: SessionId) {
    s in db.sessions && i in db.instances &&
    db.sessions[s].instance == Some(i) && db.instances[i].session == Some(s)
  }

  predicate EventSession(db: Db, i: InstanceId) {
    i in db.instances && db.instances[i].session.Some? && db.instances[i].session.value in db.sessions
  }

  // ----- Queue service

  ghost predicate CanEnqueue(db: Db, e: EntryId, group: GroupId, party: PartyId, players: set<PlayerId>) {
    && e !in db.entries && group in db.policies
    && 1 <= |players| <= db.policies[group].teamSize
    && (forall f | f in db.entries :: !(db.entries[f].state == EntryQueued &&
          db.entries[f].group == group && db.entries[f].party == party))
    && forall p | p in players :: !Busy(db, p)
  }

  ghost function Enqueue(db: Db, e: EntryId, group: GroupId, party: PartyId, players: set<PlayerId>): Db {
    if CanEnqueue(db, e, group, party, players)
    then PutEntry(db, e, Entry(group, party, players, EntryQueued, None, false))
    else db
  }

  /** The session row after the members of one ticket left it. */
  ghost function AfterTicketLeft(session: Session, who: set<PlayerId>, policy: Policy): Session {
    var members := MarkLeft(session.members, who);
    var state :=
      if Active(members) == {} then Cancelled
      else if session.state == WaitingForInstance && !StartEligible(members, policy) then Forming
      else session.state;
    Bump(session.(members := members, state := state))
  }

  ghost function CancelTicket(db: Db, e: EntryId): Db
    requires e in db.entries
  {
    var entry := db.entries[e];
    var left := PutEntry(db, e, entry.(state := EntryLeft));
    if entry.session.None? || entry.session.value !in db.sessions then left
    else
      var s := entry.session.value;
      var who := Ticket(db.sessions[s].members, e);
      if who == {} || db.sessions[s].group !in db.policies then left
      else PutSession(left, s, AfterTicketLeft(db.sessions[s], who, db.policies[db.sessions[s].group]))
  }

  /** Leaving as a party: only before the first transfer of the ticket. */
  ghost function LeaveParty(db: Db, e: EntryId): Db {
    if ActiveEntry(db, e) && !db.entries[e].transferStarted then CancelTicket(db, e) else db
  }

  /** One player leaves every open session; only the session of the first changed row is bumped. */
  ghost function LeaveAlone(db: Db, p: PlayerId, first: SessionId): Db {
    db.(sessions := map s | s in db.sessions ::
      if PlaysIn(db, s, p)
      then BumpIf(db.sessions[s].(members := MarkLeft(db.sessions[s].members, {p})), s == first)
      else db.sessions[s])
  }

  predicate CancelsFound(db: Db, p: PlayerId, found: Option<EntryId>) {
    found.Some? && ActiveEntry(db, found.value) && p in db.entries[found.value].players &&
    !db.entries[found.value].transferStarted
  }

  /**
   A disconnect cancels the found ticket if its transfer has not started;
   otherwise only this player leaves. `first` is the session of the first
   changed row, if any row changes.
   */
  ghost function Disconnect(db: Db, p: PlayerId, found: Option<EntryId>, first: SessionId): Db {
    if CancelsFound(db, p, found) then CancelTicket(db, found.value)
    else if (exists s :: PlaysIn(db, s, p)) && !PlaysIn(db, first, p) then db
    else LeaveAlone(db, p, first)
  }

  // ----- Matchmaker

  ghost function OpenSession(db: Db, s: SessionId, group: GroupId, createdAt: int): Db {
    if s in db.sessions || group !in db.policies then db
    else PutSession(db, s, Session(group, Forming, createdAt, None, 1, None, map[]))
  }

  function Join(members: Members, e: EntryId, entry: Entry): Members {
    members + map p | p in entry.players :: Member(entry.party, e, Selected)
  }

  /** `inserted` says that the session was just inserted for this ticket, without ranking. */
  ghost predicate Offered(db: Db, e: EntryId, s: SessionId, inserted: bool) {
    && e in db.entries && db.entries[e].state == EntryQueued
    && s in db.sessions && Accepting(db.sessions[s].state)
    && db.sessions[s].group == db.entries[e].group && db.sessions[s].group in db.policies
    && (inserted ==> db.sessions[s].members == map[])
    && (!inserted ==> RoomFor(db.sessions[s].members, |db.entries[e].players|, db.policies[db.sessions[s].group]))
  }

  /** The session does not expect any player of the ticket yet. */
  ghost predicate NobodyThere(db: Db, e: EntryId, s: SessionId)
    requires e in db.entries && s in db.sessions
  {
    forall p | p in db.entries[e].players :: p !in Active(db.sessions[s].members)
  }

  ghost predicate CanAttach(db: Db, e: EntryId, s: SessionId, inserted: bool) {
    Offered(db, e, s, inserted) && NobodyThere(db, e, s)
  }

  ghost function Attach(db: Db, e: EntryId, s: SessionId, inserted: bool): Db {
    if !CanAttach(db, e, s, inserted) then db
    else
      var entry := db.entries[e];
      var session := db.sessions[s];
      PutSession(
        PutEntry(db, e, entry.(state := EntrySelected, session := Some(s))),
        s, Bump(session.(members := Join(session.members, e, entry))))
  }

  ghost function Demote(db: Db, s: SessionId): Db {
    if s in db.sessions && db.sessions[s].state == WaitingForInstance
    then PutSession(db, s, db.sessions[s].(state := Forming)) else db
  }

  ghost function AwaitInstance(db: Db, s: SessionId): Db {
    if s in db.sessions && db.sessions[s].state == Forming
    then PutSession(db, s, db.sessions[s].(state := WaitingForInstance)) else db
  }

  predicate CanReserve(db: Db, s: SessionId, i: InstanceId) {
    && i in db.instances && db.instances[i].lifecycle == Running && !db.instances[i].reserved
    && s in db.sessions && (db.sessions[s].state == Forming || db.sessions[s].state == WaitingForInstance)
    && db.sessions[s].group == db.instances[i].group
  }

  /** Claims the instance and starts the transfers of everyone selected so far. */
  ghost function Reserve(db: Db, s: SessionId, i: InstanceId): Db {
    if !CanReserve(db, s, i) then db
    else
      var claimed := PutInstance(db, i, db.instances[i].(reserved := true, session := Some(s)));
      var started := claimed.(entries := map e | e in db.entries ::
        if db.entries[e].session == Some(s) && db.entries[e].state == EntrySelected
        then db.entries[e].(transferStarted := true) else db.entries[e]);
      var session := db.sessions[s];
      PutSession(started, s, session.(
        state := InTransfer, instance := Some(i), members := Restate(session.members, Selected, Transferring)))
  }

  /** A ticket that joined a session with an instance is transferred at once. */
  ghost function BeginTicketTransfer(db: Db, e: EntryId, s: SessionId): Db {
    if e !in db.entries || s !in db.sessions || db.sessions[s].instance.None? then db
    else
      var entry, session := db.entries[e], db.sessions[s];
      PutSession(
        PutEntry(db, e, entry.(transferStarted := true)), s,
        session.(members := map p | p in session.members ::
          if session.members[p].party == entry.party && session.members[p].state == Selected
          then session.members[p].(state := Transferring) else session.members[p]))
  }

  // ----- Session controller

  ghost function ExpireTransfers(db: Db, due: set<(SessionId, PlayerId)>): Db {
    db.(sessions := map s | s in db.sessions ::
      var session := db.sessions[s];
      var who := set p | p in InState(session.members, {Transferring}) && (s, p) in due;
      if session.state == InTransfer || session.state == Waiting
      then BumpIf(session.(members := MarkLeft(session.members, who)), who != {})
      else session)
  }

  ghost function ExpirePresence(db: Db, i: InstanceId, p: PlayerId): Db {
    if !EventSession(db, i) then db
    else
      var s := db.instances[i].session.value;
      var session := db.sessions[s];
      if p in ConnectedPlayers(session.members)
      then PutSession(db, s, Bump(session.(members := MarkLeft(session.members, {p})))) else db
  }

  /** Everybody expected is connected, so the session may wait for the game to start. */
  predicate AllArrived(db: Db, s: SessionId) {
    s in db.sessions && db.sessions[s].state == InTransfer && Active(db.sessions[s].members) != {} &&
    Active(db.sessions[s].members) == ConnectedPlayers(db.sessions[s].members)
  }

  /** The arrivals were counted by an earlier query; the update only asks for the state. */
  ghost function AdvanceWaiting(db: Db, s: SessionId): Db {
    if s in db.sessions && db.sessions[s].state == InTransfer
    then PutSession(db, s, db.sessions[s].(state := Waiting)) else db
  }

  ghost function CancelSession(db: Db, s: SessionId): Db {
    if s in db.sessions && Accepting(db.sessions[s].state)
    then PutSession(db, s, db.sessions[s].(state := Cancelled)) else db
  }

  predicate Lost(instance: Instance) {
    instance.lifecycle == InstanceFailed || (instance.lifecycle == Stopped && instance.failed)
  }

  predicate NeedsRecovery(db: Db, s: SessionId) {
    s in db.sessions && !Terminal(db.sessions[s].state) && db.sessions[s].instance.Some? &&
    db.sessions[s].instance.value in db.instances && Lost(db.instances[db.sessions[s].instance.value])
  }

  /** Back to waiting if nobody connected before the start, failed otherwise. */
  ghost function Recover(db: Db, s: SessionId): Db {
    if !NeedsRecovery(db, s) then db
    else
      var session := db.sessions[s];
      if Accepting(session.state) && ConnectedPlayers(session.members) == {}
      then PutSession(db, s, session.(
        state := WaitingForInstance, instance := None,
        members := Restate(session.members, Transferring, Selected)))
      else PutSession(db, s, session.(state := SessionFailed))
  }

  // ----- Plugin events

  /** Players a join or heartbeat would mark CONNECTED. */
  function Arriving(session: Session, players: set<PlayerId>): set<PlayerId> {
    set p | p in players && p in session.members && session.members[p].state != Connected
  }

  /** A join is a heartbeat with one player. */
  ghost function Heartbeat(db: Db, i: InstanceId, players: set<PlayerId>): Db {
    if !EventSession(db, i) then db
    else
      var s := db.instances[i].session.value;
      var session := db.sessions[s];
      var who := Arriving(session, players);
      if session.state == InTransfer || session.state == Waiting
      then PutSession(db, s, BumpIf(session.(members := MarkConnected(session.members, who)), who != {})) else db
  }

  ghost function PlayerLeft(db: Db, i: InstanceId, p: PlayerId): Db {
    if !EventSession(db, i) then db
    else
      var s := db.instances[i].session.value;
      var session := db.sessions[s];
      if p in Active(session.members)
      then PutSession(db, s, Bump(session.(members := MarkLeft(session.members, {p})))) else db
  }

  ghost function PlayerEliminated(db: Db, i: InstanceId, p: PlayerId): Db {
    if EventSession(db, i) && db.sessions[db.instances[i].session.value].state == GameRunning
    then PlayerLeft(db, i, p) else db
  }

  /** GAME_STARTING drops everybody who has not connected. */
  ghost function GameStart(db: Db, i: InstanceId, s: SessionId): Db {
    if !Bound(db, i, s) || !(db.sessions[s].state == InTransfer || db.sessions[s].state == Waiting) then db
    else
      var session := db.sessions[s];
      var who := InState(session.members, {Selected, Transferring});
      PutSession(db, s, BumpIf(session.(state := GameStarting, members := MarkLeft(session.members, who)), who != {}))
  }

  ghost function GameStarted(db: Db, i: InstanceId, s: SessionId): Db {
    if Bound(db, i, s) && db.sessions[s].state == GameStarting
    then PutSession(db, s, db.sessions[s].(state := GameRunning)) else db
  }

  ghost function GameFinished(db: Db, i: InstanceId, s: SessionId): Db {
    if Bound(db, i, s) && (db.sessions[s].state == GameStarting || db.sessions[s].state == GameRunning)
    then PutSession(db, s, db.sessions[s].(state := Finished)) else db
  }

  ghost function GameCancelled(db: Db, i: InstanceId, s: SessionId): Db {
    if !Bound(db, i, s) || db.sessions[s].state !in {InTransfer, Waiting, GameStarting, GameRunning} then db
    else
      var session := db.sessions[s];
      var who := InState(session.members, {Selected, Transferring});
      PutSession(db, s, BumpIf(session.(state := Cancelled, members := MarkLeft(session.members, who)), who != {}))
  }

  ghost function Acknowledge(db: Db, i: InstanceId, revision: nat): Db {
    if EventSession(db, i) && db.sessions[db.instances[i].session.value].revision == revision
    then
      var s := db.instances[i].session.value;
      PutSession(db, s, db.sessions[s].(acknowledged := Some(revision)))
    else db
  }

  // ----- Instances

  ghost function AddInstance(db: Db, i: InstanceId, group: GroupId): Db {
    if i in db.instances then db
    else PutInstance(db, i, Instance(group, Creating, false, None, false))
  }

  /** The guarded lifecycle updates of the instance, startup and maintenance services. */
  predicate MayMove(db: Db, i: InstanceId, to: Lifecycle) {
    i in db.instances &&
    var instance := db.instances[i];
    Follows(instance.lifecycle, to) &&
    (to == Draining && instance.reserved ==> EventSession(db, i) && Terminal(db.sessions[instance.session.value].state))
  }

  ghost function MoveInstance(db: Db, i: InstanceId, to: Lifecycle): Db {
    if MayMove(db, i, to)
    then PutInstance(db, i, db.instances[i].(
      lifecycle := to, failed := db.instances[i].failed || to == InstanceFailed))
    else db
  }

  // ----- Actions and runs

  datatype Action =
    | DoEnqueue(e: EntryId, group: GroupId, party: PartyId, players: set<PlayerId>)
    | DoLeaveParty(e: EntryId)
    | DoDisconnect(p: PlayerId, found: Option<EntryId>, first: SessionId)
    | DoOpenSession(s: SessionId, group: GroupId, createdAt: int)
    | DoAttach(e: EntryId, s: SessionId, inserted: bool)
    | DoDemote(s: SessionId)
    | DoAwaitInstance(s: SessionId)
    | DoReserve(s: SessionId, i: InstanceId)
    | DoBeginTicketTransfer(e: EntryId, s: SessionId)
    | DoExpireTransfers(due: set<(SessionId, PlayerId)>)
    | DoExpirePresence(i: InstanceId, p: PlayerId)
    | DoAdvanceWaiting(s: SessionId)
    | DoCancelSession(s: SessionId)
    | DoRecover(s: SessionId)
    | DoHeartbeat(i: InstanceId, players: set<PlayerId>)
    | DoPlayerLeft(i: InstanceId, p: PlayerId)
    | DoPlayerEliminated(i: InstanceId, p: PlayerId)
    | DoGameStart(i: InstanceId, s: SessionId)
    | DoGameStarted(i: InstanceId, s: SessionId)
    | DoGameFinished(i: InstanceId, s: SessionId)
    | DoGameCancelled(i: InstanceId, s: SessionId)
    | DoAcknowledge(i: InstanceId, revision: nat)
    | DoAddInstance(i: InstanceId, group: GroupId)
    | DoMoveInstance(i: InstanceId, to: Lifecycle)

  ghost function Apply(db: Db, a: Action): Db {
    match a
    case DoEnqueue(e, group, party, players) => Enqueue(db, e, group, party, players)
    case DoLeaveParty(e) => LeaveParty(db, e)
    case DoDisconnect(p, found, first) => Disconnect(db, p, found, first)
    case DoOpenSession(s, group, createdAt) => OpenSession(db, s, group, createdAt)
    case DoAttach(e, s, inserted) => Attach(db, e, s, inserted)
    case DoDemote(s) => Demote(db, s)
    case DoAwaitInstance(s) => AwaitInstance(db, s)
    case DoReserve(s, i) => Reserve(db, s, i)
    case DoBeginTicketTransfer(e, s) => BeginTicketTransfer(db, e, s)
    case DoExpireTransfers(due) => ExpireTransfers(db, due)
    case DoExpirePresence(i, p) => ExpirePresence(db, i, p)
    case DoAdvanceWaiting(s) => AdvanceWaiting(db, s)
    case DoCancelSession(s) => CancelSession(db, s)
    case DoRecover(s) => Recover(db, s)
    case DoHeartbeat(i, players) => Heartbeat(db, i, players)
    case DoPlayerLeft(i, p) => PlayerLeft(db, i, p)
    case DoPlayerEliminated(i, p) => PlayerEliminated(db, i, p)
    case DoGameStart(i, s) => GameStart(db, i, s)
    case DoGameStarted(i, s) => GameStarted(db, i, s)
    case DoGameFinished(i, s) => GameFinished(db, i, s)
    case DoGameCancelled(i, s) => GameCancelled(db, i, s)
    case DoAcknowledge(i, revision) => Acknowledge(db, i, revision)
    case DoAddInstance(i, group) => AddInstance(db, i, group)
    case DoMoveInstance(i, to) => MoveInstance(db, i, to)
  }

  ghost function Run(db: Db, actions: seq<Action>): Db {
    if actions == [] then db else Apply(Run(db, actions[..|actions| - 1]), actions[|actions| - 1])
  }

  ghost predicate At(db: Db, actions: seq<Action>, cond: (Db, Action) -> bool, k: nat)
    requires k < |actions|
  {
    cond(Run(db, actions[..k]), actions[k])
  }

  /** Each action of the run meets a condition in the state where it happens. */
  ghost predicate Along(db: Db, actions: seq<Action>, cond: (Db, Action) -> bool) {
    forall k: nat | k < |actions| :: At(db, actions, cond, k)
  }

  // ----- The return of players marked LEFT

  /** A join or heartbeat that the handler accepts. */
  predicate Reports(db: Db, a: Action) {
    a.DoHeartbeat? && EventSession(db, a.i) &&
    var state := db.sessions[db.instances[a.i].session.value].state;
    state == InTransfer || state == Waiting
  }

  function ReportedSession(db: Db, a: Action): (s: SessionId)
    requires Reports(db, a)
    ensures s in db.sessions
  {
    db.instances[a.i].session.value
  }

  /** The reported players that the session had given up on. */
  function Returning(db: Db, a: Action): set<PlayerId> {
    if !Reports(db, a) then {}
    else
      var members := db.sessions[ReportedSession(db, a)].members;
      set p | p in a.players && p in members && members[p].state == Left
  }

  /** Nobody who returns is queued or expected elsewhere by now. */
  ghost predicate NoneBusy(db: Db, a: Action) {
    forall p | p in Returning(db, a) :: !Busy(db, p)
  }

  /** There are as many free places as players who return. */
  ghost predicate PlacesFree(db: Db, a: Action) {
    Returning(db, a) != {} ==>
      var session := db.sessions[ReportedSession(db, a)];
      session.group in db.policies ==>
        |Active(session.members)| + |Returning(db, a)| <= db.policies[session.group].maximumPlayers
  }

  /** Those of `who` that came with ticket e. */
  function PartOf(members: Members, who: set<PlayerId>, e: EntryId): set<PlayerId> {
    set p | p in who && p in members && members[p].entry == e
  }

  /** ids enumerates the tickets that have expected players or players in `who`. */
  ghost predicate TicketsWith(members: Members, who: set<PlayerId>, ids: seq<EntryId>) {
    && Distinct(ids)
    && (forall e :: e in ids <==> Ticket(members, e) != {} || PartOf(members, who, e) != {})
  }

  /** The size of each ticket, grown by the players who return to it. */
  ghost function GrownSizes(members: Members, who: set<PlayerId>, ids: seq<EntryId>): seq<int> {
    seq(|ids|, i requires 0 <= i < |ids| => |Ticket(members, ids[i])| + |PartOf(members, who, ids[i])|)
  }

  /** The grown tickets can still be put whole into the teams. */
  ghost predicate TeamsFree(db: Db, a: Action) {
    Returning(db, a) != {} ==>
      var session := db.sessions[ReportedSession(db, a)];
      session.group in db.policies && db.policies[session.group].teamCount >= 0 ==>
        exists ids ::
          TicketsWith(session.members, Returning(db, a), ids) &&
          Assignable(GrownSizes(session.members, Returning(db, a), ids),
                     db.policies[session.group].teamCount, db.policies[session.group].teamSize)
  }

  /** Nobody who returns had the whole ticket cancelled. */
  ghost predicate TicketsHeld(db: Db, a: Action) {
    forall p | p in Returning(db, a) ::
      var e := db.sessions[ReportedSession(db, a)].members[p].entry;
      e in db.entries && db.entries[e].state == EntrySelected
  }

  /** Leaving alone, on a disconnect, takes the player out of one session at most. */
  ghost predicate LeavesOneSession(db: Db, a: Action) {
    a.DoDisconnect? && !CancelsFound(db, a.p, a.found) && PlaysIn(db, a.first, a.p) ==>
      forall s :: PlaysIn(db, s, a.p) ==> s == a.first
  }

  ghost predicate SafeReturn(db: Db, a: Action) {
    NoneBusy(db, a) && PlacesFree(db, a) && TeamsFree(db, a) && TicketsHeld(db, a)
  }
}
