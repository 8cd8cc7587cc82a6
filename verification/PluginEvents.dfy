/**
 Events that a game server reports (orchestrator/src/services/instance-controller.ts):
 which of them are refused, what the others do, and what happens when one is
 delivered again. The life of a session, over every run of all services.
 */
module PluginEvents {
  import opened Basics
  import opened Lifecycles
  import opened Tables
  import opened Protocol
  import opened MatchmakingSteps
  import opened MatchmakingSafety

  datatype Event =
    | Joins(p: PlayerId, session: Option<SessionId>)
    | Departs(p: PlayerId, session: Option<SessionId>)
    | IsEliminated(p: PlayerId, s: SessionId)
    | Beats(players: seq<PlayerId>)
    | Starts(s: SessionId)
    | Runs(s: SessionId)
    | Cancels(s: SessionId)
    | Finishes(s: SessionId)

  // ----- The life of a session

  /** Lobby, start, game, over. */
  ghost function Phase(state: SessionState): nat {
    match state
    case GameStarting => 1
    case GameRunning => 2
    case _ => if Terminal(state) then 3 else 0
  }

  /** The step that may take a session from one state to another. */
  ghost predicate Turns(a: Action, from: SessionState, to: SessionState) {
    match a
    case DoLeaveParty(_) => !Terminal(from) && (to == Cancelled || (from == WaitingForInstance && to == Forming))
    case DoDisconnect(_, _, _) => !Terminal(from) && (to == Cancelled || (from == WaitingForInstance && to == Forming))
    case DoDemote(_) => from == WaitingForInstance && to == Forming
    case DoAwaitInstance(_) => from == Forming && to == WaitingForInstance
    case DoReserve(_, _) => (from == Forming || from == WaitingForInstance) && to == InTransfer
    case DoAdvanceWaiting(_) => from == InTransfer && to == Waiting
    case DoCancelSession(_) => Accepting(from) && to == Cancelled
    case DoRecover(_) => !Terminal(from) && (to == SessionFailed || (Accepting(from) && to == WaitingForInstance))
    case DoGameStart(_, _) => (from == InTransfer || from == Waiting) && to == GameStarting
    case DoGameStarted(_, _) => from == GameStarting && to == GameRunning
    case DoGameFinished(_, _) => (from == GameStarting || from == GameRunning) && to == Finished
    case DoGameCancelled(_, _) => from in {InTransfer, Waiting, GameStarting, GameRunning} && to == Cancelled
    case _ => false
  }

  lemma LeavingTurns(db: Db, a: Action, s: SessionId)
    requires a.DoLeaveParty? || a.DoDisconnect?
    requires RowsOk(db) && s in db.sessions
    ensures var after := Apply(db, a).sessions;
            s in after && (after[s].state == db.sessions[s].state || Turns(a, db.sessions[s].state, after[s].state))
  {
    var e := if a.DoLeaveParty? then a.e else if a.found.Some? then a.found.value else 0;
    if e in db.entries {
      assert EntryOk(db, e);
    }
  }

  /** A session changes its state by the steps of the table alone. */
  lemma StateTurns(db: Db, a: Action, s: SessionId)
    requires RowsOk(db) && s in db.sessions
    ensures var after := Apply(db, a).sessions;
            s in after && (after[s].state == db.sessions[s].state || Turns(a, db.sessions[s].state, after[s].state))
  {
    if a.DoLeaveParty? || a.DoDisconnect? {
      LeavingTurns(db, a, s);
    }
  }

  /** A game that began never goes back to its lobby, and a session that is over stays as it ended, whatever happens. */
  lemma {:induction false} LifeIsForward(db: Db, actions: seq<Action>, s: SessionId)
    requires RowsOk(db) && s in db.sessions
    ensures s in Run(db, actions).sessions
    ensures var before, after := db.sessions[s].state, Run(db, actions).sessions[s].state;
            Phase(before) <= Phase(after) && (Terminal(before) ==> after == before)
  {
    if actions != [] {
      var n := |actions| - 1;
      LifeIsForward(db, actions[..n], s);
      RunKeepsRows(db, actions[..n]);
      StateTurns(Run(db, actions[..n]), actions[n], s);
    }
  }

  // ----- Which events are accepted

  /** The instance exists and, if the event names a session, is assigned to that one. */
  predicate IsCurrent(db: Db, i: InstanceId, session: Option<SessionId>) {
    i in db.instances && (session.Some? ==> db.instances[i].session == session)
  }

  predicate GameEvent(event: Event) {
    event.Starts? || event.Runs? || event.Cancels? || event.Finishes?
  }

  /** A game event is valid in the states it leads out of, and once more in the state it leads to. */
  ghost predicate Accepts(db: Db, i: InstanceId, event: Event) {
    match event
    case Joins(_, session) => IsCurrent(db, i, session)
    case Departs(_, session) => IsCurrent(db, i, session)
    case IsEliminated(p, s) =>
      IsCurrent(db, i, Some(s)) && s in db.sessions && p in db.sessions[s].members && db.sessions[s].state == GameRunning
    case Beats(_) => i in db.instances
    case Starts(s) => Bound(db, i, s) && db.sessions[s].state in {InTransfer, Waiting, GameStarting}
    case Runs(s) => Bound(db, i, s) && db.sessions[s].state in {GameStarting, GameRunning}
    case Cancels(s) => Bound(db, i, s) && db.sessions[s].state in {InTransfer, Waiting, GameStarting, GameRunning, Cancelled}
    case Finishes(s) => Bound(db, i, s) && db.sessions[s].state in {GameStarting, GameRunning, Finished}
  }

  /** The steps of an event; a cancellation begins to drain the instance again, a finished game does not. */
  ghost function StepsOf(db: Db, i: InstanceId, event: Event): seq<Action> {
    if !Accepts(db, i, event) then []
    else
      match event
      case Joins(p, _) => [DoHeartbeat(i, {p})]
      case Departs(p, _) => [DoPlayerLeft(i, p)]
      case IsEliminated(p, _) => [DoPlayerEliminated(i, p)]
      case Beats(players) => [DoHeartbeat(i, Elements(players))]
      case Starts(s) => [DoGameStart(i, s)]
      case Runs(s) => [DoGameStarted(i, s)]
      case Cancels(s) => [DoGameCancelled(i, s), DoMoveInstance(i, Draining)]
      case Finishes(s) =>
        if db.sessions[s].state == Finished then [] else [DoGameFinished(i, s), DoMoveInstance(i, Draining)]
  }

  ghost function Outcome(db: Db, i: InstanceId, event: Event): Db {
    if !Accepts(db, i, event) then db
    else
      match event
      case Joins(p, _) => Heartbeat(db, i, {p})
      case Departs(p, _) => PlayerLeft(db, i, p)
      case IsEliminated(p, _) => PlayerEliminated(db, i, p)
      case Beats(players) => Heartbeat(db, i, Elements(players))
      case Starts(s) => GameStart(db, i, s)
      case Runs(s) => GameStarted(db, i, s)
      case Cancels(s) => MoveInstance(GameCancelled(db, i, s), i, Draining)
      case Finishes(s) =>
        if db.sessions[s].state == Finished then db else MoveInstance(GameFinished(db, i, s), i, Draining)
  }

  lemma RunOne(db: Db, a: Action)
    ensures Run(db, [a]) == Apply(db, a)
  {
    assert [a][..0] == [];
  }

  lemma RunThenDrain(db: Db, a: Action, i: InstanceId)
    ensures Run(db, [a, DoMoveInstance(i, Draining)]) == MoveInstance(Apply(db, a), i, Draining)
  {
    RunOne(db, a);
    assert [a, DoMoveInstance(i, Draining)][..1] == [a];
  }

  lemma PlayerEventIsARun(db: Db, i: InstanceId, event: Event)
    requires !GameEvent(event) && Accepts(db, i, event)
    ensures Outcome(db, i, event) == Run(db, StepsOf(db, i, event))
  {
    match event {
      case Joins(p, _) => RunOne(db, DoHeartbeat(i, {p}));
      case Departs(p, _) => RunOne(db, DoPlayerLeft(i, p));
      case IsEliminated(p, _) => RunOne(db, DoPlayerEliminated(i, p));
      case Beats(players) => RunOne(db, DoHeartbeat(i, Elements(players)));
    }
  }

  lemma StartIsARun(db: Db, i: InstanceId, event: Event)
    requires (event.Starts? || event.Runs?) && Accepts(db, i, event)
    ensures Outcome(db, i, event) == Run(db, StepsOf(db, i, event))
  {
    if event.Starts? {
      RunOne(db, DoGameStart(i, event.s));
    } else {
      RunOne(db, DoGameStarted(i, event.s));
    }
  }

  lemma CancellationIsARun(db: Db, i: InstanceId, s: SessionId)
    requires Accepts(db, i, Cancels(s))
    ensures Outcome(db, i, Cancels(s)) == Run(db, StepsOf(db, i, Cancels(s)))
  {
    RunThenDrain(db, DoGameCancelled(i, s), i);
  }

  lemma FinishIsARun(db: Db, i: InstanceId, s: SessionId)
    requires Accepts(db, i, Finishes(s))
    ensures Outcome(db, i, Finishes(s)) == Run(db, StepsOf(db, i, Finishes(s)))
  {
    RunThenDrain(db, DoGameFinished(i, s), i);
  }

  lemma OutcomeIsARun(db: Db, i: InstanceId, event: Event)
    ensures Outcome(db, i, event) == Run(db, StepsOf(db, i, event))
  {
    if Accepts(db, i, event) {
      match event {
        case Starts(_) => StartIsARun(db, i, event);
        case Runs(_) => StartIsARun(db, i, event);
        case Cancels(s) => CancellationIsARun(db, i, s);
        case Finishes(s) => FinishIsARun(db, i, s);
        case _ => PlayerEventIsARun(db, i, event);
      }
    }
  }

  // ----- What an event means

  ghost predicate OnlyRow(before: Db, after: Db, s: SessionId) {
    && after.policies == before.policies && after.entries == before.entries
    && after.sessions.Keys == before.sessions.Keys
    && forall t | t in before.sessions && t != s :: after.sessions[t] == before.sessions[t]
  }

  /** These are expected, and these connected; a change of either gives a new revision that nobody acknowledged. */
  ghost predicate NowHas(a: Session, b: Session, expected: set<PlayerId>, connected: set<PlayerId>) {
    && Active(b.members) == expected && ConnectedPlayers(b.members) == connected
    && b.members.Keys == a.members.Keys && b.group == a.group && b.instance == a.instance && b.createdAt == a.createdAt
    && if expected == Active(a.members) && connected == ConnectedPlayers(a.members)
       then b.revision == a.revision && b.acknowledged == a.acknowledged
       else b.revision == a.revision + 1 && b.acknowledged == None
  }

  /** Before the game starts, reported members are expected and connected; later, or without a session, nothing happens. */
  ghost predicate Arrive(before: Db, after: Db, i: InstanceId, who: set<PlayerId>) {
    if EventSession(before, i) && before.sessions[before.instances[i].session.value].state in {InTransfer, Waiting}
    then
      var s := before.instances[i].session.value;
      OnlyRow(before, after, s) && after.instances == before.instances &&
      var a, b := before.sessions[s], after.sessions[s];
      var here := who * a.members.Keys;
      b.state == a.state && NowHas(a, b, Active(a.members) + here, ConnectedPlayers(a.members) + here)
    else after == before
  }

  ghost predicate Depart(before: Db, after: Db, i: InstanceId, p: PlayerId) {
    if EventSession(before, i)
    then
      var s := before.instances[i].session.value;
      OnlyRow(before, after, s) && after.instances == before.instances &&
      var a, b := before.sessions[s], after.sessions[s];
      b.state == a.state && NowHas(a, b, Active(a.members) - {p}, ConnectedPlayers(a.members) - {p})
    else after == before
  }

  /** The session gets this state, with everybody or only the connected; one that has it already stays as it is. */
  ghost predicate Turned(before: Db, after: Db, s: SessionId, state: SessionState, onlyConnected: bool) {
    && s in before.sessions && OnlyRow(before, after, s)
    && var a, b := before.sessions[s], after.sessions[s];
       if a.state == state then b == a
       else
         var connected := ConnectedPlayers(a.members);
         b.state == state && NowHas(a, b, if onlyConnected then connected else Active(a.members), connected)
  }

  /** The instance drains if it was running; no other instance changes. */
  ghost predicate Drained(before: Db, after: Db, i: InstanceId) {
    && i in before.instances && after.instances.Keys == before.instances.Keys
    && (forall j | j in before.instances && j != i :: after.instances[j] == before.instances[j])
    && after.instances[i] ==
       if before.instances[i].lifecycle == Running then before.instances[i].(lifecycle := Draining) else before.instances[i]
  }

  ghost predicate Meaning(before: Db, after: Db, i: InstanceId, event: Event) {
    match event
    case Joins(p, _) => Arrive(before, after, i, {p})
    case Departs(p, _) => Depart(before, after, i, p)
    case IsEliminated(p, _) => Depart(before, after, i, p)
    case Beats(players) => Arrive(before, after, i, Elements(players))
    case Starts(s) => Turned(before, after, s, GameStarting, true) && after.instances == before.instances
    case Runs(s) => Turned(before, after, s, GameRunning, false) && after.instances == before.instances
    case Cancels(s) => Turned(before, after, s, Cancelled, true) && Drained(before, after, i)
    case Finishes(s) =>
      if s in before.sessions && before.sessions[s].state == Finished then after == before
      else Turned(before, after, s, Finished, false) && Drained(before, after, i)
  }

  lemma ArrivalMeans(db: Db, i: InstanceId, who: set<PlayerId>)
    ensures Arrive(db, Heartbeat(db, i, who), i, who)
  {
    if EventSession(db, i) && db.sessions[db.instances[i].session.value].state in {InTransfer, Waiting} {
      var session := db.sessions[db.instances[i].session.value];
      var arriving := Arriving(session, who);
      MarkConnectedMeans(session.members, arriving);
      var here := who * session.members.Keys;
      assert Active(session.members) + arriving == Active(session.members) + here;
      assert ConnectedPlayers(session.members) + arriving == ConnectedPlayers(session.members) + here;
      if arriving != {} {
        var p := Witness(arriving);
        assert p in here && p !in ConnectedPlayers(session.members);
      }
    }
  }

  lemma DepartureMeans(db: Db, i: InstanceId, p: PlayerId)
    ensures Depart(db, PlayerLeft(db, i, p), i, p)
  {
    if EventSession(db, i) {
      MarkLeftMeans(db.sessions[db.instances[i].session.value].members, {p});
    }
  }

  lemma DroppingMeans(a: Session, state: SessionState)
    requires a.state != state
    ensures
      var who := InState(a.members, {Selected, Transferring});
      var b := BumpIf(a.(state := state, members := MarkLeft(a.members, who)), who != {});
      b.state == state && NowHas(a, b, ConnectedPlayers(a.members), ConnectedPlayers(a.members))
  {
    var who := InState(a.members, {Selected, Transferring});
    MarkLeftMeans(a.members, who);
    assert forall p | p in a.members :: a.members[p].state in {Selected, Transferring, Connected, Left};
    assert Active(a.members) - who == ConnectedPlayers(a.members);
    if who != {} {
      var p := Witness(who);
      assert p in Active(a.members) && p !in ConnectedPlayers(a.members);
    }
  }

  lemma StartMeans(db: Db, i: InstanceId, s: SessionId)
    requires Accepts(db, i, Starts(s))
    ensures Turned(db, GameStart(db, i, s), s, GameStarting, true) && GameStart(db, i, s).instances == db.instances
  {
    if db.sessions[s].state != GameStarting {
      DroppingMeans(db.sessions[s], GameStarting);
    }
  }

  lemma CancellationMeans(db: Db, i: InstanceId, s: SessionId)
    requires Accepts(db, i, Cancels(s))
    ensures var after := MoveInstance(GameCancelled(db, i, s), i, Draining);
            Turned(db, after, s, Cancelled, true) && Drained(db, after, i)
  {
    if db.sessions[s].state != Cancelled {
      DroppingMeans(db.sessions[s], Cancelled);
    }
  }

  /** An accepted event does what it means, and one that is refused does nothing. */
  lemma OutcomeMeans(db: Db, i: InstanceId, event: Event)
    ensures if Accepts(db, i, event) then Meaning(db, Outcome(db, i, event), i, event) else Outcome(db, i, event) == db
  {
    if Accepts(db, i, event) {
      match event {
        case Joins(p, _) => ArrivalMeans(db, i, {p});
        case Departs(p, _) => DepartureMeans(db, i, p);
        case IsEliminated(p, _) => DepartureMeans(db, i, p);
        case Beats(players) => ArrivalMeans(db, i, Elements(players));
        case Starts(s) => StartMeans(db, i, s);
        case Runs(_) =>
        case Cancels(s) => CancellationMeans(db, i, s);
        case Finishes(_) =>
      }
    }
  }

  // ----- Events delivered again

  lemma ArrivingTwice(db: Db, i: InstanceId, who: set<PlayerId>)
    ensures Heartbeat(Heartbeat(db, i, who), i, who) == Heartbeat(db, i, who)
  {
    if EventSession(db, i) {
      var s := db.instances[i].session.value;
      var after := Heartbeat(db, i, who);
      if after.sessions[s].state == InTransfer || after.sessions[s].state == Waiting {
        var members := after.sessions[s].members;
        assert forall p | p in members && p in who :: members[p].state == Connected;
        assert Arriving(after.sessions[s], who) == {};
        SameMap(MarkConnected(members, {}), members);
        assert PutSession(after, s, after.sessions[s]) == after;
      }
    }
  }

  /** An event that is delivered twice in a row is accepted twice, and happens once. */
  lemma RepeatedEvent(db: Db, i: InstanceId, event: Event)
    requires Accepts(db, i, event)
    ensures Accepts(Outcome(db, i, event), i, event) && Outcome(Outcome(db, i, event), i, event) == Outcome(db, i, event)
  {
    match event {
      case Joins(p, _) => ArrivingTwice(db, i, {p});
      case Beats(players) => ArrivingTwice(db, i, Elements(players));
      case _ =>
    }
  }

  /** The phase an accepted game event leads to. */
  ghost function Reaches(event: Event): nat
    requires GameEvent(event)
  {
    match event
    case Starts(_) => 1
    case Runs(_) => 2
    case _ => 3
  }

  lemma GameEventReaches(db: Db, i: InstanceId, event: Event)
    requires GameEvent(event) && Accepts(db, i, event)
    ensures event.s in Outcome(db, i, event).sessions && Phase(Outcome(db, i, event).sessions[event.s].state) == Reaches(event)
  {
    OutcomeMeans(db, i, event);
  }

  lemma LateStepIsIgnored(db: Db, i: InstanceId, event: Event)
    requires GameEvent(event) && event.s in db.sessions && Phase(db.sessions[event.s].state) >= Reaches(event)
    ensures Outcome(db, i, event).sessions == db.sessions && Outcome(db, i, event).entries == db.entries
  {
  }

  /** A game event that was accepted once changes no session when it is delivered again, no matter how much later. */
  lemma LateGameEvent(db: Db, i: InstanceId, event: Event, actions: seq<Action>)
    requires RowsOk(db) && GameEvent(event) && Accepts(db, i, event)
    ensures var later := Run(Outcome(db, i, event), actions);
            Outcome(later, i, event).sessions == later.sessions && Outcome(later, i, event).entries == later.entries
  {
    var after := Outcome(db, i, event);
    OutcomeIsARun(db, i, event);
    RunKeepsRows(db, StepsOf(db, i, event));
    GameEventReaches(db, i, event);
    LifeIsForward(after, actions, event.s);
    LateStepIsIgnored(Run(after, actions), i, event);
  }

  /** That is not so for departures: delivered again after the player came back, it takes the player out once more. */
  lemma LateDeparture(db: Db, i: InstanceId, p: PlayerId)
    requires EventSession(db, i) && db.sessions[db.instances[i].session.value].state in {InTransfer, Waiting}
    requires p in db.sessions[db.instances[i].session.value].members
    ensures
      var s := db.instances[i].session.value;
      var back := Outcome(Outcome(db, i, Departs(p, Some(s))), i, Joins(p, Some(s)));
      && s in back.sessions && p in ConnectedPlayers(back.sessions[s].members)
      && s in Outcome(back, i, Departs(p, Some(s))).sessions
      && p !in Active(Outcome(back, i, Departs(p, Some(s))).sessions[s].members)
  {
    var s := db.instances[i].session.value;
    var gone := Outcome(db, i, Departs(p, Some(s)));
    var back := Outcome(gone, i, Joins(p, Some(s)));
    OutcomeMeans(db, i, Departs(p, Some(s)));
    OutcomeMeans(gone, i, Joins(p, Some(s)));
    OutcomeMeans(back, i, Departs(p, Some(s)));
  }

  // ----- The handlers

  /** Marking one more reported player. */
  lemma OneMoreArrives(session: Session, before: set<PlayerId>, p: PlayerId)
    ensures
      var marked := session.(members := MarkConnected(session.members, Arriving(session, before)));
      && MarkConnected(marked.members, Arriving(marked, {p})) == MarkConnected(session.members, Arriving(session, before + {p}))
      && (Arriving(session, before + {p}) != {} <==> Arriving(session, before) != {} || Arriving(marked, {p}) != {})
  {
    var marked := session.(members := MarkConnected(session.members, Arriving(session, before)));
    assert p in Arriving(session, before + {p}) <==> p in Arriving(session, before) || p in Arriving(marked, {p});
    assert Arriving(session, before + {p}) == Arriving(session, before) + Arriving(marked, {p});
    SameMap(MarkConnected(marked.members, Arriving(marked, {p})), MarkConnected(session.members, Arriving(session, before + {p})));
  }

  lemma NobodyArrives(tables: Db, i: InstanceId, who: set<PlayerId>)
    requires EventSession(tables, i)
    requires Arriving(tables.sessions[tables.instances[i].session.value], who) == {} ||
             tables.sessions[tables.instances[i].session.value].state !in {InTransfer, Waiting}
    ensures Heartbeat(tables, i, who) == tables
  {
    var s := tables.instances[i].session.value;
    SameMap(MarkConnected(tables.sessions[s].members, {}), tables.sessions[s].members);
    assert PutSession(tables, s, tables.sessions[s]) == tables;
  }

  class Handler {
    var db: Db

    constructor (tables: Db)
      ensures db == tables
    {
      db := tables;
    }

    /** The session of the instance, unless the event names another one. */
    method ValidateEventSession(i: InstanceId, named: Option<SessionId>) returns (valid: bool, session: Option<SessionId>)
      ensures valid == IsCurrent(db, i, named)
      ensures session == if valid && EventSession(db, i) then db.instances[i].session else None
    {
      if i !in db.instances || (named.Some? && named != db.instances[i].session) {
        return false, None;
      }
      session := db.instances[i].session;
      if session.Some? && session.value !in db.sessions {
        session := None;
      }
      return true, session;
    }

    method BumpAssignmentRevision(s: SessionId)
      requires s in db.sessions
      modifies this
      ensures db == PutSession(old(db), s, Bump(old(db).sessions[s]))
    {
      var session := db.sessions[s];
      db := PutSession(db, s, session.(revision := session.revision + 1, acknowledged := None));
    }

    /** The guarded update of one session_players row. */
    method MarkArrival(s: SessionId, p: PlayerId) returns (changed: bool)
      requires s in db.sessions
      modifies this
      ensures
        var session := old(db).sessions[s];
        if session.state in {InTransfer, Waiting} && Arriving(session, {p}) != {}
        then changed && db == PutSession(old(db), s, session.(members := MarkConnected(session.members, Arriving(session, {p}))))
        else !changed && db == old(db)
    {
      var session := db.sessions[s];
      changed := (session.state == InTransfer || session.state == Waiting) &&
        p in session.members && session.members[p].state != Connected;
      assert changed ==> p in Arriving(session, {p});
      if changed {
        db := PutSession(db, s, session.(members := session.members[p := session.members[p].(state := Connected)]));
        SameMap(session.members[p := session.members[p].(state := Connected)],
                MarkConnected(session.members, Arriving(session, {p})));
      }
    }

    method PlayerJoined(i: InstanceId, p: PlayerId, named: Option<SessionId>) returns (accepted: bool)
      modifies this
      ensures accepted == Accepts(old(db), i, Joins(p, named)) && db == Outcome(old(db), i, Joins(p, named))
    {
      var session;
      accepted, session := ValidateEventSession(i, named);
      if session.Some? {
        var changed := MarkArrival(session.value, p);
        if changed {
          BumpAssignmentRevision(session.value);
        } else {
          NobodyArrives(db, i, {p});
        }
      }
    }

    /** Every reported player is marked, and the revision advances once if any row changed. */
    method HeartbeatReported(i: InstanceId, players: seq<PlayerId>) returns (accepted: bool)
      modifies this
      ensures accepted == Accepts(old(db), i, Beats(players)) && db == Outcome(old(db), i, Beats(players))
    {
      var session;
      accepted, session := ValidateEventSession(i, None);
      if session.None? {
        return;
      }
      var s := session.value;
      ghost var start := db.sessions[s];
      ghost var open := start.state in {InTransfer, Waiting};
      var changed := false;
      SameMap(MarkConnected(start.members, {}), start.members);
      assert Arriving(start, Elements(players[..0])) == {};
      for k := 0 to |players|
        invariant s in db.sessions && db == PutSession(old(db), s, db.sessions[s])
        invariant changed <==> open && Arriving(start, Elements(players[..k])) != {}
        invariant db.sessions[s] ==
                  if open then start.(members := MarkConnected(start.members, Arriving(start, Elements(players[..k])))) else start
      {
        var marked := MarkArrival(s, players[k]);
        changed := changed || marked;
        OneMoreArrives(start, Elements(players[..k]), players[k]);
        assert Elements(players[..k + 1]) == Elements(players[..k]) + {players[k]};
      }
      assert players[..|players|] == players;
      if changed {
        BumpAssignmentRevision(s);
      } else {
        NobodyArrives(old(db), i, Elements(players));
      }
    }

    method MarkDeparture(s: SessionId, p: PlayerId)
      requires s in db.sessions
      modifies this
      ensures
        var session := old(db).sessions[s];
        db == if p in Active(session.members)
              then PutSession(old(db), s, Bump(session.(members := MarkLeft(session.members, {p})))) else old(db)
    {
      var session := db.sessions[s];
      if p in session.members && session.members[p].state != Left {
        db := PutSession(db, s, session.(members := session.members[p := session.members[p].(state := Left)]));
        SameMap(session.members[p := session.members[p].(state := Left)], MarkLeft(session.members, {p}));
        BumpAssignmentRevision(s);
      }
    }

    method PlayerLeft(i: InstanceId, p: PlayerId, named: Option<SessionId>) returns (accepted: bool)
      modifies this
      ensures accepted == Accepts(old(db), i, Departs(p, named)) && db == Outcome(old(db), i, Departs(p, named))
    {
      var session;
      accepted, session := ValidateEventSession(i, named);
      if session.Some? {
        MarkDeparture(session.value, p);
      }
    }

    /** Only a player of a running game can be eliminated. */
    method PlayerEliminated(i: InstanceId, p: PlayerId, s: SessionId) returns (accepted: bool)
      modifies this
      ensures accepted == Accepts(old(db), i, IsEliminated(p, s)) && db == Outcome(old(db), i, IsEliminated(p, s))
    {
      var valid, session := ValidateEventSession(i, Some(s));
      if !valid || session.None? || p !in db.sessions[s].members || db.sessions[s].state != GameRunning {
        return false;
      }
      MarkDeparture(s, p);
      return true;
    }

    /** Drops everybody who has not connected; the revision advances if that is anybody. */
    method DropUnconnected(s: SessionId)
      requires s in db.sessions
      modifies this
      ensures
        var session := old(db).sessions[s];
        var who := InState(session.members, {Selected, Transferring});
        db == PutSession(old(db), s, BumpIf(session.(members := MarkLeft(session.members, who)), who != {}))
    {
      var session := db.sessions[s];
      var removed := InState(session.members, {Selected, Transferring});
      db := PutSession(db, s, session.(members := map p | p in session.members ::
        if p in removed then session.members[p].(state := Left) else session.members[p]));
      if removed != {} {
        BumpAssignmentRevision(s);
      }
    }

    method SetSessionState(i: InstanceId, s: SessionId, running: bool) returns (accepted: bool)
      modifies this
      ensures var event := if running then Runs(s) else Starts(s);
              accepted == Accepts(old(db), i, event) && db == Outcome(old(db), i, event)
    {
      if !Bound(db, i, s) {
        return false;
      }
      var state := db.sessions[s].state;
      if state == if running then GameRunning else GameStarting {
        return true;
      }
      if !running {
        if state != InTransfer && state != Waiting {
          return false;
        }
        db := PutSession(db, s, db.sessions[s].(state := GameStarting));
        DropUnconnected(s);
        return true;
      }
      if state == GameStarting {
        db := PutSession(db, s, db.sessions[s].(state := GameRunning));
        return true;
      }
      return false;
    }

    /** A running instance drains if it is open or its session is over. */
    method BeginDrain(i: InstanceId) returns (draining: bool)
      modifies this
      ensures db == MoveInstance(old(db), i, Draining)
      ensures draining <==> MayMove(old(db), i, Draining)
    {
      draining := i in db.instances && db.instances[i].lifecycle == Running &&
        (!db.instances[i].reserved || (EventSession(db, i) && Terminal(db.sessions[db.instances[i].session.value].state)));
      if draining {
        db := PutInstance(db, i, db.instances[i].(lifecycle := Draining));
      }
    }

    /** The instance drains after a cancellation, and a repeated one tries that again. */
    method CancelSession(i: InstanceId, s: SessionId) returns (accepted: bool)
      modifies this
      ensures accepted == Accepts(old(db), i, Cancels(s)) && db == Outcome(old(db), i, Cancels(s))
    {
      if Bound(db, i, s) && db.sessions[s].state in {InTransfer, Waiting, GameStarting, GameRunning} {
        db := PutSession(db, s, db.sessions[s].(state := Cancelled));
        DropUnconnected(s);
      } else if !Bound(db, i, s) || db.sessions[s].state != Cancelled {
        return false;
      }
      var _ := BeginDrain(i);
      return true;
    }

    method FinishSession(i: InstanceId, s: SessionId) returns (accepted: bool)
      modifies this
      ensures accepted == Accepts(old(db), i, Finishes(s)) && db == Outcome(old(db), i, Finishes(s))
    {
      if !Bound(db, i, s) || db.sessions[s].state !in {GameStarting, GameRunning} {
        return Bound(db, i, s) && db.sessions[s].state == Finished;
      }
      db := PutSession(db, s, db.sessions[s].(state := Finished));
      var _ := BeginDrain(i);
      return true;
    }

    /** Records that the game server has the expected revision, if that still is the revision. */
    method AcknowledgeAssignment(i: InstanceId, revision: nat) returns (recorded: bool)
      modifies this
      ensures db == Acknowledge(old(db), i, revision)
      ensures recorded <==> EventSession(old(db), i) && old(db).sessions[old(db).instances[i].session.value].revision == revision
      ensures recorded ==>
                var s := old(db).instances[i].session.value;
                db == PutSession(old(db), s, old(db).sessions[s].(acknowledged := Some(revision)))
      ensures !recorded ==> db == old(db)
    {
      recorded := false;
      if EventSession(db, i) {
        var s := db.instances[i].session.value;
        if db.sessions[s].revision == revision {
          db := PutSession(db, s, db.sessions[s].(acknowledged := Some(revision)));
          recorded := true;
        }
      }
    }

    /** An event either is refused without a trace or does what it means; delivered again it would be accepted and do nothing. */
    method Handle(i: InstanceId, event: Event) returns (accepted: bool)
      modifies this
      ensures accepted == Accepts(old(db), i, event) && db == Outcome(old(db), i, event)
      ensures db == Run(old(db), StepsOf(old(db), i, event))
      ensures if accepted then Meaning(old(db), db, i, event) else db == old(db)
      ensures accepted ==> Accepts(db, i, event) && Outcome(db, i, event) == db
    {
      match event {
        case Joins(p, named) => accepted := PlayerJoined(i, p, named);
        case Departs(p, named) => accepted := PlayerLeft(i, p, named);
        case IsEliminated(p, s) => accepted := PlayerEliminated(i, p, s);
        case Beats(players) => accepted := HeartbeatReported(i, players);
        case Starts(s) => accepted := SetSessionState(i, s, false);
        case Runs(s) => accepted := SetSessionState(i, s, true);
        case Cancels(s) => accepted := CancelSession(i, s);
        case Finishes(s) => accepted := FinishSession(i, s);
      }
      OutcomeIsARun(old(db), i, event);
      OutcomeMeans(old(db), i, event);
      if accepted {
        RepeatedEvent(old(db), i, event);
      }
    }
  }
}
