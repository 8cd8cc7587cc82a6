/**
 What each action does to the rows: which steps leave everybody where they are,
 let players leave, or treat the assignment revision as a version number.
 */
module MatchmakingSteps {
  import opened Basics
  import opened Lifecycles
  import opened Tables
  import opened Protocol

  // ----- The revision as a version number

  /** Same revision, same expected and connected players; revisions never go back. */
  ghost predicate FaithfulRow(a: Session, b: Session) {
    && a.revision <= b.revision
    && (a.revision == b.revision ==>
          Active(a.members) == Active(b.members) && ConnectedPlayers(a.members) == ConnectedPlayers(b.members))
  }

  ghost predicate Faithful(before: Db, after: Db) {
    forall s | s in before.sessions :: s in after.sessions && FaithfulRow(before.sessions[s], after.sessions[s])
  }

  lemma FaithfulTransitive(a: Db, b: Db, c: Db)
    requires Faithful(a, b) && Faithful(b, c)
    ensures Faithful(a, c)
  {
    forall s | s in a.sessions ensures s in c.sessions && FaithfulRow(a.sessions[s], c.sessions[s]) {
      assert FaithfulRow(a.sessions[s], b.sessions[s]);
      assert FaithfulRow(b.sessions[s], c.sessions[s]);
    }
  }

  // ----- Quiet steps: nobody joins and nothing reopens; calm ones: nobody returns either

  ghost predicate QuietSession(a: Session, b: Session) {
    && b.group == a.group && b.instance == a.instance
    && (Terminal(a.state) ==> Terminal(b.state))
    && (b.state == Forming || b.state == WaitingForInstance ==> a.state == Forming || a.state == WaitingForInstance)
    && b.members.Keys == a.members.Keys
    && (forall p | p in b.members :: b.members[p].entry == a.members[p].entry)
    && (b.acknowledged == None || b.acknowledged == Some(b.revision) ||
        (b.acknowledged == a.acknowledged && b.revision == a.revision))
  }

  ghost predicate QuietEntry(a: Entry, b: Entry) {
    && b.group == a.group && b.players == a.players && b.session == a.session
    && (b.state == a.state || b.state == EntryLeft)
  }

  ghost predicate Quiet(before: Db, after: Db) {
    && after.policies == before.policies && after.instances == before.instances
    && after.entries.Keys == before.entries.Keys && after.sessions.Keys == before.sessions.Keys
    && (forall e | e in before.entries :: QuietEntry(before.entries[e], after.entries[e]))
    && (forall s | s in before.sessions :: QuietSession(before.sessions[s], after.sessions[s]))
  }

  ghost predicate CalmSession(a: Session, b: Session) {
    QuietSession(a, b) && Active(b.members) <= Active(a.members)
  }

  ghost predicate Calm(before: Db, after: Db) {
    && Quiet(before, after)
    && forall s | s in before.sessions :: CalmSession(before.sessions[s], after.sessions[s])
  }

  /** Replacing one session row by a calm successor is a calm step. */
  lemma PutCalm(db: Db, s: SessionId, row: Session)
    requires s in db.sessions && CalmSession(db.sessions[s], row)
    ensures Calm(db, PutSession(db, s, row))
    ensures FaithfulRow(db.sessions[s], row) ==> Faithful(db, PutSession(db, s, row))
  {
  }

  lemma MarkLeftMeans(members: Members, who: set<PlayerId>)
    ensures Active(MarkLeft(members, who)) == Active(members) - who
    ensures ConnectedPlayers(MarkLeft(members, who)) == ConnectedPlayers(members) - who
  {
  }

  /** Members leave a row whose revision is bumped if anybody was affected. */
  lemma LeavingIsCalm(a: Session, who: set<PlayerId>, b: Session)
    requires b.members == MarkLeft(a.members, who)
    requires b.group == a.group && b.instance == a.instance
    requires Terminal(a.state) ==> Terminal(b.state)
    requires b.state == Forming || b.state == WaitingForInstance ==> a.state == Forming || a.state == WaitingForInstance
    requires (b.revision == a.revision + 1 && b.acknowledged == None) ||
             (b.revision == a.revision && b.acknowledged == a.acknowledged && who !! Active(a.members))
    ensures CalmSession(a, b) && FaithfulRow(a, b)
  {
    MarkLeftMeans(a.members, who);
    assert ConnectedPlayers(a.members) <= Active(a.members);
  }

  lemma CancelTicketIsCalm(db: Db, e: EntryId)
    requires e in db.entries
    ensures Calm(db, CancelTicket(db, e)) && Faithful(db, CancelTicket(db, e))
  {
    var entry := db.entries[e];
    var after := CancelTicket(db, e);
    if entry.session.Some? && entry.session.value in db.sessions {
      var s := entry.session.value;
      var session := db.sessions[s];
      var who := Ticket(session.members, e);
      if who != {} && session.group in db.policies {
        LeavingIsCalm(session, who, after.sessions[s]);
      }
    }
  }

  lemma LeaveAloneIsCalm(db: Db, p: PlayerId, first: SessionId)
    ensures Calm(db, LeaveAlone(db, p, first))
  {
    var after := LeaveAlone(db, p, first);
    forall s | s in db.sessions ensures CalmSession(db.sessions[s], after.sessions[s]) {
      MarkLeftMeans(db.sessions[s].members, {p});
    }
  }

  /**
   Leaving every open session at once bumps one revision only: it is faithful
   exactly when the player was in no second open session.
   */
  lemma LeavingAloneIsFaithfulExactlyWhen(db: Db, p: PlayerId, first: SessionId)
    ensures Faithful(db, LeaveAlone(db, p, first)) <==> forall s :: PlaysIn(db, s, p) ==> s == first
  {
    var after := LeaveAlone(db, p, first);
    forall s | PlaysIn(db, s, p) && s != first ensures !Faithful(db, after) {
      MarkLeftMeans(db.sessions[s].members, {p});
      assert !FaithfulRow(db.sessions[s], after.sessions[s]);
    }
    if forall s :: PlaysIn(db, s, p) ==> s == first {
      forall s | s in db.sessions ensures FaithfulRow(db.sessions[s], after.sessions[s]) {
        if PlaysIn(db, s, p) {
          assert s == first;
        }
      }
    }
  }

  lemma ExpireTransfersIsCalm(db: Db, due: set<(SessionId, PlayerId)>)
    ensures Calm(db, ExpireTransfers(db, due)) && Faithful(db, ExpireTransfers(db, due))
  {
    var after := ExpireTransfers(db, due);
    forall s | s in db.sessions
      ensures CalmSession(db.sessions[s], after.sessions[s]) && FaithfulRow(db.sessions[s], after.sessions[s])
    {
      var session := db.sessions[s];
      if session.state == InTransfer || session.state == Waiting {
        var who := set p | p in InState(session.members, {Transferring}) && (s, p) in due;
        LeavingIsCalm(session, who, after.sessions[s]);
      }
    }
  }

  lemma DisconnectIsCalm(db: Db, p: PlayerId, found: Option<EntryId>, first: SessionId)
    ensures Calm(db, Disconnect(db, p, found, first))
    ensures Faithful(db, Disconnect(db, p, found, first)) <==> LeavesOneSession(db, DoDisconnect(p, found, first))
  {
    if CancelsFound(db, p, found) {
      CancelTicketIsCalm(db, found.value);
    } else if !((exists s :: PlaysIn(db, s, p)) && !PlaysIn(db, first, p)) {
      LeaveAloneIsCalm(db, p, first);
      LeavingAloneIsFaithfulExactlyWhen(db, p, first);
    }
  }

  /** One player or the unconnected players leave the session of an instance. */
  lemma PutLeavingIsCalm(db: Db, s: SessionId, who: set<PlayerId>, row: Session)
    requires s in db.sessions && row.members == MarkLeft(db.sessions[s].members, who)
    requires row.group == db.sessions[s].group && row.instance == db.sessions[s].instance
    requires Terminal(db.sessions[s].state) ==> Terminal(row.state)
    requires row.state == Forming || row.state == WaitingForInstance ==> row.state == db.sessions[s].state
    requires row.revision == db.sessions[s].revision + 1 && row.acknowledged == None
    ensures Calm(db, PutSession(db, s, row)) && Faithful(db, PutSession(db, s, row))
  {
    LeavingIsCalm(db.sessions[s], who, row);
    PutCalm(db, s, row);
  }

  lemma NobodyLeaves(members: Members)
    ensures MarkLeft(members, {}) == members
  {
  }

  /** GAME_STARTING and GAME_CANCELLED drop the unconnected. */
  lemma DroppingIsCalm(db: Db, s: SessionId, state: SessionState)
    requires s in db.sessions && !Terminal(db.sessions[s].state)
    requires state != Forming && state != WaitingForInstance
    ensures
      var session := db.sessions[s];
      var who := InState(session.members, {Selected, Transferring});
      var row := BumpIf(session.(state := state, members := MarkLeft(session.members, who)), who != {});
      Calm(db, PutSession(db, s, row)) && Faithful(db, PutSession(db, s, row))
  {
    var session := db.sessions[s];
    var who := InState(session.members, {Selected, Transferring});
    var row := BumpIf(session.(state := state, members := MarkLeft(session.members, who)), who != {});
    LeavingIsCalm(session, who, row);
    PutCalm(db, s, row);
  }

  // ----- Arrivals

  lemma MarkConnectedMeans(members: Members, who: set<PlayerId>)
    requires who <= members.Keys
    ensures Active(MarkConnected(members, who)) == Active(members) + who
    ensures ConnectedPlayers(MarkConnected(members, who)) == ConnectedPlayers(members) + who
  {
  }

  lemma HeartbeatIsFaithful(db: Db, i: InstanceId, players: set<PlayerId>)
    ensures Faithful(db, Heartbeat(db, i, players))
  {
    if EventSession(db, i) {
      var session := db.sessions[db.instances[i].session.value];
      MarkConnectedMeans(session.members, Arriving(session, players));
      if Arriving(session, players) == {} {
        assert MarkConnected(session.members, {}) == session.members;
      }
    }
  }

  /** A heartbeat brings back exactly the reported players that were marked LEFT. */
  lemma HeartbeatBringsBack(db: Db, i: InstanceId, players: set<PlayerId>)
    ensures
      var a, after := DoHeartbeat(i, players), Heartbeat(db, i, players);
      && Quiet(db, after) && after.entries == db.entries
      && (forall s | s in db.sessions ::
            after.sessions[s].state == db.sessions[s].state &&
            Active(after.sessions[s].members) ==
              Active(db.sessions[s].members) +
              if Reports(db, a) && s == ReportedSession(db, a) then Returning(db, a) else {})
  {
    var a := DoHeartbeat(i, players);
    if Reports(db, a) {
      var s := ReportedSession(db, a);
      var session := db.sessions[s];
      var who := Arriving(session, players);
      MarkConnectedMeans(session.members, who);
      assert Active(session.members) + who == Active(session.members) + Returning(db, a);
      var row := BumpIf(session.(members := MarkConnected(session.members, who)), who != {});
      assert row.members == MarkConnected(session.members, who);
      assert QuietSession(session, row);
      assert Heartbeat(db, i, players) == PutSession(db, s, row);
    }
  }

  /** It is calm exactly when nobody returns. */
  lemma HeartbeatIsCalm(db: Db, i: InstanceId, players: set<PlayerId>)
    ensures Calm(db, Heartbeat(db, i, players)) <==> Returning(db, DoHeartbeat(i, players)) == {}
  {
    var a, after := DoHeartbeat(i, players), Heartbeat(db, i, players);
    HeartbeatBringsBack(db, i, players);
    if Returning(db, a) != {} {
      var s := ReportedSession(db, a);
      var p := Witness(Returning(db, a));
      assert p in Active(after.sessions[s].members) && p !in Active(db.sessions[s].members);
      assert !CalmSession(db.sessions[s], after.sessions[s]);
    }
  }

  lemma RestateMeans(members: Members, from: MemberState, to: MemberState)
    requires from in {Selected, Transferring} && to in {Selected, Transferring}
    ensures Active(Restate(members, from, to)) == Active(members)
    ensures ConnectedPlayers(Restate(members, from, to)) == ConnectedPlayers(members)
  {
  }

  lemma BeginTicketTransferIsCalm(db: Db, e: EntryId, s: SessionId)
    ensures Calm(db, BeginTicketTransfer(db, e, s)) && Faithful(db, BeginTicketTransfer(db, e, s))
  {
    var after := BeginTicketTransfer(db, e, s);
    if !(e !in db.entries || s !in db.sessions || db.sessions[s].instance.None?) {
      assert Active(after.sessions[s].members) == Active(db.sessions[s].members);
      assert ConnectedPlayers(after.sessions[s].members) == ConnectedPlayers(db.sessions[s].members);
    }
  }

  // ----- One action

  lemma RestateSessionIsCalm(db: Db, s: SessionId, state: SessionState)
    ensures
      s in db.sessions &&
      (Terminal(db.sessions[s].state) ==> Terminal(state)) &&
      (state == Forming || state == WaitingForInstance ==>
         db.sessions[s].state == Forming || db.sessions[s].state == WaitingForInstance) ==>
        Calm(db, PutSession(db, s, db.sessions[s].(state := state))) &&
        Faithful(db, PutSession(db, s, db.sessions[s].(state := state)))
    ensures Calm(db, db) && Faithful(db, db)
  {
    if s in db.sessions &&
       (Terminal(db.sessions[s].state) ==> Terminal(state)) &&
       (state == Forming || state == WaitingForInstance ==>
          db.sessions[s].state == Forming || db.sessions[s].state == WaitingForInstance) {
      PutCalm(db, s, db.sessions[s].(state := state));
    }
  }

  lemma SessionStateStepsAreCalm(db: Db, s: SessionId)
    ensures Calm(db, Demote(db, s)) && Faithful(db, Demote(db, s))
    ensures Calm(db, AwaitInstance(db, s)) && Faithful(db, AwaitInstance(db, s))
    ensures Calm(db, AdvanceWaiting(db, s)) && Faithful(db, AdvanceWaiting(db, s))
    ensures Calm(db, CancelSession(db, s)) && Faithful(db, CancelSession(db, s))
  {
    RestateSessionIsCalm(db, s, Forming);
    RestateSessionIsCalm(db, s, WaitingForInstance);
    RestateSessionIsCalm(db, s, Waiting);
    RestateSessionIsCalm(db, s, Cancelled);
  }

  lemma GameStateStepsAreCalm(db: Db, i: InstanceId, s: SessionId)
    ensures Calm(db, GameStarted(db, i, s)) && Faithful(db, GameStarted(db, i, s))
    ensures Calm(db, GameFinished(db, i, s)) && Faithful(db, GameFinished(db, i, s))
  {
    RestateSessionIsCalm(db, s, GameRunning);
    RestateSessionIsCalm(db, s, Finished);
  }

  lemma AcknowledgeIsCalm(db: Db, i: InstanceId, revision: nat)
    ensures Calm(db, Acknowledge(db, i, revision)) && Faithful(db, Acknowledge(db, i, revision))
  {
    if EventSession(db, i) {
      var s := db.instances[i].session.value;
      if db.sessions[s].revision == revision {
        PutCalm(db, s, db.sessions[s].(acknowledged := Some(revision)));
      }
    }
  }

  lemma DeparturesAreCalm(db: Db, i: InstanceId, p: PlayerId)
    ensures Calm(db, ExpirePresence(db, i, p)) && Faithful(db, ExpirePresence(db, i, p))
    ensures Calm(db, PlayerLeft(db, i, p)) && Faithful(db, PlayerLeft(db, i, p))
  {
    if EventSession(db, i) {
      var s := db.instances[i].session.value;
      PutLeavingIsCalm(db, s, {p}, Bump(db.sessions[s].(members := MarkLeft(db.sessions[s].members, {p}))));
    }
  }

  lemma GameStartIsCalm(db: Db, i: InstanceId, s: SessionId)
    ensures Calm(db, GameStart(db, i, s)) && Faithful(db, GameStart(db, i, s))
  {
    if Bound(db, i, s) && (db.sessions[s].state == InTransfer || db.sessions[s].state == Waiting) {
      DroppingIsCalm(db, s, GameStarting);
    } else {
      RestateSessionIsCalm(db, s, GameStarting);
    }
  }

  lemma GameCancelledIsCalm(db: Db, i: InstanceId, s: SessionId)
    ensures Calm(db, GameCancelled(db, i, s)) && Faithful(db, GameCancelled(db, i, s))
  {
    if Bound(db, i, s) && db.sessions[s].state in {InTransfer, Waiting, GameStarting, GameRunning} {
      DroppingIsCalm(db, s, Cancelled);
    } else {
      RestateSessionIsCalm(db, s, Cancelled);
    }
  }

  predicate AddsOrReopens(a: Action) {
    a.DoEnqueue? || a.DoOpenSession? || a.DoAttach? || a.DoReserve? || a.DoRecover? || a.DoAddInstance? || a.DoMoveInstance?
  }

  predicate PluginEvent(a: Action) {
    a.DoHeartbeat? || a.DoPlayerLeft? || a.DoPlayerEliminated? || a.DoGameStart? || a.DoGameStarted? ||
    a.DoGameFinished? || a.DoGameCancelled? || a.DoAcknowledge?
  }

  lemma GameEventIsCalm(db: Db, a: Action)
    requires a.DoGameStart? || a.DoGameStarted? || a.DoGameFinished? || a.DoGameCancelled? || a.DoAcknowledge?
    ensures Calm(db, Apply(db, a)) && Faithful(db, Apply(db, a))
  {
    match a {
      case DoGameStart(i, s) => GameStartIsCalm(db, i, s);
      case DoGameStarted(i, s) => GameStateStepsAreCalm(db, i, s);
      case DoGameFinished(i, s) => GameStateStepsAreCalm(db, i, s);
      case DoGameCancelled(i, s) => GameCancelledIsCalm(db, i, s);
      case DoAcknowledge(i, revision) => AcknowledgeIsCalm(db, i, revision);
    }
  }

  /** No step but those that add or reopen is more than quiet; none but a heartbeat brings anybody back. */
  lemma QuietAction(db: Db, a: Action)
    requires !AddsOrReopens(a)
    ensures Quiet(db, Apply(db, a))
    ensures Calm(db, Apply(db, a)) <==> Returning(db, a) == {}
    ensures Faithful(db, Apply(db, a)) <==> LeavesOneSession(db, a)
  {
    if a.DoHeartbeat? {
      HeartbeatBringsBack(db, a.i, a.players);
      HeartbeatIsCalm(db, a.i, a.players);
      HeartbeatIsFaithful(db, a.i, a.players);
    } else if a.DoPlayerLeft? || a.DoPlayerEliminated? {
      DeparturesAreCalm(db, a.i, a.p);
    } else if PluginEvent(a) {
      GameEventIsCalm(db, a);
    } else {
      ServiceStepIsCalm(db, a);
    }
  }

  lemma ServiceStepIsCalm(db: Db, a: Action)
    requires !AddsOrReopens(a) && !PluginEvent(a)
    ensures Calm(db, Apply(db, a))
    ensures Faithful(db, Apply(db, a)) <==> LeavesOneSession(db, a)
  {
    match a {
      case DoLeaveParty(e) =>
        if ActiveEntry(db, e) && !db.entries[e].transferStarted {
          CancelTicketIsCalm(db, e);
        }
      case DoDisconnect(p, found, first) => DisconnectIsCalm(db, p, found, first);
      case DoBeginTicketTransfer(e, s) => BeginTicketTransferIsCalm(db, e, s);
      case DoExpireTransfers(due) => ExpireTransfersIsCalm(db, due);
      case DoExpirePresence(i, p) => DeparturesAreCalm(db, i, p);
      case DoDemote(s) => SessionStateStepsAreCalm(db, s);
      case DoAwaitInstance(s) => SessionStateStepsAreCalm(db, s);
      case DoAdvanceWaiting(s) => SessionStateStepsAreCalm(db, s);
      case DoCancelSession(s) => SessionStateStepsAreCalm(db, s);
    }
  }
}
