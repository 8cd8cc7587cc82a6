/**
 The stages of the session controller (orchestrator/src/services/session-controller.ts):
 each stage is a run of protocol actions, and reaches what it is for.
 */
module SessionController {
  import opened Basics
  import opened Lifecycles
  import opened Tables
  import opened Protocol
  import opened MatchmakingSteps
  import opened ReservationSafety
  import opened MatchmakingSafety

  /** Steps of this controller; none lets a player return. */
  predicate ControllerAction(a: Action) {
    a.DoExpireTransfers? || a.DoExpirePresence? || a.DoAdvanceWaiting? || a.DoCancelSession? || a.DoRecover? ||
    (a.DoMoveInstance? && a.to in {Draining, Stopping, Stopped})
  }

  ghost predicate Stepped(start: Db, now: Db, actions: seq<Action>) {
    now == Run(start, actions) && forall k | 0 <= k < |actions| :: ControllerAction(actions[k])
  }

  lemma SteppedBy(start: Db, mid: Db, now: Db, actions: seq<Action>, a: Action)
    requires Stepped(start, mid, actions) && ControllerAction(a) && now == Apply(mid, a)
    ensures Stepped(start, now, actions + [a])
  {
    assert (actions + [a])[..|actions + [a]| - 1] == actions;
  }

  lemma SteppedThen(start: Db, mid: Db, now: Db, a: seq<Action>, b: seq<Action>)
    requires Stepped(start, mid, a) && Stepped(mid, now, b)
    ensures Stepped(start, now, a + b)
  {
    RunSplit(start, a, b);
  }

  lemma SteppedKeeps(start: Db, now: Db, actions: seq<Action>)
    requires Stepped(start, now, actions)
    ensures Faithful(start, now)
    ensures (Reservations(start) ==> Reservations(now)) && (Inv(start) ==> Inv(now))
  {
    RunIsFaithful(start, actions);
    if Reservations(start) {
      RunKeepsReservations(start, actions);
    }
    if Inv(start) {
      SafeRunKeeps(start, actions);
    }
  }

  predicate InLobby(state: SessionState) {
    state == InTransfer || state == Waiting
  }

  /** A member whose transfer deadline is among `due`. */
  predicate Overdue(db: Db, due: set<(SessionId, PlayerId)>, s: SessionId, p: PlayerId) {
    s in db.sessions && InLobby(db.sessions[s].state) && p in db.sessions[s].members &&
    db.sessions[s].members[p].state == Transferring && (s, p) in due
  }

  function OverdueIn(db: Db, due: set<(SessionId, PlayerId)>, s: SessionId): set<PlayerId>
    requires s in db.sessions
  {
    if InLobby(db.sessions[s].state)
    then set p | p in InState(db.sessions[s].members, {Transferring}) && (s, p) in due
    else {}
  }

  lemma NobodyOverdue(db: Db, due: set<(SessionId, PlayerId)>)
    ensures forall s, p :: !Overdue(Protocol.ExpireTransfers(db, due), due, s, p)
  {
    var after := Protocol.ExpireTransfers(db, due);
    forall s, p | s in db.sessions && p in OverdueIn(db, due, s) ensures !Overdue(after, due, s, p) {
      assert p in InState(db.sessions[s].members, {Transferring});
    }
    forall s, p | s in db.sessions && p !in OverdueIn(db, due, s) ensures !Overdue(after, due, s, p) {
    }
    forall s, p | s !in db.sessions ensures !Overdue(after, due, s, p) {
    }
  }

  /** A transfer that its deadline ended. */
  predicate TransferOver(db: Db, s: SessionId, p: PlayerId) {
    s in db.sessions && (db.sessions[s].state == InTransfer || db.sessions[s].state == Waiting) &&
    p in db.sessions[s].members && db.sessions[s].members[p].state == Transferring
  }

  function TransfersOver(db: Db, due: set<(SessionId, PlayerId)>): set<(SessionId, PlayerId)> {
    set sp | sp in due && TransferOver(db, sp.0, sp.1)
  }

  lemma TransfersLeave(db: Db, due: set<(SessionId, PlayerId)>)
    ensures OnlyLeft(db, Protocol.ExpireTransfers(db, due), TransfersOver(db, due))
  {
    var after := Protocol.ExpireTransfers(db, due);
    forall s | s in db.sessions ensures RowLeft(db.sessions[s], after.sessions[s], s, TransfersOver(db, due)) {
      NobodyLeaves(db.sessions[s].members);
    }
  }

  /** A connected player of the instance's session whose presence went stale. */
  predicate PresenceOver(db: Db, i: InstanceId, p: PlayerId) {
    EventSession(db, i) && p in db.sessions[db.instances[i].session.value].members &&
    db.sessions[db.instances[i].session.value].members[p].state == Connected
  }

  function PresencesOver(db: Db, expired: seq<(InstanceId, PlayerId)>): set<(SessionId, PlayerId)> {
    set k | 0 <= k < |expired| && PresenceOver(db, expired[k].0, expired[k].1) ::
      (db.instances[expired[k].0].session.value, expired[k].1)
  }

  /** Exactly these members left; apart from revisions nothing else changed. */
  ghost predicate OnlyLeft(before: Db, now: Db, gone: set<(SessionId, PlayerId)>) {
    && now == before.(sessions := now.sessions) && now.sessions.Keys == before.sessions.Keys
    && forall s | s in before.sessions :: RowLeft(before.sessions[s], now.sessions[s], s, gone)
  }

  ghost predicate RowLeft(a: Session, b: Session, s: SessionId, gone: set<(SessionId, PlayerId)>) {
    && b == a.(members := b.members, revision := b.revision, acknowledged := b.acknowledged)
    && b.members.Keys == a.members.Keys
    && forall p | p in a.members :: b.members[p] == if (s, p) in gone then a.members[p].(state := Left) else a.members[p]
  }

  lemma OnlyLeftThen(a: Db, b: Db, c: Db, first: set<(SessionId, PlayerId)>, second: set<(SessionId, PlayerId)>)
    requires OnlyLeft(a, b, first) && OnlyLeft(b, c, second)
    ensures OnlyLeft(a, c, first + second)
  {
    forall s | s in a.sessions ensures RowLeft(a.sessions[s], c.sessions[s], s, first + second) {
      assert RowLeft(a.sessions[s], b.sessions[s], s, first) && RowLeft(b.sessions[s], c.sessions[s], s, second);
    }
  }

  /** One observation more: somebody who left before is not connected any more. */
  lemma PresenceOneMore(before: Db, mid: Db, now: Db, expired: seq<(InstanceId, PlayerId)>, k: nat)
    requires k < |expired| && OnlyLeft(before, mid, PresencesOver(before, expired[..k]))
    requires OnlyLeft(mid, now, PresencesOver(mid, [expired[k]]))
    ensures OnlyLeft(before, now, PresencesOver(before, expired[..k + 1]))
  {
    var (i, p) := expired[k];
    var first, second := PresencesOver(before, expired[..k]), PresencesOver(mid, [expired[k]]);
    var all := PresencesOver(before, expired[..k + 1]);
    assert expired[..k + 1] == expired[..k] + [expired[k]];
    OnlyLeftThen(before, mid, now, first, second);
    forall sp ensures sp in all <==> sp in first || (PresenceOver(before, i, p) && sp == (before.instances[i].session.value, p)) {
      if PresenceOver(before, i, p) && sp == (before.instances[i].session.value, p) {
        assert expired[..k + 1][k] == (i, p);
      }
      if sp in first {
        var j :| 0 <= j < k && PresenceOver(before, expired[..k][j].0, expired[..k][j].1) &&
          sp == (before.instances[expired[..k][j].0].session.value, expired[..k][j].1);
        assert expired[..k + 1][j] == expired[..k][j];
      }
      if sp in all {
        var j :| 0 <= j < k + 1 && PresenceOver(before, expired[..k + 1][j].0, expired[..k + 1][j].1) &&
          sp == (before.instances[expired[..k + 1][j].0].session.value, expired[..k + 1][j].1);
        assert j < k ==> expired[..k][j] == expired[..k + 1][j];
      }
    }
    PresenceOne(mid, i, p);
    forall sp ensures sp in all <==> sp in first + second {
      if EventSession(before, i) {
        var s := before.instances[i].session.value;
        assert RowLeft(before.sessions[s], mid.sessions[s], s, first);
      }
    }
    assert all == first + second;
  }

  lemma PresenceOne(db: Db, i: InstanceId, p: PlayerId)
    ensures PresencesOver(db, [(i, p)]) ==
              if PresenceOver(db, i, p) then {(db.instances[i].session.value, p)} else {}
  {
    var one := [(i, p)];
    assert one[0] == (i, p);
    if PresenceOver(db, i, p) {
      assert (db.instances[i].session.value, p) in PresencesOver(db, one) by {
        assert PresenceOver(db, one[0].0, one[0].1);
      }
    }
  }

  /** The session lost its instance before it was over. */
  ghost predicate InstanceIsLost(db: Db, row: Session) {
    && row.state !in {Finished, Cancelled, SessionFailed} && row.instance.Some? && row.instance.value in db.instances
    && var instance := db.instances[row.instance.value];
       instance.lifecycle == InstanceFailed || (instance.lifecycle == Stopped && instance.failed)
  }

  /** Before its start and with nobody connected a session waits for another instance; otherwise it has failed. */
  ghost function RecoveredRow(row: Session): Session {
    if row.state in {Forming, WaitingForInstance, InTransfer, Waiting} &&
       (forall p | p in row.members :: row.members[p].state != Connected)
    then row.(state := WaitingForInstance, instance := None, members := Restate(row.members, Transferring, Selected))
    else row.(state := SessionFailed)
  }

  ghost predicate AllRecovered(before: Db, now: Db) {
    && now == before.(sessions := now.sessions) && now.sessions.Keys == before.sessions.Keys
    && forall s | s in before.sessions ::
         now.sessions[s] ==
           if InstanceIsLost(before, before.sessions[s]) then RecoveredRow(before.sessions[s]) else before.sessions[s]
  }

  lemma RecoveryIsRecovered(db: Db, s: SessionId)
    requires s in db.sessions
    ensures NeedsRecovery(db, s) <==> InstanceIsLost(db, db.sessions[s])
    ensures NeedsRecovery(db, s) ==> Recover(db, s) == PutSession(db, s, RecoveredRow(db.sessions[s]))
  {
    NobodyConnected(db.sessions[s].members);
  }

  lemma NobodyConnected(members: Members)
    ensures ConnectedPlayers(members) == {} <==> forall p | p in members :: members[p].state != Connected
  {
    if ConnectedPlayers(members) == {} {
      forall p | p in members ensures members[p].state != Connected {
        assert p !in ConnectedPlayers(members);
      }
    } else {
      var p := Witness(ConnectedPlayers(members));
      assert p in members && members[p].state == Connected;
    }
  }

  /** Recovered as far as the loop got. */
  ghost predicate RecoveredBut(before: Db, now: Db, left: set<SessionId>) {
    && now == before.(sessions := now.sessions) && now.sessions.Keys == before.sessions.Keys
    && forall s | s in before.sessions ::
         if s in left then now.sessions[s] == before.sessions[s]
         else if NeedsRecovery(before, s) then now.sessions[s] == RecoveredRow(before.sessions[s])
         else now.sessions[s] == before.sessions[s]
  }

  lemma RecoveredOneMore(before: Db, mid: Db, now: Db, left: set<SessionId>, s: SessionId)
    requires RecoveredBut(before, mid, left) && s in left && NeedsRecovery(mid, s) && now == Recover(mid, s)
    ensures RecoveredBut(before, now, left - {s})
  {
    RecoveryIsRecovered(mid, s);
    assert NeedsRecovery(before, s);
  }

  lemma RecoveredAtLast(before: Db, now: Db)
    requires RecoveredBut(before, now, {})
    ensures AllRecovered(before, now)
  {
    forall s | s in before.sessions ensures NeedsRecovery(before, s) <==> InstanceIsLost(before, before.sessions[s]) {
      RecoveryIsRecovered(before, s);
    }
  }

  /** A running instance that is still reserved for a session that is over. */
  ghost predicate IsIdle(db: Db, i: InstanceId) {
    && i in db.instances && db.instances[i].lifecycle == Running && db.instances[i].reserved
    && db.instances[i].session.Some? && db.instances[i].session.value in db.sessions
    && db.sessions[db.instances[i].session.value].state in {Finished, Cancelled, SessionFailed}
  }

  ghost predicate AllReleased(before: Db, now: Db) {
    && now == before.(instances := now.instances) && now.instances.Keys == before.instances.Keys
    && forall i | i in before.instances ::
         now.instances[i] == if IsIdle(before, i) then before.instances[i].(lifecycle := Draining) else before.instances[i]
  }

  /** Released as far as the loop got. */
  ghost predicate ReleasedBut(before: Db, now: Db, left: set<InstanceId>) {
    && now == before.(instances := now.instances) && now.instances.Keys == before.instances.Keys
    && forall i | i in before.instances ::
         now.instances[i] ==
           if IsIdle(before, i) && i !in left then before.instances[i].(lifecycle := Draining) else before.instances[i]
  }

  /** The watchdog gives up a session that waited too long for an instance, or for its game to start. */
  predicate GivenUp(row: Session, acquisitionDue: bool, lobbyDue: bool) {
    (row.state == WaitingForInstance && acquisitionDue) || ((row.state == InTransfer || row.state == Waiting) && lobbyDue)
  }

  /** What the watchdog and the arrival check make of a session. */
  ghost predicate Advanced(before: Db, row: Session, s: SessionId, acquisitionDue: bool, lobbyDue: bool)
    requires s in before.sessions
  {
    row == if GivenUp(before.sessions[s], acquisitionDue, lobbyDue) then before.sessions[s].(state := Cancelled)
           else if AllArrived(before, s) then before.sessions[s].(state := Waiting)
           else before.sessions[s]
  }

  /** Only an instance of a session that was given up starts to drain, and one that is reserved for it does. */
  ghost predicate DrainsGivenUp(before: Db, now: Db, given: set<SessionId>) {
    && now.instances.Keys == before.instances.Keys
    && (forall i | i in before.instances && now.instances[i] != before.instances[i] ::
          before.instances[i].lifecycle == Running && now.instances[i] == before.instances[i].(lifecycle := Draining) &&
          exists s | s in given && s in before.sessions :: before.sessions[s].instance == Some(i))
    && forall s, i | s in given && Bound(before, i, s) ::
         before.instances[i].lifecycle == Running ==> now.instances[i].lifecycle == Draining
  }

  /** Every session, and nothing but sessions and the instances of those given up. */
  ghost predicate AllAdvanced(before: Db, now: Db, acquisitionDue: set<SessionId>, lobbyDue: set<SessionId>) {
    && now.entries == before.entries && now.policies == before.policies && now.sessions.Keys == before.sessions.Keys
    && (forall s | s in before.sessions :: Advanced(before, now.sessions[s], s, s in acquisitionDue, s in lobbyDue))
    && DrainsGivenUp(before, now,
         set s | s in before.sessions && GivenUp(before.sessions[s], s in acquisitionDue, s in lobbyDue))
  }

  /** The sessions that were looked at so far. */
  ghost predicate AdvancedBut(
      before: Db, now: Db, acquisitionDue: set<SessionId>, lobbyDue: set<SessionId>, left: set<SessionId>) {
    && now.entries == before.entries && now.policies == before.policies && now.sessions.Keys == before.sessions.Keys
    && (forall s | s in before.sessions ::
          if s in left then now.sessions[s] == before.sessions[s]
          else Advanced(before, now.sessions[s], s, s in acquisitionDue, s in lobbyDue))
    && DrainsGivenUp(before, now,
         set s | s in before.sessions && s !in left && GivenUp(before.sessions[s], s in acquisitionDue, s in lobbyDue))
  }

  /** One session more; `given` says that it was given up. */
  lemma AdvancedOneMore(before: Db, mid: Db, now: Db, acquisitionDue: set<SessionId>, lobbyDue: set<SessionId>,
                        left: set<SessionId>, s: SessionId)
    requires AdvancedBut(before, mid, acquisitionDue, lobbyDue, left) && s in left && s in before.sessions
    requires now.entries == mid.entries && now.policies == mid.policies && now.sessions.Keys == mid.sessions.Keys
    requires forall t | t in mid.sessions && t != s :: now.sessions[t] == mid.sessions[t]
    requires Advanced(mid, now.sessions[s], s, s in acquisitionDue, s in lobbyDue)
    requires DrainsGivenUp(mid, now, if GivenUp(mid.sessions[s], s in acquisitionDue, s in lobbyDue) then {s} else {})
    ensures AdvancedBut(before, now, acquisitionDue, lobbyDue, left - {s})
  {
    assert AllArrived(before, s) <==> AllArrived(mid, s);
    var first := set t | t in before.sessions && t !in left && GivenUp(before.sessions[t], t in acquisitionDue, t in lobbyDue);
    var second := if GivenUp(mid.sessions[s], s in acquisitionDue, s in lobbyDue) then {s} else {};
    DrainsCompose(before, mid, now, first, second);
    assert first + second ==
      set t | t in before.sessions && t !in left - {s} && GivenUp(before.sessions[t], t in acquisitionDue, t in lobbyDue);
  }

  lemma AdvancedAtLast(before: Db, now: Db, acquisitionDue: set<SessionId>, lobbyDue: set<SessionId>)
    requires AdvancedBut(before, now, acquisitionDue, lobbyDue, {})
    ensures AllAdvanced(before, now, acquisitionDue, lobbyDue)
    ensures forall s | s in now.sessions :: !AllArrived(now, s)
  {
    assert (set s | s in before.sessions && s !in {} && GivenUp(before.sessions[s], s in acquisitionDue, s in lobbyDue)) ==
           (set s | s in before.sessions && GivenUp(before.sessions[s], s in acquisitionDue, s in lobbyDue));
    forall s | s in now.sessions ensures !AllArrived(now, s) {
      assert Advanced(before, now.sessions[s], s, s in acquisitionDue, s in lobbyDue);
    }
  }

  lemma DrainsCompose(before: Db, mid: Db, now: Db, first: set<SessionId>, second: set<SessionId>)
    requires DrainsGivenUp(before, mid, first) && DrainsGivenUp(mid, now, second)
    requires forall s | s in second :: s in before.sessions && s in mid.sessions && mid.sessions[s] == before.sessions[s]
    ensures DrainsGivenUp(before, now, first + second)
  {
    forall i | i in before.instances && now.instances[i] != before.instances[i]
      ensures before.instances[i].lifecycle == Running && now.instances[i] == before.instances[i].(lifecycle := Draining) &&
              exists s | s in first + second && s in before.sessions :: before.sessions[s].instance == Some(i)
    {
      if mid.instances[i] != before.instances[i] {
        var s :| s in first && s in before.sessions && before.sessions[s].instance == Some(i);
        assert s in first + second;
      } else {
        var s :| s in second && s in mid.sessions && mid.sessions[s].instance == Some(i);
        assert s in first + second;
      }
    }
    forall s, i | s in first + second && Bound(before, i, s) && before.instances[i].lifecycle == Running
      ensures now.instances[i].lifecycle == Draining
    {
      if s !in first {
        assert mid.instances[i] == before.instances[i] || mid.instances[i].lifecycle == Draining;
        assert mid.instances[i] == before.instances[i] ==> Bound(mid, i, s);
      }
    }
  }

  predicate Releasable(db: Db, i: InstanceId) {
    EventSession(db, i) && db.instances[i].lifecycle == Running && db.instances[i].reserved &&
    Terminal(db.sessions[db.instances[i].session.value].state)
  }

  function DrainsFinished(
      instances: map<InstanceId, Instance>, due: set<InstanceId>, unstoppable: set<InstanceId>): map<InstanceId, Instance> {
    map i | i in instances ::
      if i in due && instances[i].lifecycle == Draining
      then instances[i].(lifecycle := if i in unstoppable then Stopping else Stopped)
      else instances[i]
  }

  /** A drain that ends is not a failure, so no session loses its instance to it. */
  lemma DrainsNeedNoRecovery(db: Db, due: set<InstanceId>, unstoppable: set<InstanceId>)
    requires Reservations(db)
    ensures
      var after := db.(instances := DrainsFinished(db.instances, due, unstoppable));
      && (forall s :: NeedsRecovery(after, s) ==> NeedsRecovery(db, s))
      && (forall i :: Releasable(after, i) ==> Releasable(db, i))
  {
    var after := db.(instances := DrainsFinished(db.instances, due, unstoppable));
    forall s | NeedsRecovery(after, s) ensures NeedsRecovery(db, s) {
      assert InstanceOk(db, db.sessions[s].instance.value);
    }
    forall i | Releasable(after, i) ensures Releasable(db, i) {
    }
  }

  lemma ReleasedOneMore(before: Db, mid: Db, now: Db, left: set<InstanceId>, i: InstanceId)
    requires ReleasedBut(before, mid, left) && i in left && Releasable(mid, i) && now == MoveInstance(mid, i, Draining)
    requires forall j :: j in left <==> Releasable(mid, j)
    ensures ReleasedBut(before, now, left - {i}) && forall j :: j in left - {i} <==> Releasable(now, j)
  {
    assert IsIdle(mid, i) && IsIdle(before, i);
    assert now == PutInstance(mid, i, mid.instances[i].(lifecycle := Draining));
  }

  lemma ReleasedNeedNoRecovery(before: Db, now: Db)
    requires ReleasedBut(before, now, {})
    ensures AllReleased(before, now) && forall s :: NeedsRecovery(now, s) ==> NeedsRecovery(before, s)
  {
    forall i | i in before.instances
      ensures now.instances[i] == if IsIdle(before, i) then before.instances[i].(lifecycle := Draining) else before.instances[i]
    {
      assert i !in {};
    }
    forall s | NeedsRecovery(now, s) ensures NeedsRecovery(before, s) {
      assert now.sessions == before.sessions;
      var i := now.sessions[s].instance.value;
      assert i in before.instances && Lost(now.instances[i]);
      assert !IsIdle(before, i) && now.instances[i] == before.instances[i];
    }
  }

  /** What each stage of a tick makes of the rows before it. */
  ghost predicate Staged(start: Db, stages: seq<Db>, transfersDue: set<(SessionId, PlayerId)>,
                         expired: seq<(InstanceId, PlayerId)>, acquisitionDue: set<SessionId>, lobbyDue: set<SessionId>) {
    && |stages| == 5
    && OnlyLeft(start, stages[0], TransfersOver(start, transfersDue))
    && OnlyLeft(stages[0], stages[1], PresencesOver(stages[0], expired))
    && AllAdvanced(stages[1], stages[2], acquisitionDue, lobbyDue)
    && AllRecovered(stages[2], stages[3])
    && AllReleased(stages[3], stages[4])
  }

  /** Sessions are cancelled, and members leave, exactly if they are due. */
  ghost predicate TickMeans(start: Db, now: Db, transfersDue: set<(SessionId, PlayerId)>,
                            expired: seq<(InstanceId, PlayerId)>, acquisitionDue: set<SessionId>, lobbyDue: set<SessionId>) {
    && now.sessions.Keys == start.sessions.Keys
    && (forall s | s in start.sessions :: now.sessions[s].state == Cancelled <==>
          start.sessions[s].state == Cancelled || GivenUp(start.sessions[s], s in acquisitionDue, s in lobbyDue))
    && forall s | s in start.sessions ::
         MembersMean(start.sessions[s].members, now.sessions[s].members, s,
                     TransfersOver(start, transfersDue) + PresencesOver(start, expired))
  }

  ghost predicate MembersMean(before: Members, now: Members, s: SessionId, gone: set<(SessionId, PlayerId)>) {
    && now.Keys == before.Keys
    && forall p | p in before :: now[p].state == Left <==> before[p].state == Left || (s, p) in gone
  }

  lemma StagesMean(start: Db, stages: seq<Db>, transfersDue: set<(SessionId, PlayerId)>,
                   expired: seq<(InstanceId, PlayerId)>, acquisitionDue: set<SessionId>, lobbyDue: set<SessionId>)
    requires Staged(start, stages, transfersDue, expired, acquisitionDue, lobbyDue)
    ensures TickMeans(start, stages[4], transfersDue, expired, acquisitionDue, lobbyDue)
  {
    var gone := TransfersOver(start, transfersDue) + PresencesOver(start, expired);
    PresenceIsSame(start, stages[0], transfersDue, expired);
    OnlyLeftThen(start, stages[0], stages[1], TransfersOver(start, transfersDue), PresencesOver(stages[0], expired));
    forall s | s in start.sessions
      ensures stages[4].sessions[s].state == Cancelled <==>
                start.sessions[s].state == Cancelled || GivenUp(start.sessions[s], s in acquisitionDue, s in lobbyDue)
      ensures MembersMean(start.sessions[s].members, stages[4].sessions[s].members, s, gone)
    {
      RowMeans(start.sessions[s], stages[1], stages[2], stages[3], s, gone, s in acquisitionDue, s in lobbyDue);
    }
  }

  lemma RowMeans(row: Session, mid: Db, advanced: Db, recovered: Db, s: SessionId, gone: set<(SessionId, PlayerId)>,
                 acquisitionDue: bool, lobbyDue: bool)
    requires s in mid.sessions && s in advanced.sessions && AllRecovered(advanced, recovered)
    requires RowLeft(row, mid.sessions[s], s, gone) && Advanced(mid, advanced.sessions[s], s, acquisitionDue, lobbyDue)
    ensures recovered.sessions[s].state == Cancelled <==>
              row.state == Cancelled || GivenUp(row, acquisitionDue, lobbyDue)
    ensures MembersMean(row.members, recovered.sessions[s].members, s, gone)
  {
    assert MembersMean(row.members, mid.sessions[s].members, s, gone);
    assert advanced.sessions[s].members == mid.sessions[s].members;
  }

  /** Nobody who is connected leaves by a transfer. */
  lemma PresenceIsSame(start: Db, now: Db, due: set<(SessionId, PlayerId)>, expired: seq<(InstanceId, PlayerId)>)
    requires OnlyLeft(start, now, TransfersOver(start, due))
    ensures PresencesOver(now, expired) == PresencesOver(start, expired)
  {
    forall i, p ensures PresenceOver(now, i, p) <==> PresenceOver(start, i, p) {
      if EventSession(start, i) {
        var s := start.instances[i].session.value;
        assert RowLeft(start.sessions[s], now.sessions[s], s, TransfersOver(start, due));
      }
    }
  }

  class Controller {
    var db: Db

    constructor (tables: Db)
      ensures db == tables
    {
      db := tables;
    }

    /** assignment_revision + 1 for every listed session, one statement each. */
    method BumpAll(changed: set<SessionId>)
      requires changed <= db.sessions.Keys
      modifies this
      ensures db == old(db).(sessions := map s | s in old(db).sessions :: BumpIf(old(db).sessions[s], s in changed))
    {
      var left := changed;
      while left != {}
        invariant left <= changed
        invariant db == old(db).(sessions := db.sessions)
        invariant db.sessions == map s | s in old(db).sessions :: BumpIf(old(db).sessions[s], s in changed && s !in left)
        decreases |left|
      {
        var s := Pick(left);
        db := PutSession(db, s, Bump(db.sessions[s]));
        left := left - {s};
      }
    }

    /** One UPDATE over the overdue members, then one per changed session. */
    method ExpireTransfers(due: set<(SessionId, PlayerId)>)
      modifies this
      ensures db == Protocol.ExpireTransfers(old(db), due)
      ensures forall s, p :: !Overdue(db, due, s, p)
      ensures OnlyLeft(old(db), db, TransfersOver(old(db), due))
    {
      var changed := set s | s in db.sessions && OverdueIn(db, due, s) != {};
      db := db.(sessions := map s | s in db.sessions ::
        db.sessions[s].(members := MarkLeft(db.sessions[s].members, OverdueIn(db, due, s))));
      BumpAll(changed);
      forall s | s in db.sessions ensures db.sessions[s] == Protocol.ExpireTransfers(old(db), due).sessions[s] {
        NobodyLeaves(old(db).sessions[s].members);
      }
      assert db.sessions == Protocol.ExpireTransfers(old(db), due).sessions;
      NobodyOverdue(old(db), due);
      TransfersLeave(old(db), due);
    }

    /** One observation: the player leaves the session of the instance if connected there. */
    method ExpirePresence(i: InstanceId, p: PlayerId)
      modifies this
      ensures db == Protocol.ExpirePresence(old(db), i, p)
      ensures OnlyLeft(old(db), db, PresencesOver(old(db), [(i, p)]))
    {
      PresenceOne(db, i, p);
      if i in db.instances && db.instances[i].session.Some? && db.instances[i].session.value in db.sessions {
        var s := db.instances[i].session.value;
        var session := db.sessions[s];
        if p in session.members && session.members[p].state == Connected {
          db := PutSession(db, s, Bump(session.(members := MarkLeft(session.members, {p}))));
        }
      }
    }

    /** Presence that went stale: one transaction per observation. */
    method ExpirePlayerPresence(expired: seq<(InstanceId, PlayerId)>) returns (ghost actions: seq<Action>)
      modifies this
      ensures Stepped(old(db), db, actions)
      ensures OnlyLeft(old(db), db, PresencesOver(old(db), expired))
    {
      actions := [];
      for k := 0 to |expired|
        invariant Stepped(old(db), db, actions)
        invariant OnlyLeft(old(db), db, PresencesOver(old(db), expired[..k]))
      {
        ghost var mid := db;
        var (i, p) := expired[k];
        ExpirePresence(i, p);
        PresenceOneMore(old(db), mid, db, expired, k);
        SteppedBy(old(db), mid, db, actions, DoExpirePresence(i, p));
        actions := actions + [DoExpirePresence(i, p)];
      }
      assert expired[..|expired|] == expired;
    }

    method BeginDrain(i: InstanceId)
      modifies this
      ensures db == MoveInstance(old(db), i, Draining)
    {
      if MayMove(db, i, Draining) {
        db := PutInstance(db, i, db.instances[i].(lifecycle := Draining));
      }
    }

    /** Cancels a session that has not started, then releases its instance, and no other one. */
    method Cancel(s: SessionId) returns (ghost actions: seq<Action>)
      modifies this
      ensures Stepped(old(db), db, actions)
      ensures db.sessions == CancelSession(old(db), s).sessions
      ensures db.entries == old(db).entries && db.policies == old(db).policies
      ensures DrainsGivenUp(old(db), db, if s in old(db).sessions && Accepting(old(db).sessions[s].state) then {s} else {})
    {
      ghost var start := db;
      actions := [DoCancelSession(s)];
      if s !in db.sessions || !Accepting(db.sessions[s].state) {
        SteppedBy(start, start, db, [], DoCancelSession(s));
        return;
      }
      db := PutSession(db, s, db.sessions[s].(state := Cancelled));
      SteppedBy(start, start, db, [], DoCancelSession(s));
      if db.sessions[s].instance.Some? {
        ghost var mid := db;
        var i := db.sessions[s].instance.value;
        BeginDrain(i);
        SteppedBy(start, mid, db, actions, DoMoveInstance(i, Draining));
        actions := actions + [DoMoveInstance(i, Draining)];
      }
    }

    method AdvanceSession(s: SessionId, acquisitionDue: bool, lobbyDue: bool) returns (ghost actions: seq<Action>)
      requires s in db.sessions
      modifies this
      ensures Stepped(old(db), db, actions)
      ensures db.sessions.Keys == old(db).sessions.Keys
      ensures forall t | t in db.sessions && t != s :: db.sessions[t] == old(db).sessions[t]
      ensures db.entries == old(db).entries && db.policies == old(db).policies
      ensures Advanced(old(db), db.sessions[s], s, acquisitionDue, lobbyDue)
      ensures DrainsGivenUp(old(db), db, if GivenUp(old(db).sessions[s], acquisitionDue, lobbyDue) then {s} else {})
    {
      ghost var start := db;
      var session := db.sessions[s];
      actions := [];
      if session.state == WaitingForInstance {
        if acquisitionDue {
          actions := Cancel(s);
        }
      } else if InLobby(session.state) {
        if lobbyDue {
          actions := Cancel(s);
        } else if session.state == InTransfer && Active(session.members) != {} &&
                  Active(session.members) == ConnectedPlayers(session.members) {
          actions := StartWaiting(s);
        }
      }
    }

    method StartWaiting(s: SessionId) returns (ghost actions: seq<Action>)
      requires AllArrived(db, s)
      modifies this
      ensures Stepped(old(db), db, actions) && db == PutSession(old(db), s, old(db).sessions[s].(state := Waiting))
    {
      ghost var start := db;
      db := PutSession(db, s, db.sessions[s].(state := Waiting));
      SteppedBy(start, start, db, [], DoAdvanceWaiting(s));
      actions := [DoAdvanceWaiting(s)];
    }

    /**
     Exactly the sessions past their deadline are given up, with their instances;
     exactly the complete lobbies among the others are promoted; and nothing else changes.
     */
    method AdvanceWaitingSessions(acquisitionDue: set<SessionId>, lobbyDue: set<SessionId>)
      returns (ghost actions: seq<Action>)
      modifies this
      ensures Stepped(old(db), db, actions)
      ensures AllAdvanced(old(db), db, acquisitionDue, lobbyDue)
      ensures forall s | s in db.sessions :: !AllArrived(db, s)
    {
      ghost var start := db;
      actions := [];
      var left := db.sessions.Keys;
      while left != {}
        invariant left <= start.sessions.Keys && Stepped(start, db, actions)
        invariant AdvancedBut(start, db, acquisitionDue, lobbyDue, left)
        decreases |left|
      {
        ghost var mid := db;
        var s := Pick(left);
        ghost var steps;
        steps := AdvanceSession(s, s in acquisitionDue, s in lobbyDue);
        SteppedThen(start, mid, db, actions, steps);
        AdvancedOneMore(start, mid, db, acquisitionDue, lobbyDue, left, s);
        actions := actions + steps;
        left := left - {s};
      }
      AdvancedAtLast(start, db, acquisitionDue, lobbyDue);
    }

    method RecoverSession(s: SessionId)
      requires NeedsRecovery(db, s)
      modifies this
      ensures db == Recover(old(db), s)
    {
      var session := db.sessions[s];
      var preStart := Accepting(session.state) && |ConnectedPlayers(session.members)| == 0;
      if preStart {
        db := PutSession(db, s, session.(state := WaitingForInstance, instance := None));
        db := PutSession(db, s, db.sessions[s].(members := Restate(db.sessions[s].members, Transferring, Selected)));
      } else {
        db := PutSession(db, s, session.(state := SessionFailed));
      }
    }

    /** No session is left with an instance that failed, and no other session is touched. */
    method RecoverFailedInstances() returns (ghost actions: seq<Action>)
      modifies this
      ensures Stepped(old(db), db, actions)
      ensures forall s :: !NeedsRecovery(db, s)
      ensures AllRecovered(old(db), db)
    {
      ghost var start := db;
      actions := [];
      var left := set s | s in db.sessions && NeedsRecovery(db, s);
      while left != {}
        invariant Stepped(start, db, actions)
        invariant forall s :: s in left <==> NeedsRecovery(db, s)
        invariant RecoveredBut(start, db, left)
        decreases |left|
      {
        ghost var mid := db;
        var s := Pick(left);
        RecoverSession(s);
        SteppedBy(start, mid, db, actions, DoRecover(s));
        RecoveredOneMore(start, mid, db, left, s);
        actions := actions + [DoRecover(s)];
        left := left - {s};
      }
      RecoveredAtLast(start, db);
    }

    /** No open instance stays reserved for a session that is over, and no other one is touched. */
    method ReleaseTerminalReservations() returns (ghost actions: seq<Action>)
      modifies this
      ensures Stepped(old(db), db, actions)
      ensures forall i :: !Releasable(db, i)
      ensures forall s :: NeedsRecovery(db, s) ==> NeedsRecovery(old(db), s)
      ensures AllReleased(old(db), db)
    {
      ghost var start := db;
      actions := [];
      var left := set i | i in db.instances && Releasable(db, i);
      while left != {}
        invariant Stepped(start, db, actions)
        invariant forall i :: i in left <==> Releasable(db, i)
        invariant ReleasedBut(start, db, left)
        decreases |left|
      {
        ghost var mid := db;
        var i := Pick(left);
        BeginDrain(i);
        SteppedBy(start, mid, db, actions, DoMoveInstance(i, Draining));
        ReleasedOneMore(start, mid, db, left, i);
        actions := actions + [DoMoveInstance(i, Draining)];
        left := left - {i};
      }
      ReleasedNeedNoRecovery(start, db);
    }

    /** STOPPING, then STOPPED unless the host could not stop and delete it. */
    method StopAndDelete(i: InstanceId, stopped: bool) returns (ghost actions: seq<Action>)
      requires i in db.instances && db.instances[i].lifecycle == Draining
      modifies this
      ensures Stepped(old(db), db, actions)
      ensures db == PutInstance(old(db), i, old(db).instances[i].(lifecycle := if stopped then Stopped else Stopping))
    {
      ghost var start := db;
      db := PutInstance(db, i, db.instances[i].(lifecycle := Stopping));
      SteppedBy(start, start, db, [], DoMoveInstance(i, Stopping));
      actions := [DoMoveInstance(i, Stopping)];
      if stopped {
        ghost var mid := db;
        db := PutInstance(db, i, db.instances[i].(lifecycle := Stopped));
        SteppedBy(start, mid, db, actions, DoMoveInstance(i, Stopped));
        actions := actions + [DoMoveInstance(i, Stopped)];
      }
      assert db.instances == PutInstance(start, i, start.instances[i].(lifecycle := if stopped then Stopped else Stopping)).instances;
    }

    /** Every drain that is due is stopped, and nothing else is touched. */
    method FinishDrainingInstances(due: set<InstanceId>, unstoppable: set<InstanceId>)
      returns (ghost actions: seq<Action>)
      modifies this
      ensures Stepped(old(db), db, actions)
      ensures db == old(db).(instances := DrainsFinished(old(db).instances, due, unstoppable))
    {
      ghost var start := db;
      actions := [];
      var left := set i | i in due && i in db.instances && db.instances[i].lifecycle == Draining;
      while left != {}
        invariant Stepped(start, db, actions) && left <= due
        invariant forall i :: i in left ==> i in start.instances && start.instances[i].lifecycle == Draining
        invariant db == start.(instances := DrainsFinished(start.instances, due - left, unstoppable))
        decreases |left|
      {
        ghost var mid := db;
        var i := Pick(left);
        ghost var steps;
        steps := StopAndDelete(i, i !in unstoppable);
        SteppedThen(start, mid, db, actions, steps);
        actions := actions + steps;
        assert db.instances == DrainsFinished(start.instances, due - (left - {i}), unstoppable);
        left := left - {i};
      }
      assert db.instances == DrainsFinished(start.instances, due, unstoppable);
    }

    /** The stages before the last one: whoever is late leaves, then sessions advance, recover and release. */
    method RunStages(transfersDue: set<(SessionId, PlayerId)>, expired: seq<(InstanceId, PlayerId)>,
                     acquisitionDue: set<SessionId>, lobbyDue: set<SessionId>)
      returns (ghost actions: seq<Action>, ghost stages: seq<Db>)
      modifies this
      ensures Stepped(old(db), db, actions)
      ensures Staged(old(db), stages, transfersDue, expired, acquisitionDue, lobbyDue) && db == stages[4]
      ensures (forall s :: !NeedsRecovery(db, s)) && (forall i :: !Releasable(db, i))
    {
      ghost var start := db;
      ExpireTransfers(transfersDue);
      SteppedBy(start, start, db, [], DoExpireTransfers(transfersDue));
      actions, stages := [DoExpireTransfers(transfersDue)], [db];
      ghost var mid, steps := db, [];
      steps := ExpirePlayerPresence(expired);
      SteppedThen(start, mid, db, actions, steps);
      actions, mid, stages := actions + steps, db, stages + [db];
      steps := AdvanceWaitingSessions(acquisitionDue, lobbyDue);
      SteppedThen(start, mid, db, actions, steps);
      actions, mid, stages := actions + steps, db, stages + [db];
      steps := RecoverFailedInstances();
      SteppedThen(start, mid, db, actions, steps);
      actions, mid, stages := actions + steps, db, stages + [db];
      steps := ReleaseTerminalReservations();
      SteppedThen(start, mid, db, actions, steps);
      actions, stages := actions + steps, stages + [db];
    }

    /**
     One tick: every stage in order; what is due is given, and `stages` are the rows after
     each of the first five. A session is cancelled exactly if it is due, and a member
     leaves exactly if a transfer or a presence of it is.
     */
    method Tick(transfersDue: set<(SessionId, PlayerId)>, expired: seq<(InstanceId, PlayerId)>,
                acquisitionDue: set<SessionId>, lobbyDue: set<SessionId>,
                drainDue: set<InstanceId>, unstoppable: set<InstanceId>)
      returns (ghost actions: seq<Action>, ghost stages: seq<Db>)
      requires Reservations(db)
      modifies this
      ensures Stepped(old(db), db, actions) && Faithful(old(db), db)
      ensures Reservations(db) && (Inv(old(db)) ==> Inv(db))
      ensures forall s :: !NeedsRecovery(db, s)
      ensures forall i :: !Releasable(db, i)
      ensures forall i | i in drainDue && i in db.instances :: db.instances[i].lifecycle != Draining
      ensures Staged(old(db), stages, transfersDue, expired, acquisitionDue, lobbyDue)
      ensures db == stages[4].(instances := DrainsFinished(stages[4].instances, drainDue, unstoppable))
      ensures TickMeans(old(db), db, transfersDue, expired, acquisitionDue, lobbyDue)
    {
      ghost var start := db;
      actions, stages := RunStages(transfersDue, expired, acquisitionDue, lobbyDue);
      SteppedKeeps(start, db, actions);
      StagesMean(start, stages, transfersDue, expired, acquisitionDue, lobbyDue);
      ghost var mid, steps := db, [];
      steps := FinishDrainingInstances(drainDue, unstoppable);
      SteppedThen(start, mid, db, actions, steps);
      actions := actions + steps;
      SteppedKeeps(start, db, actions);
      DrainsNeedNoRecovery(mid, drainDue, unstoppable);
    }
  }
}
