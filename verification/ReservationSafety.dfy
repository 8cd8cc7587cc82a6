/**
 Reservations of instances by sessions: exclusive, and written once, in every
 run whatsoever.
 */
module ReservationSafety {
  import opened Basics
  import opened Lifecycles
  import opened Tables
  import opened Protocol
  import opened MatchmakingSteps

  /** Instances stay as they are, and sessions keep theirs; new sessions have none. */
  ghost predicate SameReservations(before: Db, after: Db) {
    && after.instances == before.instances
    && before.sessions.Keys <= after.sessions.Keys
    && forall s | s in after.sessions ::
         if s in before.sessions
         then after.sessions[s].instance == before.sessions[s].instance &&
              after.sessions[s].group == before.sessions[s].group &&
              (after.sessions[s].state == Forming || after.sessions[s].state == WaitingForInstance ==>
                 before.sessions[s].state == Forming || before.sessions[s].state == WaitingForInstance)
         else after.sessions[s].instance == None
  }

  lemma SameReservationsKeep(before: Db, after: Db)
    requires Reservations(before) && SameReservations(before, after)
    ensures Reservations(after)
  {
    forall s | s in after.sessions ensures ReservationOk(after, s) {
      if s in before.sessions {
        assert ReservationOk(before, s);
      }
    }
    forall i | i in after.instances ensures InstanceOk(after, i) {
      assert InstanceOk(before, i);
      if before.instances[i].session.Some? {
        var s := before.instances[i].session.value;
        assert s in before.sessions;
        assert s in after.sessions && after.sessions[s].instance == before.sessions[s].instance;
      }
    }
  }

  lemma ReserveKeepsReservations(db: Db, s: SessionId, i: InstanceId)
    requires Reservations(db)
    ensures Reservations(Reserve(db, s, i))
  {
    if CanReserve(db, s, i) {
      var after := Reserve(db, s, i);
      assert InstanceOk(db, i) && ReservationOk(db, s);
      forall t | t in after.sessions ensures ReservationOk(after, t) {
        assert ReservationOk(db, t);
      }
      forall j | j in after.instances ensures InstanceOk(after, j) {
        assert InstanceOk(db, j);
      }
    }
  }

  lemma RecoverKeepsReservations(db: Db, s: SessionId)
    requires Reservations(db)
    ensures Reservations(Recover(db, s))
  {
    if NeedsRecovery(db, s) {
      var after := Recover(db, s);
      forall t | t in after.sessions ensures ReservationOk(after, t) {
        assert ReservationOk(db, t);
      }
      forall j | j in after.instances ensures InstanceOk(after, j) {
        assert InstanceOk(db, j);
      }
    }
  }

  /** An instance changes its lifecycle, or appears unreserved. */
  lemma InstanceStepKeepsReservations(db: Db, i: InstanceId, instance: Instance)
    requires Reservations(db) && InstanceOk(PutInstance(db, i, instance), i)
    requires i in db.instances ==> instance.session == db.instances[i].session
    ensures Reservations(PutInstance(db, i, instance))
  {
    var after := PutInstance(db, i, instance);
    forall s | s in after.sessions ensures ReservationOk(after, s) {
      assert ReservationOk(db, s);
    }
    forall j | j in after.instances ensures InstanceOk(after, j) {
      assert j != i ==> InstanceOk(db, j);
    }
  }

  lemma ActionKeepsReservations(db: Db, a: Action)
    requires Reservations(db)
    ensures Reservations(Apply(db, a))
  {
    match a {
      case DoReserve(s, i) => ReserveKeepsReservations(db, s, i);
      case DoRecover(s) => RecoverKeepsReservations(db, s);
      case DoAddInstance(i, group) =>
        if i !in db.instances {
          InstanceStepKeepsReservations(db, i, Instance(group, Creating, false, None, false));
        }
      case DoMoveInstance(i, to) =>
        if MayMove(db, i, to) {
          assert InstanceOk(db, i);
          InstanceStepKeepsReservations(
            db, i, db.instances[i].(lifecycle := to, failed := db.instances[i].failed || to == InstanceFailed));
        }
      case _ => OtherActionKeepsReservations(db, a);
    }
  }

  lemma OtherActionKeepsReservations(db: Db, a: Action)
    requires Reservations(db) && !a.DoReserve? && !a.DoRecover? && !a.DoAddInstance? && !a.DoMoveInstance?
    ensures Reservations(Apply(db, a))
  {
    var after := Apply(db, a);
    if !AddsOrReopens(a) {
      QuietAction(db, a);
      assert forall s | s in db.sessions :: QuietSession(db.sessions[s], after.sessions[s]);
    }
    SameReservationsKeep(db, after);
  }

  lemma {:induction false} RunKeepsReservations(db: Db, actions: seq<Action>)
    requires Reservations(db)
    ensures Reservations(Run(db, actions))
  {
    if actions != [] {
      var n := |actions| - 1;
      RunKeepsReservations(db, actions[..n]);
      ActionKeepsReservations(Run(db, actions[..n]), actions[n]);
    }
  }

  /**
   From empty tables, whatever the policies are and whoever comes back, reservations
   are exclusive: at most one live instance names a session, a session's instance
   names it back and serves its group, and a session that still looks for an
   instance is named by no live one.
   */
  lemma ReservationsAreExclusive(start: Db, actions: seq<Action>)
    requires start.sessions == map[] && start.instances == map[]
    ensures
      var db := Run(start, actions);
      && (forall i, j | i in db.instances && j in db.instances && Live(db.instances[i].lifecycle) &&
            Live(db.instances[j].lifecycle) && db.instances[i].session.Some? &&
            db.instances[i].session == db.instances[j].session :: i == j)
      && (forall s | s in db.sessions && db.sessions[s].instance.Some? ::
            Bound(db, db.sessions[s].instance.value, s) &&
            db.instances[db.sessions[s].instance.value].group == db.sessions[s].group)
      && (forall i | i in db.instances && Live(db.instances[i].lifecycle) && db.instances[i].session.Some? ::
            db.instances[i].session.value in db.sessions &&
            db.sessions[db.instances[i].session.value].state !in {Forming, WaitingForInstance})
  {
    RunKeepsReservations(start, actions);
    var db := Run(start, actions);
    forall i | i in db.instances && Live(db.instances[i].lifecycle) && db.instances[i].session.Some?
      ensures db.instances[i].session.value in db.sessions &&
              db.sessions[db.instances[i].session.value].state !in {Forming, WaitingForInstance} &&
              db.sessions[db.instances[i].session.value].instance == Some(i)
    {
      assert InstanceOk(db, i);
      assert ReservationOk(db, db.instances[i].session.value);
    }
    forall s | s in db.sessions && db.sessions[s].instance.Some?
      ensures Bound(db, db.sessions[s].instance.value, s)
      ensures db.instances[db.sessions[s].instance.value].group == db.sessions[s].group
    {
      assert ReservationOk(db, s) && InstanceOk(db, db.sessions[s].instance.value);
    }
  }

  /** An instance's session is written once and then kept, through failures and recoveries. */
  lemma {:induction false} SessionIsWrittenOnce(db: Db, actions: seq<Action>, i: InstanceId)
    requires Reservations(db) && i in db.instances && db.instances[i].session.Some?
    ensures i in Run(db, actions).instances && Run(db, actions).instances[i].session == db.instances[i].session
  {
    if actions != [] {
      var n := |actions| - 1;
      SessionIsWrittenOnce(db, actions[..n], i);
      RunKeepsReservations(db, actions[..n]);
      KeepsSession(Run(db, actions[..n]), actions[n], i);
    }
  }

  lemma KeepsSession(db: Db, a: Action, i: InstanceId)
    requires Reservations(db) && i in db.instances && db.instances[i].session.Some?
    ensures i in Apply(db, a).instances && Apply(db, a).instances[i].session == db.instances[i].session
  {
    assert InstanceOk(db, i);
    if !AddsOrReopens(a) {
      QuietAction(db, a);
    }
  }
}
