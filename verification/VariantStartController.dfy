/**
 The startup retry policy as the service writes it
 (orchestrator/src/services/variant-start-controller.ts).
 */
module VariantStartController {
  import opened Basics
  import opened Lifecycles
  import opened StartupPolicy
  import opened VariantStart

  datatype RetryRequestResult = ResetAccepted | ResetNotFound | ResetConflict

  /** now is reached from start by these steps. */
  ghost predicate Ran(start: Db, now: Db, config: Config, actions: seq<Action>)
    requires ValidConfig(config)
  {
    now == RunDb(start, config, actions)
  }

  lemma RanByOne(start: Db, mid: Db, now: Db, config: Config, actions: seq<Action>, a: Action)
    requires ValidConfig(config) && Ran(start, mid, config, actions) && now == Apply(mid, config, a)
    ensures Ran(start, now, config, actions + [a])
  {
    assert (actions + [a])[..|actions|] == actions;
  }

  lemma RanThen(start: Db, mid: Db, now: Db, config: Config, a: seq<Action>, b: seq<Action>)
    requires ValidConfig(config) && Ran(start, mid, config, a) && Ran(mid, now, config, b)
    ensures Ran(start, now, config, a + b)
  {
    RunDbConcat(start, config, a, b);
  }

  /** No server of the revision is left, nor one that its policy row named. */
  ghost predicate NoneLeft(before: Db, after: Db, r: Revision) {
    forall i | i in after.instances && (after.instances[i].revision == r || Concerned(before, r, i)) ::
      after.instances[i].lifecycle == Stopped
  }

  /** The waiting creates that a reset is concerned with are cancelled, and nothing happens to any other. */
  ghost predicate WaitingCancelled(before: Db, after: Db, r: Revision) {
    && after.creates.Keys == before.creates.Keys
    && forall i | i in before.creates ::
         after.creates[i] == if Concerned(before, r, i) && before.creates[i].state == Pending
                             then before.creates[i].(state := CommandCancelled) else before.creates[i]
  }

  /** Servers are only ever stopped: all that are concerned, or just those whose create was still waiting. */
  ghost predicate OnlyStopped(before: Db, after: Db, r: Revision, all: bool) {
    && after.instances.Keys == before.instances.Keys
    && forall i | i in before.instances ::
         var row := before.instances[i];
         after.instances[i] ==
           if Concerned(before, r, i) &&
              (all || (row.lifecycle == Creating && i in before.creates && before.creates[i].state == Pending))
           then row.(lifecycle := Stopped) else row
  }

  /** A server of the revision that was not stopped yet, or one that its policy row names. */
  ghost predicate Concerned(db: Db, r: Revision, i: InstanceId) {
    || (i in db.instances && db.instances[i].revision == r && db.instances[i].lifecycle != Stopped)
    || (r in db.policies && (db.policies[r].probe == Some(i) || db.policies[r].lastFailed == i))
  }

  /** Why a reset may have to be repeated: a create in flight, or a host that did not answer. */
  ghost predicate Held(db: Db, r: Revision, unreachable: set<InstanceId>) {
    exists i :: Concerned(db, r, i) && ((i in db.creates && db.creates[i].state == InProgress) || i in unreachable)
  }

  function Involved(db: Db, r: Revision): set<InstanceId> {
    (set i | i in db.instances && db.instances[i].revision == r && db.instances[i].lifecycle != Stopped) +
    if r in db.policies
    then (if db.policies[r].probe.Some? then {db.policies[r].probe.value} else {}) + {db.policies[r].lastFailed}
    else {}
  }

  lemma CancellationMeans(db: Db, r: Revision)
    ensures var after := CancelPending(db, Involved(db, r));
            WaitingCancelled(db, after, r) && OnlyStopped(db, after, r, false)
  {
  }

  lemma StoppingMeans(db: Db, mid: Db, after: Db, r: Revision)
    requires WaitingCancelled(db, mid, r) && OnlyStopped(db, mid, r, false)
    requires after.creates == mid.creates && after.instances.Keys == mid.instances.Keys
    requires forall i | i in mid.instances ::
               after.instances[i] ==
                 if i in Involved(db, r) then mid.instances[i].(lifecycle := Stopped) else mid.instances[i]
    ensures WaitingCancelled(db, after, r) && OnlyStopped(db, after, r, true) && NoneLeft(db, after, r)
  {
    assert forall i :: i in Involved(db, r) <==> Concerned(db, r, i);
  }

  lemma HeldMeans(db: Db, r: Revision, unreachable: set<InstanceId>, running: set<InstanceId>, failed: set<InstanceId>)
    requires running == set i | i in Involved(db, r) && i in db.creates && db.creates[i].state == InProgress
    requires failed == Involved(db, r) * unreachable
    ensures Held(db, r, unreachable) <==> running != {} || failed != {}
  {
    if Held(db, r, unreachable) {
      var i :| Concerned(db, r, i) && ((i in db.creates && db.creates[i].state == InProgress) || i in unreachable);
      assert i in running || i in failed;
    }
    if running + failed != {} {
      var i := Witness(running + failed);
      assert i in Involved(db, r) && Concerned(db, r, i);
    }
  }

  class Controller {
    const config: Config
    var db: Db

    constructor (config: Config, tables: Db)
      ensures this.config == config && db == tables
    {
      this.config, db := config, tables;
    }

    method ReserveAttempt(r: Revision, i: InstanceId) returns (allowed: bool)
      modifies this
      ensures allowed <==> MayAttempt(old(db), r)
      ensures db == VariantStart.ReserveAttempt(old(db), r, i)
    {
      if r !in db.policies {
        return true;
      }
      var current := db.policies[r];
      if current.state != BackingOff || current.nextRetryAt.None? || current.nextRetryAt.value > db.now {
        return false;
      }
      db := db.(policies := db.policies[r := current.(state := Probing, probe := Some(i), nextRetryAt := None)]);
      return true;
    }

    /** A counted failure advances the policy and cancels the queued siblings of the revision. */
    method RecordFailure(i: InstanceId) returns (counted: bool)
      requires ValidConfig(config) && i in db.failing && i in db.instances
      requires forall r | r in db.policies :: db.policies[r].failureCount >= 1
      modifies this
      ensures counted <==> Counted(old(db), i)
      ensures db == VariantStart.RecordFailure(old(db), config, i)
      ensures counted ==> PendingCreating(db, old(db).instances[i].revision) <= {i}
    {
      db := db.(failing := db.failing - {i});
      var r := db.instances[i].revision;
      if r in db.policies && !(db.policies[r].state == Probing && db.policies[r].probe == Some(i)) {
        return false;
      }
      var failureCount := (if r in db.policies then db.policies[r].failureCount else 0) + 1;
      var decision := DecideStartupFailure(failureCount, config.retryLimit, config.base).decision;
      var state := if decision.Block? then Blocked else BackingOff;
      var nextRetryAt := if decision.Block? then None else Some(db.now + decision.delayMs);
      db := db.(policies := db.policies[r := Policy(state, failureCount, nextRetryAt, None, i)]);
      var siblings := PendingCreating(db, r) - {i};
      db := db.(creates := map j | j in db.creates ::
        if j in siblings then db.creates[j].(state := CommandCancelled) else db.creates[j]);
      db := db.(instances := map j | j in db.instances ::
        if j in siblings then db.instances[j].(lifecycle := Stopped) else db.instances[j]);
      return true;
    }

    /** The policy row of a revision that became ready is deleted. */
    method MarkReady(i: InstanceId)
      requires i in db.readying && i in db.instances
      modifies this
      ensures db == Clear(old(db), i)
      ensures MayAttempt(db, old(db).instances[i].revision) && old(db).instances[i].revision !in db.policies
      ensures forall r | r != old(db).instances[i].revision ::
                (r in db.policies <==> r in old(db).policies) && (r in db.policies ==> db.policies[r] == old(db).policies[r])
    {
      db := db.(policies := db.policies - {db.instances[i].revision}, readying := db.readying - {i});
    }

    /** Only a blocked revision can be reset; repeating the request is accepted. */
    method RequestReset(r: Revision, isCurrent: bool) returns (result: RetryRequestResult)
      modifies this
      ensures db == if isCurrent then VariantStart.RequestReset(old(db), r) else old(db)
      ensures result.ResetNotFound? <==> !isCurrent
      ensures result.ResetAccepted? <==> isCurrent && r in db.policies && db.policies[r].state == Resetting
    {
      if !isCurrent {
        return ResetNotFound;
      }
      if r !in db.policies {
        return ResetConflict;
      }
      var row := db.policies[r];
      if row.state == Resetting {
        return ResetAccepted;
      }
      if row.state != Blocked {
        return ResetConflict;
      }
      db := db.(policies := db.policies[r := row.(state := Resetting)]);
      return ResetAccepted;
    }

    method StopAll(ids: set<InstanceId>) returns (ghost actions: seq<Action>)
      requires ValidConfig(config)
      modifies this
      ensures Ran(old(db), db, config, actions)
      ensures db.policies == old(db).policies && db.creates == old(db).creates
      ensures db.instances.Keys == old(db).instances.Keys
      ensures forall i | i in db.instances ::
                db.instances[i] == if i in ids then old(db).instances[i].(lifecycle := Stopped) else old(db).instances[i]
    {
      ghost var start := db;
      actions := [];
      var left := ids;
      while left != {}
        invariant left <= ids && Ran(start, db, config, actions)
        invariant db == start.(instances := db.instances) && db.instances.Keys == start.instances.Keys
        invariant forall i | i in db.instances ::
                    db.instances[i] == if i in ids && i !in left then start.instances[i].(lifecycle := Stopped)
                                       else start.instances[i]
        decreases |left|
      {
        ghost var mid := db;
        var i := Pick(left);
        if i in db.instances {
          db := db.(instances := db.instances[i := db.instances[i].(lifecycle := Stopped)]);
        }
        RanByOne(start, mid, db, config, actions, DoMove(i, Stopped));
        actions := actions + [DoMove(i, Stopped)];
        left := left - {i};
      }
    }

    method CancelWaiting(ids: set<InstanceId>) returns (ghost actions: seq<Action>)
      requires ValidConfig(config)
      modifies this
      ensures db == CancelPending(old(db), ids) && Ran(old(db), db, config, actions)
    {
      ghost var start := db;
      var pending := set i | i in ids && i in db.creates && db.creates[i].state == Pending;
      db := db.(creates := map i | i in db.creates ::
        if i in pending then db.creates[i].(state := CommandCancelled) else db.creates[i]);
      db := db.(instances := map i | i in db.instances ::
        if i in pending && db.instances[i].lifecycle == Creating then db.instances[i].(lifecycle := Stopped)
        else db.instances[i]);
      RanByOne(start, start, db, config, [], DoCancelPending(ids));
      actions := [DoCancelPending(ids)];
    }

    method DeleteRow(r: Revision) returns (ghost actions: seq<Action>)
      requires ValidConfig(config) && r in db.policies && db.policies[r].state == Resetting
      modifies this
      ensures db == old(db).(policies := old(db).policies - {r}) && Ran(old(db), db, config, actions)
    {
      ghost var start := db;
      db := db.(policies := db.policies - {r});
      RanByOne(start, start, db, config, [], DoDeleteReset(r));
      actions := [DoDeleteReset(r)];
    }

    /** A reset ends with no server of the revision left, and with no policy row. */
    method CleanupReset(r: Revision, unreachable: set<InstanceId>) returns (done: bool, ghost actions: seq<Action>)
      requires ValidConfig(config) && r in db.policies && db.policies[r].state == Resetting
      modifies this
      ensures Ran(old(db), db, config, actions)
      ensures done <==> !Held(old(db), r, unreachable)
      ensures done ==> db.policies == old(db).policies - {r} && NoneLeft(old(db), db, r)
      ensures !done ==> db.policies == old(db).policies
      ensures WaitingCancelled(old(db), db, r) && OnlyStopped(old(db), db, r, done)
    {
      ghost var start := db;
      var ids := Involved(db, r);
      actions := CancelWaiting(ids);
      CancellationMeans(start, r);
      var running := set i | i in ids && i in db.creates && db.creates[i].state == InProgress;
      var failed := ids * unreachable;
      HeldMeans(start, r, unreachable, running, failed);
      if running != {} || failed != {} {
        return false, actions;
      }
      ghost var mid := db;
      ghost var steps;
      steps := StopAll(ids);
      StoppingMeans(start, mid, db, r);
      RanThen(start, mid, db, config, actions, steps);
      actions, mid := actions + steps, db;
      steps := DeleteRow(r);
      RanThen(start, mid, db, config, actions, steps);
      return true, actions + steps;
    }

    /** Policies of superseded revisions are to be reset, whatever their state. */
    method MarkSuperseded(obsolete: set<Revision>) returns (ghost actions: seq<Action>)
      requires ValidConfig(config)
      modifies this
      ensures Ran(old(db), db, config, actions)
      ensures db == old(db).(policies := db.policies) && db.policies.Keys == old(db).policies.Keys
      ensures forall r | r in db.policies :: db.policies[r] ==
                if r in obsolete then old(db).policies[r].(state := Resetting) else old(db).policies[r]
    {
      ghost var start := db;
      actions := [];
      var left := obsolete * db.policies.Keys;
      while left != {}
        invariant left <= obsolete * start.policies.Keys && Ran(start, db, config, actions)
        invariant db == start.(policies := db.policies) && db.policies.Keys == start.policies.Keys
        invariant forall r | r in db.policies :: db.policies[r] ==
                    if r in obsolete && r !in left then start.policies[r].(state := Resetting) else start.policies[r]
        decreases |left|
      {
        ghost var mid := db;
        var r := Pick(left);
        db := db.(policies := db.policies[r := db.policies[r].(state := Resetting)]);
        RanByOne(start, mid, db, config, actions, DoMarkObsolete(r));
        actions := actions + [DoMarkObsolete(r)];
        left := left - {r};
      }
    }

    /** Then every reset is tried. */
    method Reconcile(obsolete: set<Revision>, unreachable: set<InstanceId>) returns (ghost actions: seq<Action>)
      requires ValidConfig(config)
      modifies this
      ensures Ran(old(db), db, config, actions)
      ensures db.policies.Keys <= old(db).policies.Keys
      ensures forall r | r in db.policies && r in obsolete :: db.policies[r].state == Resetting
      ensures forall r | r in db.policies && db.policies[r].state != Resetting :: db.policies[r] == old(db).policies[r]
    {
      ghost var start := db;
      actions := MarkSuperseded(obsolete);
      ghost var marked := db;
      var resetting := set r | r in db.policies && db.policies[r].state == Resetting;
      while resetting != {}
        invariant Ran(start, db, config, actions)
        invariant db.policies.Keys <= marked.policies.Keys && resetting <= db.policies.Keys
        invariant forall r | r in db.policies :: db.policies[r] == marked.policies[r]
        invariant forall r | r in resetting :: db.policies[r].state == Resetting
        decreases |resetting|
      {
        ghost var mid := db;
        var r := Pick(resetting);
        var done;
        ghost var steps;
        done, steps := CleanupReset(r, unreachable);
        RanThen(start, mid, db, config, actions, steps);
        actions := actions + steps;
        resetting := resetting - {r};
      }
    }
  }
}
