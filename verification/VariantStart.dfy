/** When a failed start is retried (orchestrator/src/domain/startup-policy.ts). */
module StartupPolicy {
  import opened Basics

  datatype Reason =
    | CreateFailed | StartupTimeout | RuntimeMissing
    | HostOffline | HeartbeatLost | OtherReason

  datatype Decision = BackOff(delayMs: int) | Block

  datatype DecisionError = InvalidFailureCount | InvalidRetryLimit | InvalidBaseDelay

  datatype DecisionResult = Decided(decision: Decision) | Refused(error: DecisionError)

  /** base * 2^n, doubling n times. */
  function DelayMs(base: int, n: nat): int {
    if n == 0 then base else 2 * DelayMs(base, n - 1)
  }

  lemma {:induction false} DelayIsPower(base: int, n: nat)
    ensures DelayMs(base, n) == base * Power2(n)
  {
    if n > 0 {
      DelayIsPower(base, n - 1);
    }
  }

  function DecideStartupFailure(failureCount: int, retryLimit: int, baseDelayMs: int): DecisionResult {
    if failureCount < 1 then Refused(InvalidFailureCount)
    else if retryLimit < 0 then Refused(InvalidRetryLimit)
    else if baseDelayMs <= 0 then Refused(InvalidBaseDelay)
    else if failureCount > retryLimit then Decided(Block)
    else Decided(BackOff(DelayMs(baseDelayMs, failureCount - 1)))
  }

  /** Exactly three numbers in range are decided: blocked above the limit, else a wait of base * 2^(n - 1) after failure n. */
  lemma DecisionIsExact(failureCount: int, retryLimit: int, base: int)
    ensures var result := DecideStartupFailure(failureCount, retryLimit, base);
      && (result.Decided? <==> 0 < failureCount && 0 <= retryLimit && 0 < base)
      && (result == Refused(InvalidFailureCount) <==> failureCount < 1)
      && (result == Refused(InvalidRetryLimit) <==> 0 < failureCount && retryLimit < 0)
      && (result == Decided(Block) <==> 0 <= retryLimit < failureCount && 0 < base)
      && (0 < failureCount <= retryLimit && 0 < base ==> result == Decided(BackOff(base * Power2(failureCount - 1))))
  {
    if failureCount > 0 {
      DelayIsPower(base, failureCount - 1);
    }
  }

  predicate CountsAsStartupFailure(reason: Reason, becameReady: bool) {
    !becameReady && (reason == CreateFailed || reason == StartupTimeout || reason == RuntimeMissing)
  }

  /** All waiting times before attempt number count + 1. */
  function TotalDelay(base: int, count: nat): int {
    if count == 0 then 0 else TotalDelay(base, count - 1) + DelayMs(base, count - 1)
  }

  /** Delays double, so they add up to base * (2^count - 1). */
  lemma {:induction false} DelaysAddUp(base: int, count: nat)
    ensures TotalDelay(base, count) == base * (Power2(count) - 1)
  {
    if count > 0 {
      DelaysAddUp(base, count - 1);
      DelayIsPower(base, count - 1);
      assert base * (Power2(count) - 1) == base * (Power2(count - 1) - 1) + base * Power2(count - 1);
    }
  }

  lemma {:induction false} DelayIsPositive(base: int, n: nat)
    requires base > 0
    ensures DelayMs(base, n) > 0
  {
    if n > 0 {
      DelayIsPositive(base, n - 1);
    }
  }
}

/**
 Starting the servers of a variant revision, and the policy row that a failure
 leaves behind (orchestrator/src/services/variant-start-controller.ts,
 orchestrator/src/services/instance-start-worker.ts, and the create, ready and
 failure paths of orchestrator/src/services/instance-controller.ts).
 */
module VariantStart {
  import opened Basics
  import opened Lifecycles
  import opened StartupPolicy

  type InstanceId = int

  datatype Revision = Revision(group: int, variant: int, revision: int)

  datatype StartState = BackingOff | Probing | Blocked | Resetting

  /** A variant_start_states row. */
  datatype Policy = Policy(
    state: StartState,
    failureCount: int,
    nextRetryAt: Option<int>,
    probe: Option<InstanceId>,
    lastFailed: InstanceId
  )

  /** `ready` says that running_at was written. */
  datatype Instance = Instance(revision: Revision, lifecycle: Lifecycle, ready: bool)

  datatype CommandState = Pending | InProgress | Succeeded | CommandFailed | CommandCancelled

  datatype Command = Command(state: CommandState, attempts: nat)

  /**
   The rows, the calls that are between two of their transactions, and the clock.
   `executing` are the claimed creates that the process works on, `reporting` those
   whose command has failed and whose instance has not: a create can be there twice,
   if a tick claims it again after a stop returned it to the queue. `failing` and
   `readying` are instances failed but not yet recorded, ready but not yet cleared.
   A restart forgets all calls.
   */
  datatype Db = Db(
    policies: map<Revision, Policy>,
    instances: map<InstanceId, Instance>,
    creates: map<InstanceId, Command>,
    executing: multiset<InstanceId>,
    reporting: multiset<InstanceId>,
    failing: set<InstanceId>,
    readying: set<InstanceId>,
    now: int
  )

  datatype Config = Config(retryLimit: nat, base: int)

  predicate ValidConfig(config: Config) {
    config.base > 0
  }

  // ----- Steps

  predicate ProbeOf(db: Db, r: Revision, i: InstanceId) {
    r in db.policies && db.policies[r].state == Probing && db.policies[r].probe == Some(i)
  }

  /** reserveAttempt: no policy row, or its waiting time is over. */
  predicate MayAttempt(db: Db, r: Revision) {
    r in db.policies ==>
      db.policies[r].state == BackingOff && db.policies[r].nextRetryAt.Some? && db.policies[r].nextRetryAt.value <= db.now
  }

  function ReserveAttempt(db: Db, r: Revision, i: InstanceId): Db {
    if MayAttempt(db, r) && r in db.policies
    then db.(policies := db.policies[r := db.policies[r].(state := Probing, probe := Some(i), nextRetryAt := None)])
    else db
  }

  function Create(db: Db, r: Revision, i: InstanceId): Db {
    if i in db.instances || !MayAttempt(db, r) then db
    else ReserveAttempt(db, r, i).(
      instances := db.instances[i := Instance(r, Creating, false)],
      creates := db.creates[i := Command(Pending, 0)])
  }

  /** The states in which a create is carried out. */
  predicate InCreation(db: Db, i: InstanceId) {
    i in db.instances && (db.instances[i].lifecycle == Creating || db.instances[i].lifecycle == Starting)
  }

  /** There is no policy row, or it waits for this instance. */
  predicate Admitted(db: Db, i: InstanceId) {
    i in db.instances && (db.instances[i].revision in db.policies ==> ProbeOf(db, db.instances[i].revision, i))
  }

  /** Only the probe is claimed while a policy row exists. */
  predicate Claimable(db: Db, i: InstanceId) {
    i in db.creates && db.creates[i].state == Pending && InCreation(db, i) && Admitted(db, i)
  }

  function Claim(db: Db, i: InstanceId): Db {
    if Claimable(db, i)
    then db.(creates := db.creates[i := Command(InProgress, db.creates[i].attempts + 1)],
             executing := db.executing + multiset{i})
    else db
  }

  // executeCreate ends in one of five ways; the command is written whatever became of it meanwhile.

  predicate Executing(db: Db, i: InstanceId) {
    i in db.executing && i in db.creates
  }

  function Ended(db: Db, i: InstanceId, state: CommandState): Db
    requires Executing(db, i)
  {
    db.(creates := db.creates[i := db.creates[i].(state := state)], executing := db.executing - multiset{i})
  }

  function Placed(db: Db, i: InstanceId, to: Lifecycle): Db {
    if InCreation(db, i) then db.(instances := db.instances[i := db.instances[i].(lifecycle := to)]) else db
  }

  /** The container runs. */
  function Succeed(db: Db, i: InstanceId): Db {
    if Executing(db, i) then Placed(Ended(db, i, Succeeded), i, Starting) else db
  }

  /** The instance was given up before. */
  function Decline(db: Db, i: InstanceId): Db {
    if Executing(db, i) && !InCreation(db, i) then Ended(db, i, CommandFailed) else db
  }

  /** The stored specification does not fit any more. */
  function DropObsolete(db: Db, i: InstanceId): Db {
    if Executing(db, i) then Placed(Ended(db, i, CommandCancelled), i, InstanceFailed) else db
  }

  /** An error while the worker is stopping. */
  function Requeue(db: Db, i: InstanceId): Db {
    if Executing(db, i) then Ended(db, i, Pending) else db
  }

  /** Any other error: the command fails, and the instance has yet to be failed. */
  function FailCommand(db: Db, i: InstanceId): Db {
    if Executing(db, i) then Ended(db, i, CommandFailed).(reporting := db.reporting + multiset{i}) else db
  }

  function Report(db: Db, i: InstanceId, reason: Reason): Db {
    if i in db.reporting && (reason == CreateFailed || reason == HostOffline)
    then Fail(db, i, reason).(reporting := db.reporting - multiset{i}) else db
  }

  function RecoverInterrupted(db: Db): Db {
    db.(creates := map i | i in db.creates ::
      if db.creates[i].state == InProgress then db.creates[i].(state := Pending) else db.creates[i])
  }

  /** The process ends, with all its calls, and a new one returns the claimed creates to the queue. */
  function Restart(db: Db): Db {
    RecoverInterrupted(db).(executing := multiset{}, reporting := multiset{}, failing := {}, readying := {})
  }

  /** The lifecycle updates that have no step of their own. */
  predicate MayMove(db: Db, i: InstanceId, to: Lifecycle) {
    i in db.instances && Follows(db.instances[i].lifecycle, to) && (to == Draining || to == Stopping || to == Stopped)
  }

  function Move(db: Db, i: InstanceId, to: Lifecycle): Db {
    if MayMove(db, i, to)
    then db.(instances := db.instances[i := db.instances[i].(lifecycle := to)]) else db
  }

  /** failInstance, up to its first transaction. */
  function Fail(db: Db, i: InstanceId, reason: Reason): Db {
    if i in db.instances && Live(db.instances[i].lifecycle)
    then
      var failed := db.(instances := db.instances[i := db.instances[i].(lifecycle := InstanceFailed)]);
      if CountsAsStartupFailure(reason, db.instances[i].ready) then failed.(failing := db.failing + {i}) else failed
    else db
  }

  /**
   The failures that the reconciler and the host maintenance report. A timeout or a
   missing runtime is one of an instance that was seen starting or running.
   */
  predicate MayFail(db: Db, i: InstanceId, reason: Reason) {
    && i in db.instances && reason != CreateFailed
    && (reason == StartupTimeout || reason == RuntimeMissing ==> db.instances[i].lifecycle != Creating)
  }

  function FailElsewhere(db: Db, i: InstanceId, reason: Reason): Db {
    if MayFail(db, i, reason) then Fail(db, i, reason) else db
  }

  /** The create of a creating instance is in the queue. */
  predicate Waits(db: Db, i: InstanceId) {
    i in db.creates && db.creates[i].state == Pending && i in db.instances && db.instances[i].lifecycle == Creating
  }

  function PendingCreating(db: Db, r: Revision): set<InstanceId> {
    set i | i in db.creates && Waits(db, i) && db.instances[i].revision == r
  }

  function CancelCreates(db: Db, who: set<InstanceId>): Db {
    db.(creates := map i | i in db.creates ::
          if i in who then db.creates[i].(state := CommandCancelled) else db.creates[i],
        instances := map i | i in db.instances ::
          if i in who then db.instances[i].(lifecycle := Stopped) else db.instances[i])
  }

  /** A failure counts if it is the first one of the revision, or the probe's. */
  predicate Counted(db: Db, i: InstanceId) {
    i in db.instances &&
    var r := db.instances[i].revision;
    r in db.policies ==> ProbeOf(db, r, i)
  }

  function CountAfter(db: Db, r: Revision): int {
    1 + if r in db.policies then db.policies[r].failureCount else 0
  }

  function FailedPolicy(config: Config, count: int, now: int, i: InstanceId): Policy
    requires ValidConfig(config) && count >= 1
  {
    match DecideStartupFailure(count, config.retryLimit, config.base).decision
    case Block => Policy(Blocked, count, None, None, i)
    case BackOff(delayMs) => Policy(BackingOff, count, Some(now + delayMs), None, i)
  }

  function RecordFailure(db: Db, config: Config, i: InstanceId): Db
    requires ValidConfig(config)
  {
    if i !in db.failing then db
    else
      var taken := db.(failing := db.failing - {i});
      if !Counted(db, i) || CountAfter(db, db.instances[i].revision) < 1 then taken
      else
        var r := db.instances[i].revision;
        var written := taken.(policies := db.policies[r := FailedPolicy(config, CountAfter(db, r), db.now, i)]);
        CancelCreates(written, PendingCreating(db, r) - {i})
  }

  /** SERVER_READY, up to its first update. */
  function Ready(db: Db, i: InstanceId): Db {
    if i in db.instances && db.instances[i].lifecycle == Starting
    then db.(instances := db.instances[i := db.instances[i].(lifecycle := Running, ready := true)],
             readying := db.readying + {i})
    else db
  }

  /** A ready instance clears the policy row, whatever its state. */
  function Clear(db: Db, i: InstanceId): Db {
    if i in db.readying && i in db.instances
    then db.(policies := db.policies - {db.instances[i].revision}, readying := db.readying - {i}) else db
  }

  function RequestReset(db: Db, r: Revision): Db {
    if r in db.policies && db.policies[r].state == Blocked
    then db.(policies := db.policies[r := db.policies[r].(state := Resetting)]) else db
  }

  /** The revision is no longer the current one of its variant. */
  function MarkObsolete(db: Db, r: Revision): Db {
    if r in db.policies then db.(policies := db.policies[r := db.policies[r].(state := Resetting)]) else db
  }

  /** The waiting creates of some instances are cancelled, and those instances are given up. */
  function CancelPending(db: Db, ids: set<InstanceId>): Db {
    var who := set i | i in ids && i in db.creates && db.creates[i].state == Pending;
    db.(creates := map i | i in db.creates ::
          if i in who then db.creates[i].(state := CommandCancelled) else db.creates[i],
        instances := map i | i in db.instances ::
          if i in who && db.instances[i].lifecycle == Creating then db.instances[i].(lifecycle := Stopped)
          else db.instances[i])
  }

  function DeleteReset(db: Db, r: Revision): Db {
    if r in db.policies && db.policies[r].state == Resetting then db.(policies := db.policies - {r}) else db
  }

  datatype Action =
    | DoCreate(r: Revision, i: InstanceId)
    | DoClaim(i: InstanceId)
    | DoSucceed(i: InstanceId)
    | DoDecline(i: InstanceId)
    | DoDropObsolete(i: InstanceId)
    | DoRequeue(i: InstanceId)
    | DoFailCommand(i: InstanceId)
    | DoForgetCreate(i: InstanceId)
    | DoReport(i: InstanceId, reason: Reason)
    | DoForgetReport(i: InstanceId)
    | DoRecoverInterrupted
    | DoRestart
    | DoMove(i: InstanceId, to: Lifecycle)
    | DoFail(i: InstanceId, reason: Reason)
    | DoRecordFailure(i: InstanceId)
    | DoForgetFailure(i: InstanceId)
    | DoReady(i: InstanceId)
    | DoForgetReady(i: InstanceId)
    | DoClear(i: InstanceId)
    | DoRequestReset(r: Revision)
    | DoMarkObsolete(r: Revision)
    | DoCancelPending(ids: set<InstanceId>)
    | DoDeleteReset(r: Revision)
    | DoWait(ms: nat)

  function Apply(db: Db, config: Config, a: Action): Db
    requires ValidConfig(config)
  {
    match a
    case DoCreate(r, i) => Create(db, r, i)
    case DoClaim(i) => Claim(db, i)
    case DoSucceed(i) => Succeed(db, i)
    case DoDecline(i) => Decline(db, i)
    case DoDropObsolete(i) => DropObsolete(db, i)
    case DoRequeue(i) => Requeue(db, i)
    case DoFailCommand(i) => FailCommand(db, i)
    case DoForgetCreate(i) => db.(executing := db.executing - multiset{i})
    case DoReport(i, reason) => Report(db, i, reason)
    case DoForgetReport(i) => db.(reporting := db.reporting - multiset{i})
    case DoRecoverInterrupted => RecoverInterrupted(db)
    case DoRestart => Restart(db)
    case DoMove(i, to) => Move(db, i, to)
    case DoFail(i, reason) => FailElsewhere(db, i, reason)
    case DoRecordFailure(i) => RecordFailure(db, config, i)
    case DoForgetFailure(i) => db.(failing := db.failing - {i})
    case DoReady(i) => Ready(db, i)
    case DoForgetReady(i) => db.(readying := db.readying - {i})
    case DoClear(i) => Clear(db, i)
    case DoRequestReset(r) => RequestReset(db, r)
    case DoMarkObsolete(r) => MarkObsolete(db, r)
    case DoCancelPending(ids) => CancelPending(db, ids)
    case DoDeleteReset(r) => DeleteReset(db, r)
    case DoWait(ms) => db.(now := db.now + ms)
  }

  // ----- Runs with their history

  /** Since the policy row of a revision was inserted: probes reserved, and when it was inserted. */
  datatype World = World(db: Db, probes: map<Revision, nat>, first: map<Revision, int>)

  ghost function Step(w: World, config: Config, a: Action): World
    requires ValidConfig(config)
  {
    var after := Apply(w.db, config, a);
    match a
    case DoRecordFailure(i) =>
      if i in w.db.instances && w.db.instances[i].revision in after.policies.Keys - w.db.policies.Keys
      then World(after, w.probes[w.db.instances[i].revision := 0], w.first[w.db.instances[i].revision := w.db.now])
      else World(after, w.probes, w.first)
    case DoCreate(r, i) =>
      if r in w.probes && r in w.db.policies && after.policies != w.db.policies
      then World(after, w.probes[r := w.probes[r] + 1], w.first)
      else World(after, w.probes, w.first)
    case _ => World(after, w.probes, w.first)
  }

  ghost function Run(w: World, config: Config, actions: seq<Action>): World
    requires ValidConfig(config)
  {
    if actions == [] then w else Step(Run(w, config, actions[..|actions| - 1]), config, actions[|actions| - 1])
  }

  /** The same without the history. */
  ghost function RunDb(db: Db, config: Config, actions: seq<Action>): Db
    requires ValidConfig(config)
  {
    if actions == [] then db else Apply(RunDb(db, config, actions[..|actions| - 1]), config, actions[|actions| - 1])
  }

  lemma {:induction false} RunIsRunDb(w: World, config: Config, actions: seq<Action>)
    requires ValidConfig(config)
    ensures Run(w, config, actions).db == RunDb(w.db, config, actions)
  {
    if actions != [] {
      RunIsRunDb(w, config, actions[..|actions| - 1]);
    }
  }

  ghost predicate Fresh(w: World) {
    && w.db.policies == map[] && w.db.creates == map[]
    && w.db.executing == multiset{} && w.db.reporting == multiset{} && w.db.failing == {} && w.db.readying == {}
  }

  // ----- Invariant

  function Outstanding(p: Policy): int {
    if p.probe.Some? then 1 else 0
  }

  /** The row of one revision, with its history. */
  ghost predicate PolicyOk(config: Config, p: Policy, probes: nat, first: int, now: int) {
    && 1 <= p.failureCount <= config.retryLimit + 1
    && p.failureCount == 1 + probes - Outstanding(p)
    && first <= now
    && match p.state
       case BackingOff =>
         p.probe.None? && p.failureCount <= config.retryLimit && p.nextRetryAt.Some? &&
         p.nextRetryAt.value >= first + TotalDelay(config.base, p.failureCount)
       case Probing =>
         p.probe.Some? && p.failureCount <= config.retryLimit &&
         now >= first + TotalDelay(config.base, p.failureCount)
       case Blocked =>
         p.probe.None? && p.failureCount == config.retryLimit + 1 &&
         now >= first + TotalDelay(config.base, config.retryLimit)
       case Resetting => true
  }

  /** Every waiting create is the probe, or was claimed before. */
  ghost predicate QuietOk(db: Db, r: Revision) {
    r in db.policies ==>
      forall i | i in PendingCreating(db, r) :: db.policies[r].probe == Some(i) || db.creates[i].attempts > 0
  }

  ghost predicate RowsOk(db: Db) {
    && db.creates.Keys <= db.instances.Keys
    && (forall i | i in db.failing :: i in db.instances && db.instances[i].lifecycle != Creating)
    && (forall i | i in db.creates && db.creates[i].state == InProgress :: db.creates[i].attempts > 0)
    && (forall i | i in db.executing :: i in db.creates && db.creates[i].attempts > 0)
  }

  ghost predicate Inv(w: World, config: Config) {
    && RowsOk(w.db)
    && (forall r | r in w.db.policies ::
          r in w.probes && r in w.first && PolicyOk(config, w.db.policies[r], w.probes[r], w.first[r], w.db.now))
    && (forall r | r in w.db.policies :: QuietOk(w.db, r))
  }

  lemma LaterPolicyOk(config: Config, p: Policy, probes: nat, first: int, now: int, later: int)
    requires PolicyOk(config, p, probes, first, now) && now <= later
    ensures PolicyOk(config, p, probes, first, later)
  {
  }

  /** Steps that leave the policy rows alone only have to keep the waiting creates quiet. */
  lemma SamePoliciesKeep(w: World, config: Config, a: Action)
    requires ValidConfig(config) && Inv(w, config)
    requires var after := Apply(w.db, config, a);
             after.policies == w.db.policies && after.now >= w.db.now && RowsOk(after) &&
             forall r | r in w.db.policies :: QuietOk(after, r)
    ensures Inv(Step(w, config, a), config)
  {
    var after := Step(w, config, a);
    forall r | r in after.db.policies
      ensures r in after.probes && r in after.first &&
              PolicyOk(config, after.db.policies[r], after.probes[r], after.first[r], after.db.now)
    {
      LaterPolicyOk(config, w.db.policies[r], w.probes[r], w.first[r], w.db.now, after.db.now);
    }
  }

  /** No new waiting create, and no claimed one forgotten. */
  ghost predicate NoNewWaiting(before: Db, after: Db) {
    forall i | Waits(after, i) ::
      after.creates[i].attempts > 0 ||
      (Waits(before, i) && after.instances[i].revision == before.instances[i].revision &&
        before.creates[i].attempts == 0)
  }

  lemma QuietFollows(before: Db, after: Db, r: Revision)
    requires QuietOk(before, r) && NoNewWaiting(before, after)
    requires r in after.policies ==> r in before.policies && after.policies[r].probe == before.policies[r].probe
    ensures QuietOk(after, r)
  {
  }

  predicate CommandStep(a: Action) {
    !(a.DoCreate? || a.DoRecordFailure? || a.DoClear? || a.DoRequestReset? || a.DoMarkObsolete? || a.DoDeleteReset?)
  }

  lemma CommandStepKeeps(w: World, config: Config, a: Action)
    requires ValidConfig(config) && Inv(w, config) && CommandStep(a)
    ensures Inv(Step(w, config, a), config)
  {
    var after := Apply(w.db, config, a);
    CommandStepRows(w.db, config, a);
    forall r | r in w.db.policies ensures QuietOk(after, r) {
      QuietFollows(w.db, after, r);
    }
    SamePoliciesKeep(w, config, a);
  }

  /** No policy row changes, time does not run back, and no new create waits. */
  ghost predicate Quiet(before: Db, after: Db) {
    RowsOk(after) && NoNewWaiting(before, after) && after.policies == before.policies && after.now >= before.now
  }

  lemma EndedIsQuiet(db: Db, i: InstanceId, state: CommandState)
    requires RowsOk(db) && Executing(db, i) && state != InProgress
    ensures Quiet(db, Ended(db, i, state))
  {
  }

  lemma PlacedIsQuiet(before: Db, db: Db, i: InstanceId, to: Lifecycle)
    requires Quiet(before, db) && to != Creating
    ensures Quiet(before, Placed(db, i, to))
  {
    forall j | Waits(Placed(db, i, to), j) ensures Waits(db, j) {
    }
  }

  lemma FailedIsQuiet(db: Db, i: InstanceId, reason: Reason)
    requires RowsOk(db)
    ensures Quiet(db, Fail(db, i, reason))
  {
    forall j | Waits(Fail(db, i, reason), j) ensures Waits(db, j) {
    }
  }

  predicate EndsCreate(a: Action) {
    a.DoSucceed? || a.DoDecline? || a.DoDropObsolete? || a.DoRequeue? || a.DoFailCommand?
  }

  /**
   A create that is carried out ends once: it succeeds, is cancelled, goes back to
   the queue, or fails, and only the last is reported. Its instance is then starting
   or failed if it still was in creation, and no other row changes.
   */
  lemma CreateEnds(db: Db, config: Config, a: Action)
    requires ValidConfig(config) && EndsCreate(a) && Executing(db, a.i) && (a.DoDecline? ==> !InCreation(db, a.i))
    ensures
      var i, after := a.i, Apply(db, config, a);
      && i in after.creates && after.creates == db.creates[i := db.creates[i].(state := after.creates[i].state)]
      && (after.creates[i].state == Succeeded <==> a.DoSucceed?)
      && (after.creates[i].state == CommandCancelled <==> a.DoDropObsolete?)
      && (after.creates[i].state == Pending <==> a.DoRequeue?) && after.creates[i].state != InProgress
      && (a.DoFailCommand? <==> after.reporting == db.reporting + multiset{i})
      && after.executing == db.executing - multiset{i} && after.policies == db.policies
      && (Claimable(after, i) ==> a.DoRequeue?)
    ensures
      var i, after := a.i, Apply(db, config, a).instances;
      after == if InCreation(db, i) && a.DoSucceed? then db.instances[i := db.instances[i].(lifecycle := Starting)]
               else if InCreation(db, i) && a.DoDropObsolete? then db.instances[i := db.instances[i].(lifecycle := InstanceFailed)]
               else db.instances
  {
    assert (db.reporting + multiset{a.i})[a.i] == db.reporting[a.i] + 1;
  }

  lemma EndingIsQuiet(db: Db, config: Config, a: Action)
    requires ValidConfig(config) && RowsOk(db) && EndsCreate(a)
    ensures Quiet(db, Apply(db, config, a))
  {
    if Executing(db, a.i) {
      match a {
        case DoSucceed(i) =>
          EndedIsQuiet(db, i, Succeeded);
          PlacedIsQuiet(db, Ended(db, i, Succeeded), i, Starting);
        case DoDecline(i) =>
          EndedIsQuiet(db, i, CommandFailed);
        case DoDropObsolete(i) =>
          EndedIsQuiet(db, i, CommandCancelled);
          PlacedIsQuiet(db, Ended(db, i, CommandCancelled), i, InstanceFailed);
        case DoRequeue(i) =>
          EndedIsQuiet(db, i, Pending);
        case DoFailCommand(i) =>
          EndedIsQuiet(db, i, CommandFailed);
      }
    }
  }

  lemma RecoveryIsQuiet(db: Db)
    requires RowsOk(db)
    ensures Quiet(db, RecoverInterrupted(db)) && Quiet(db, Restart(db))
  {
  }

  lemma CancellingIsQuiet(db: Db, ids: set<InstanceId>)
    requires RowsOk(db)
    ensures Quiet(db, CancelPending(db, ids))
  {
  }

  lemma ClaimIsQuiet(db: Db, i: InstanceId)
    requires RowsOk(db)
    ensures Quiet(db, Claim(db, i))
  {
  }

  lemma MovingIsQuiet(db: Db, i: InstanceId, to: Lifecycle)
    requires RowsOk(db)
    ensures Quiet(db, Move(db, i, to))
  {
    forall j | Waits(Move(db, i, to), j) ensures Waits(db, j) {
    }
  }

  lemma ReadyIsQuiet(db: Db, i: InstanceId)
    requires RowsOk(db)
    ensures Quiet(db, Ready(db, i))
  {
    forall j | Waits(Ready(db, i), j) ensures Waits(db, j) {
    }
  }

  /** A call ends by an exception, or time passes. */
  predicate Forgets(a: Action) {
    a.DoForgetCreate? || a.DoForgetReport? || a.DoForgetFailure? || a.DoForgetReady? || a.DoWait?
  }

  lemma ForgettingIsQuiet(db: Db, config: Config, a: Action)
    requires ValidConfig(config) && RowsOk(db) && Forgets(a)
    ensures Quiet(db, Apply(db, config, a))
  {
  }

  lemma ReportIsQuiet(db: Db, i: InstanceId, reason: Reason)
    requires RowsOk(db)
    ensures Quiet(db, Report(db, i, reason))
  {
    FailedIsQuiet(db, i, reason);
    CallsAreQuiet(db, Fail(db, i, reason), db.reporting - multiset{i});
  }

  lemma CallsAreQuiet(before: Db, db: Db, reporting: multiset<InstanceId>)
    requires Quiet(before, db)
    ensures Quiet(before, db.(reporting := reporting))
  {
    forall j | Waits(db.(reporting := reporting), j) ensures Waits(db, j) {
    }
  }

  lemma CommandStepRows(db: Db, config: Config, a: Action)
    requires ValidConfig(config) && RowsOk(db) && CommandStep(a)
    ensures Quiet(db, Apply(db, config, a))
  {
    if EndsCreate(a) {
      EndingIsQuiet(db, config, a);
    } else if Forgets(a) {
      ForgettingIsQuiet(db, config, a);
    } else if a.DoClaim? {
      ClaimIsQuiet(db, a.i);
    } else if a.DoRecoverInterrupted? || a.DoRestart? {
      RecoveryIsQuiet(db);
    } else if a.DoCancelPending? {
      CancellingIsQuiet(db, a.ids);
    } else if a.DoReport? {
      ReportIsQuiet(db, a.i, a.reason);
    } else if a.DoFail? {
      FailedIsQuiet(db, a.i, a.reason);
    } else if a.DoMove? {
      MovingIsQuiet(db, a.i, a.to);
    } else {
      ReadyIsQuiet(db, a.i);
    }
  }

  lemma CreateKeeps(w: World, config: Config, r: Revision, i: InstanceId)
    requires ValidConfig(config) && Inv(w, config)
    ensures Inv(Step(w, config, DoCreate(r, i)), config)
  {
    var db, after := w.db, Step(w, config, DoCreate(r, i));
    forall s | s in db.policies ensures PolicyOk(config, db.policies[s], w.probes[s], w.first[s], db.now) {
    }
    QuietCreate(db, r, i);
    if MayAttempt(db, r) && i !in db.instances && r in db.policies {
      assert PolicyOk(config, after.db.policies[r], w.probes[r] + 1, w.first[r], db.now);
    }
  }

  lemma QuietCreate(db: Db, r: Revision, i: InstanceId)
    requires RowsOk(db) && forall s | s in db.policies :: QuietOk(db, s)
    requires r in db.policies && db.policies[r].state == BackingOff ==> db.policies[r].probe == None
    ensures RowsOk(Create(db, r, i))
    ensures forall s | s in Create(db, r, i).policies :: QuietOk(Create(db, r, i), s)
  {
    var after := Create(db, r, i);
    forall s | s in after.policies ensures QuietOk(after, s) {
      assert QuietOk(db, s);
      forall j | j in PendingCreating(after, s) ensures after.policies[s].probe == Some(j) || after.creates[j].attempts > 0 {
        assert j != i ==> j in PendingCreating(db, s);
      }
    }
  }

  /** A counted failure moves the policy along, and nothing unclaimed stays queued. */
  lemma CountedFailureKeeps(w: World, config: Config, i: InstanceId)
    requires ValidConfig(config) && Inv(w, config)
    requires i in w.db.failing && Counted(w.db, i)
    ensures Inv(Step(w, config, DoRecordFailure(i)), config)
  {
    var r := w.db.instances[i].revision;
    FailedPolicyOk(w, config, i);
    CountedFailureStep(w, config, i);
    QuietAfterFailure(w.db, config, i);
    var after := Step(w, config, DoRecordFailure(i));
    forall s | s in after.db.policies
      ensures s in after.probes && s in after.first &&
              PolicyOk(config, after.db.policies[s], after.probes[s], after.first[s], after.db.now)
    {
      assert s != r ==> PolicyOk(config, w.db.policies[s], w.probes[s], w.first[s], w.db.now);
    }
  }

  lemma CountedFailureStep(w: World, config: Config, i: InstanceId)
    requires ValidConfig(config) && i in w.db.failing && Counted(w.db, i)
    requires CountAfter(w.db, w.db.instances[i].revision) >= 1
    ensures var r, after := w.db.instances[i].revision, Step(w, config, DoRecordFailure(i));
            && after.db == RecordFailure(w.db, config, i) && after.db.now == w.db.now
            && after.db.policies == w.db.policies[r := FailedPolicy(config, CountAfter(w.db, r), w.db.now, i)]
            && after.probes == (if r in w.db.policies then w.probes else w.probes[r := 0])
            && after.first == (if r in w.db.policies then w.first else w.first[r := w.db.now])
  {
  }

  lemma QuietAfterFailure(db: Db, config: Config, i: InstanceId)
    requires ValidConfig(config) && RowsOk(db) && forall s | s in db.policies :: QuietOk(db, s)
    requires i in db.failing && Counted(db, i) && CountAfter(db, db.instances[i].revision) >= 1
    ensures var after := RecordFailure(db, config, i);
            RowsOk(after) && PendingCreating(after, db.instances[i].revision) == {} &&
            forall s | s in after.policies :: QuietOk(after, s)
  {
    var after := RecordFailure(db, config, i);
    forall s, j | j in PendingCreating(after, s) ensures j in PendingCreating(db, s) && s != db.instances[i].revision {
    }
    forall s | s in after.policies ensures QuietOk(after, s) {
      assert s != db.instances[i].revision ==> QuietOk(db, s);
    }
  }

  lemma FailedPolicyOk(w: World, config: Config, i: InstanceId)
    requires ValidConfig(config) && Inv(w, config)
    requires i in w.db.failing && Counted(w.db, i)
    ensures var r := w.db.instances[i].revision;
            var count := CountAfter(w.db, r);
            count >= 1 &&
            PolicyOk(config, FailedPolicy(config, count, w.db.now, i), count - 1,
                     if r in w.db.policies then w.first[r] else w.db.now, w.db.now) &&
            (r in w.db.policies ==> w.probes[r] == count - 1)
  {
    var r := w.db.instances[i].revision;
    var count := CountAfter(w.db, r);
    if r in w.db.policies {
      assert PolicyOk(config, w.db.policies[r], w.probes[r], w.first[r], w.db.now);
    }
  }

  /** Rows may be deleted, or set to be reset. */
  ghost predicate RowsGo(before: Db, after: Db) {
    && after == before.(policies := after.policies, readying := after.readying)
    && forall r | r in after.policies ::
         r in before.policies &&
         (after.policies[r] == before.policies[r] || after.policies[r] == before.policies[r].(state := Resetting))
  }

  lemma RowsGoKeeps(w: World, after: World, config: Config)
    requires Inv(w, config) && RowsGo(w.db, after.db) && after.probes == w.probes && after.first == w.first
    ensures Inv(after, config)
  {
    assert NoNewWaiting(w.db, after.db);
    forall r | r in after.db.policies
      ensures QuietOk(after.db, r) && r in after.probes && r in after.first &&
              PolicyOk(config, after.db.policies[r], after.probes[r], after.first[r], after.db.now)
    {
      assert PolicyOk(config, w.db.policies[r], w.probes[r], w.first[r], w.db.now);
      QuietFollows(w.db, after.db, r);
    }
  }

  lemma PolicyStepKeeps(w: World, config: Config, a: Action)
    requires ValidConfig(config) && Inv(w, config)
    requires a.DoClear? || a.DoRequestReset? || a.DoMarkObsolete? || a.DoDeleteReset?
    ensures Inv(Step(w, config, a), config)
  {
    PolicyStepRows(w.db, config, a);
    RowsGoKeeps(w, Step(w, config, a), config);
  }

  lemma PolicyStepRows(db: Db, config: Config, a: Action)
    requires ValidConfig(config) && (a.DoClear? || a.DoRequestReset? || a.DoMarkObsolete? || a.DoDeleteReset?)
    ensures RowsGo(db, Apply(db, config, a))
  {
  }

  lemma RecordFailureKeeps(w: World, config: Config, i: InstanceId)
    requires ValidConfig(config) && Inv(w, config)
    ensures Inv(Step(w, config, DoRecordFailure(i)), config)
  {
    if i in w.db.failing && Counted(w.db, i) {
      CountedFailureKeeps(w, config, i);
    } else {
      var after := RecordFailure(w.db, config, i);
      forall r | r in w.db.policies ensures QuietOk(after, r) {
        QuietFollows(w.db, after, r);
      }
      SamePoliciesKeep(w, config, DoRecordFailure(i));
    }
  }

  lemma StepKeeps(w: World, config: Config, a: Action)
    requires ValidConfig(config) && Inv(w, config)
    ensures Inv(Step(w, config, a), config)
  {
    if a.DoCreate? {
      CreateKeeps(w, config, a.r, a.i);
    } else if a.DoRecordFailure? {
      RecordFailureKeeps(w, config, a.i);
    } else if CommandStep(a) {
      CommandStepKeeps(w, config, a);
    } else {
      PolicyStepKeeps(w, config, a);
    }
  }

  /** The policy is exact in every reachable state. */
  lemma {:induction false} RunKeeps(w: World, config: Config, actions: seq<Action>)
    requires ValidConfig(config) && Inv(w, config)
    ensures Inv(Run(w, config, actions), config)
  {
    if actions != [] {
      var n := |actions| - 1;
      RunKeeps(w, config, actions[..n]);
      StepKeeps(Run(w, config, actions[..n]), config, actions[n]);
    }
  }

  // ----- What every run keeps

  /**
   Failures are counted exactly: one for the first, one for every probe that is not outstanding.
   Unless it is being reset, a revision is blocked exactly when the retries are used up.
   */
  lemma FailuresAreCountedExactly(start: World, config: Config, actions: seq<Action>, r: Revision)
    requires ValidConfig(config) && Fresh(start) && r in Run(start, config, actions).db.policies
    ensures
      var w := Run(start, config, actions);
      var p := w.db.policies[r];
      && r in w.probes
      && p.failureCount == 1 + w.probes[r] - (if p.probe.Some? then 1 else 0)
      && (p.state == Probing ==> p.probe.Some?)
      && (p.state != Resetting ==> (p.state == Blocked <==> p.failureCount == config.retryLimit + 1))
      && (p.state == Blocked ==> w.probes[r] == config.retryLimit)
  {
    RunKeeps(start, config, actions);
    var w := Run(start, config, actions);
    assert PolicyOk(config, w.db.policies[r], w.probes[r], w.first[r], w.db.now);
  }

  /** A revision is blocked only after all the waiting times between its failures, base * (2^retryLimit - 1) in all. */
  lemma BlockedNotBefore(start: World, config: Config, actions: seq<Action>, r: Revision)
    requires ValidConfig(config) && Fresh(start)
    requires var db := Run(start, config, actions).db; r in db.policies && db.policies[r].state == Blocked
    ensures var w := Run(start, config, actions);
            r in w.first && w.db.now >= w.first[r] + config.base * (Power2(config.retryLimit) - 1)
  {
    DelaysAddUp(config.base, config.retryLimit);
    RunKeeps(start, config, actions);
    var w := Run(start, config, actions);
    assert PolicyOk(config, w.db.policies[r], w.probes[r], w.first[r], w.db.now);
  }

  /**
   While a policy row exists nothing but its probe can be claimed, and every other
   create that still waits had been claimed before the row was there.
   */
  lemma OnlyTheProbeStarts(start: World, config: Config, actions: seq<Action>, i: InstanceId)
    requires ValidConfig(config) && Fresh(start)
    requires var db := Run(start, config, actions).db;
             i in db.creates && db.creates[i].state == Pending && i in db.instances &&
             db.instances[i].lifecycle == Creating && db.instances[i].revision in db.policies
    ensures var db := Run(start, config, actions).db;
            var p := db.policies[db.instances[i].revision];
            && (p.probe == Some(i) || db.creates[i].attempts > 0)
            && (Claimable(db, i) <==> p.state == Probing && p.probe == Some(i))
  {
    RunKeeps(start, config, actions);
    var db := Run(start, config, actions).db;
    assert QuietOk(db, db.instances[i].revision);
    assert i in PendingCreating(db, db.instances[i].revision);
  }

  /**
   A failure is held against its revision exactly if the create failed, the start
   took too long, or the container was gone, before the server was ever ready, and
   exactly if it is the first failure of the revision or that of its probe. Then the
   count advances by one, nothing of the revision is attempted right away, and no
   other revision is affected.
   */
  lemma FailureCountsExactlyWhen(w: World, config: Config, i: InstanceId, reason: Reason)
    requires ValidConfig(config) && Inv(w, config) && i in w.db.instances && i !in w.db.failing
    requires Live(w.db.instances[i].lifecycle)
    ensures
      var r := w.db.instances[i].revision;
      var counts := !w.db.instances[i].ready && (reason == CreateFailed || reason == StartupTimeout || reason == RuntimeMissing) &&
                    (r in w.db.policies ==> w.db.policies[r].state == Probing && w.db.policies[r].probe == Some(i));
      var after := RecordFailure(Fail(w.db, i, reason), config, i);
      && (after.policies != w.db.policies <==> counts)
      && (counts ==> r in after.policies && !MayAttempt(after, r))
      && (counts ==> after.policies[r].failureCount == 1 + if r in w.db.policies then w.db.policies[r].failureCount else 0)
      && (counts ==> forall s | s != r ::
            (s in after.policies <==> s in w.db.policies) && (s in after.policies ==> after.policies[s] == w.db.policies[s]))
  {
    var db := w.db;
    var r := db.instances[i].revision;
    var failed := Fail(db, i, reason);
    assert Counted(failed, i) <==> (r in db.policies ==> ProbeOf(db, r, i));
    if i in failed.failing && Counted(failed, i) {
      CountIsPositive(w, config, r);
      RowIsWritten(failed, config, i);
    }
  }

  /** A server got ready: it started for good, and none of its failures waits to be recorded. */
  ghost predicate Proven(db: Db, i: InstanceId) {
    i in db.instances && db.instances[i].ready && !InCreation(db, i) && i !in db.failing
  }

  /** The rows of a proven server are moved on at most. */
  ghost predicate OnlyMoved(db: Db, after: Db, i: InstanceId)
    requires i in db.instances
  {
    && i in after.instances && after.instances[i].ready == db.instances[i].ready
    && (InCreation(after, i) ==> InCreation(db, i)) && (i in after.failing ==> i in db.failing)
  }

  lemma FailureMovesOn(db: Db, i: InstanceId, j: InstanceId, reason: Reason)
    requires Proven(db, i)
    ensures OnlyMoved(db, Fail(db, j, reason), i)
  {
  }

  lemma RecordMovesOn(db: Db, config: Config, i: InstanceId, j: InstanceId)
    requires ValidConfig(config) && Proven(db, i)
    ensures OnlyMoved(db, RecordFailure(db, config, j), i)
  {
  }

  lemma EndingMovesOn(db: Db, config: Config, a: Action, i: InstanceId)
    requires ValidConfig(config) && Proven(db, i) && EndsCreate(a)
    ensures OnlyMoved(db, Apply(db, config, a), i)
  {
  }

  lemma ProvenStays(db: Db, config: Config, a: Action, i: InstanceId)
    requires ValidConfig(config) && Proven(db, i)
    ensures Proven(Apply(db, config, a), i)
  {
    if EndsCreate(a) {
      EndingMovesOn(db, config, a, i);
    } else {
      match a {
        case DoReport(j, reason) => FailureMovesOn(db, i, j, reason);
        case DoFail(j, reason) => FailureMovesOn(db, i, j, reason);
        case DoRecordFailure(j) => RecordMovesOn(db, config, i, j);
        case _ =>
      }
    }
  }

  /** Exactly a starting server gets ready; it runs then, and whatever becomes of it later is no failed start. */
  lemma {:induction false} ReadyForGood(db: Db, config: Config, i: InstanceId, actions: seq<Action>)
    requires ValidConfig(config) && i in db.instances && i !in db.failing
    ensures
      if db.instances[i].lifecycle == Starting
      then Ready(db, i).instances == db.instances[i := Instance(db.instances[i].revision, Running, true)] &&
           i in Ready(db, i).readying && Proven(RunDb(Ready(db, i), config, actions), i)
      else Ready(db, i) == db
  {
    if db.instances[i].lifecycle == Starting && actions != [] {
      var n := |actions| - 1;
      ReadyForGood(db, config, i, actions[..n]);
      ProvenStays(RunDb(Ready(db, i), config, actions[..n]), config, actions[n], i);
    }
  }

  /** After its n-th failure a revision waits base * 2^(n-1), or is blocked once the retries are used up. */
  lemma RowIsWritten(db: Db, config: Config, i: InstanceId)
    requires ValidConfig(config) && i in db.failing && Counted(db, i) && CountAfter(db, db.instances[i].revision) >= 1
    ensures
      var r, after := db.instances[i].revision, RecordFailure(db, config, i);
      && after.policies == db.policies[r := FailedPolicy(config, CountAfter(db, r), db.now, i)]
      && after.policies[r].failureCount == CountAfter(db, r) && !MayAttempt(after, r)
      && (if CountAfter(db, r) > config.retryLimit then after.policies[r].state == Blocked
          else after.policies[r].state == BackingOff &&
               after.policies[r].nextRetryAt == Some(db.now + config.base * Power2(CountAfter(db, r) - 1)))
  {
    DelayIsPositive(config.base, CountAfter(db, db.instances[i].revision) - 1);
    DelayIsPower(config.base, CountAfter(db, db.instances[i].revision) - 1);
  }

  // ----- Concurrent failures

  /** What the count can still become without another probe. */
  function Potential(p: Policy): int {
    p.failureCount + Outstanding(p)
  }

  lemma StepPotential(db: Db, config: Config, a: Action, r: Revision)
    requires ValidConfig(config) && !a.DoCreate? && r in Apply(db, config, a).policies
    requires forall s | s in db.policies :: db.policies[s].failureCount >= 1
    ensures Potential(Apply(db, config, a).policies[r]) <= if r in db.policies then Potential(db.policies[r]) else 1
  {
    if a.DoRecordFailure? {
      RecordPotential(db, config, a.i, r);
    }
  }

  lemma RecordPotential(db: Db, config: Config, i: InstanceId, r: Revision)
    requires ValidConfig(config) && r in RecordFailure(db, config, i).policies
    requires forall s | s in db.policies :: db.policies[s].failureCount >= 1
    ensures Potential(RecordFailure(db, config, i).policies[r]) <= if r in db.policies then Potential(db.policies[r]) else 1
  {
  }

  /**
   However many starts fail at the same time, the count advances once: without a
   new probe it ends at most one above where it was, and only if a probe was out.
   */
  lemma {:induction false} BurstCountsOnce(w: World, config: Config, actions: seq<Action>, r: Revision)
    requires ValidConfig(config) && Inv(w, config) && forall k | 0 <= k < |actions| :: !actions[k].DoCreate?
    requires r in Run(w, config, actions).db.policies
    ensures var count := Run(w, config, actions).db.policies[r].failureCount;
            count == 1 || (r in w.db.policies && count <= Potential(w.db.policies[r]))
  {
    BurstPotential(w, config, actions, r);
    RunKeeps(w, config, actions);
    var end := Run(w, config, actions);
    assert PolicyOk(config, end.db.policies[r], end.probes[r], end.first[r], end.db.now);
  }

  lemma {:induction false} BurstPotential(w: World, config: Config, actions: seq<Action>, r: Revision)
    requires ValidConfig(config) && Inv(w, config) && forall k | 0 <= k < |actions| :: !actions[k].DoCreate?
    requires r in Run(w, config, actions).db.policies
    ensures var p := Potential(Run(w, config, actions).db.policies[r]);
            p <= 1 || (r in w.db.policies && p <= Potential(w.db.policies[r]))
  {
    if actions != [] {
      var n := |actions| - 1;
      var before := Run(w, config, actions[..n]);
      RunKeeps(w, config, actions[..n]);
      forall s | s in before.db.policies ensures before.db.policies[s].failureCount >= 1 {
        assert PolicyOk(config, before.db.policies[s], before.probes[s], before.first[s], before.db.now);
      }
      StepPotential(before.db, config, actions[n], r);
      if r in before.db.policies {
        BurstPotential(w, config, actions[..n], r);
      }
    }
  }

  // ----- A probe that is lost

  /** Its create is carried out, or will be: a claimed one that nobody carries out is queued again by a restart. */
  predicate MayExecute(db: Db, i: InstanceId) {
    i in db.executing ||
    (i in db.creates && (db.creates[i].state == Pending || db.creates[i].state == InProgress) && Admitted(db, i))
  }

  /** An instance that may still clear the policy row of its revision. */
  predicate MayGetReady(db: Db, i: InstanceId)
    requires i in db.instances
  {
    i in db.readying || db.instances[i].lifecycle == Starting || (db.instances[i].lifecycle == Creating && MayExecute(db, i))
  }

  /** A probe whose failure is counted, or still would be: nobody fails a creating one but its own create. */
  predicate MayBeCounted(db: Db, i: InstanceId)
    requires i in db.instances
  {
    i in db.failing ||
    (Live(db.instances[i].lifecycle) && !db.instances[i].ready &&
      (db.instances[i].lifecycle != Creating || i in db.reporting || MayExecute(db, i)))
  }

  /** The revision waits for its probe, but nothing of it can get ready any more, nor can the probe be counted as failed. */
  ghost predicate Stranded(db: Db, r: Revision) {
    && r in db.policies && db.policies[r].state == Probing
    && forall i | i in db.instances && db.instances[i].revision == r ::
         !MayGetReady(db, i) && (db.policies[r].probe == Some(i) ==> !MayBeCounted(db, i))
  }

  lemma StrandedStep(db: Db, config: Config, a: Action, r: Revision)
    requires ValidConfig(config) && Stranded(db, r) && a != DoMarkObsolete(r)
    ensures Stranded(Apply(db, config, a), r) && Apply(db, config, a).policies[r] == db.policies[r]
  {
    if EndsCreate(a) {
      StrandedEnding(db, config, a, r);
    } else if Forgets(a) {
      StrandedForgetting(db, config, a, r);
    } else if a.DoFail? {
      StrandedFail(db, a.i, a.reason, r);
    } else if a.DoReport? {
      StrandedReport(db, a.i, a.reason, r);
    } else if a.DoRecordFailure? {
      StrandedRecord(db, config, a.i, r);
    } else if a.DoCreate? {
      StrandedCreate(db, a.r, a.i, r);
    } else if a.DoRecoverInterrupted? || a.DoRestart? || a.DoCancelPending? {
      StrandedRecovery(db, if a.DoCancelPending? then a.ids else {}, r);
    } else if a.DoClaim? || a.DoMove? || a.DoReady? {
      StrandedInstance(db, a.i, if a.DoMove? then a.to else Stopped, r);
    } else {
      StrandedRows(db, config, a, r);
    }
  }

  /** Fewer calls. */
  ghost predicate CallsGo(before: Db, after: Db) {
    && after == before.(executing := after.executing, reporting := after.reporting,
                        failing := after.failing, readying := after.readying, now := after.now)
    && after.executing <= before.executing && after.reporting <= before.reporting
    && after.failing <= before.failing && after.readying <= before.readying
  }

  lemma StrandedWithout(before: Db, after: Db, r: Revision)
    requires Stranded(before, r) && CallsGo(before, after)
    ensures Stranded(after, r)
  {
    forall i | i in after.instances && after.instances[i].revision == r
      ensures !MayGetReady(after, i) && (after.policies[r].probe == Some(i) ==> !MayBeCounted(after, i))
    {
      assert !MayGetReady(before, i) && (i in after.executing ==> i in before.executing);
      assert i in after.reporting ==> i in before.reporting;
    }
  }

  lemma StrandedForgetting(db: Db, config: Config, a: Action, r: Revision)
    requires ValidConfig(config) && Stranded(db, r) && Forgets(a)
    ensures Stranded(Apply(db, config, a), r) && Apply(db, config, a).policies == db.policies
  {
    assert CallsGo(db, Apply(db, config, a));
    StrandedWithout(db, Apply(db, config, a), r);
  }

  lemma StrandedCreate(db: Db, other: Revision, i: InstanceId, r: Revision)
    requires Stranded(db, r)
    ensures Stranded(Create(db, other, i), r) && Create(db, other, i).policies[r] == db.policies[r]
  {
    var after := Create(db, other, i);
    if after != db {
      assert !MayAttempt(db, r) && other != r;
      forall j | j in after.instances && after.instances[j].revision == r ensures j in db.instances && j != i {
      }
    }
  }

  lemma StrandedRecovery(db: Db, ids: set<InstanceId>, r: Revision)
    requires Stranded(db, r)
    ensures Stranded(RecoverInterrupted(db), r) && Stranded(Restart(db), r) && Stranded(CancelPending(db, ids), r)
  {
  }

  /** Nothing of it can be claimed or get ready. */
  lemma StrandedInstance(db: Db, i: InstanceId, to: Lifecycle, r: Revision)
    requires Stranded(db, r)
    ensures Stranded(Claim(db, i), r) && Stranded(Move(db, i, to), r) && Stranded(Ready(db, i), r)
  {
    assert Claimable(db, i) && db.instances[i].revision == r ==> MayExecute(db, i);
  }

  /** Only a row that is not probing is reset or deleted. */
  lemma StrandedRows(db: Db, config: Config, a: Action, r: Revision)
    requires ValidConfig(config) && Stranded(db, r) && a != DoMarkObsolete(r)
    requires a.DoClear? || a.DoRequestReset? || a.DoMarkObsolete? || a.DoDeleteReset?
    ensures Stranded(Apply(db, config, a), r) && Apply(db, config, a).policies[r] == db.policies[r]
  {
    var after := Apply(db, config, a);
    PolicyStepRows(db, config, a);
    assert r in after.policies && after.policies[r] == db.policies[r];
  }

  /** Whatever is still carried out is not of a server that could start. */
  lemma StrandedEnded(db: Db, i: InstanceId, state: CommandState, r: Revision)
    requires Stranded(db, r) && Executing(db, i)
    ensures i in db.instances && db.instances[i].revision == r ==> !InCreation(db, i)
    ensures Stranded(Ended(db, i, state), r)
  {
    var after := Ended(db, i, state);
    forall j | j in after.instances && after.instances[j].revision == r
      ensures !MayGetReady(after, j) && (after.policies[r].probe == Some(j) ==> !MayBeCounted(after, j))
    {
      assert !MayGetReady(db, j);
    }
  }

  lemma StrandedPlaced(db: Db, i: InstanceId, to: Lifecycle, r: Revision)
    requires Stranded(db, r) && (i in db.instances && db.instances[i].revision == r ==> !InCreation(db, i))
    ensures Stranded(Placed(db, i, to), r)
  {
  }

  lemma StrandedFailedCommand(db: Db, i: InstanceId, r: Revision)
    requires Stranded(db, r) && (i in db.instances && db.instances[i].revision == r ==> !InCreation(db, i))
    ensures Stranded(db.(reporting := db.reporting + multiset{i}), r)
  {
  }

  lemma StrandedEnding(db: Db, config: Config, a: Action, r: Revision)
    requires ValidConfig(config) && Stranded(db, r) && EndsCreate(a)
    ensures Stranded(Apply(db, config, a), r) && Apply(db, config, a).policies == db.policies
  {
    if Executing(db, a.i) {
      match a {
        case DoSucceed(i) =>
          StrandedEnded(db, i, Succeeded, r);
          StrandedPlaced(Ended(db, i, Succeeded), i, Starting, r);
        case DoDecline(i) =>
          StrandedEnded(db, i, CommandFailed, r);
        case DoDropObsolete(i) =>
          StrandedEnded(db, i, CommandCancelled, r);
          StrandedPlaced(Ended(db, i, CommandCancelled), i, InstanceFailed, r);
        case DoRequeue(i) =>
          StrandedEnded(db, i, Pending, r);
        case DoFailCommand(i) =>
          StrandedEnded(db, i, CommandFailed, r);
          StrandedFailedCommand(Ended(db, i, CommandFailed), i, r);
      }
    }
  }

  lemma StrandedFail(db: Db, i: InstanceId, reason: Reason, r: Revision)
    requires Stranded(db, r)
    ensures Stranded(FailElsewhere(db, i, reason), r) && FailElsewhere(db, i, reason).policies == db.policies
  {
  }

  lemma StrandedReport(db: Db, i: InstanceId, reason: Reason, r: Revision)
    requires Stranded(db, r)
    ensures Stranded(Report(db, i, reason), r) && Report(db, i, reason).policies == db.policies
  {
    if i in db.reporting && (reason == CreateFailed || reason == HostOffline) {
      StrandedFailure(db, i, reason, r);
      StrandedWithout(Fail(db, i, reason), Report(db, i, reason), r);
    }
  }

  lemma StrandedFailure(db: Db, i: InstanceId, reason: Reason, r: Revision)
    requires Stranded(db, r) && i in db.reporting
    ensures Stranded(Fail(db, i, reason), r) && Fail(db, i, reason).policies == db.policies
    ensures Fail(db, i, reason).reporting == db.reporting
  {
  }

  lemma StrandedRecord(db: Db, config: Config, i: InstanceId, r: Revision)
    requires ValidConfig(config) && Stranded(db, r)
    ensures Stranded(RecordFailure(db, config, i), r) && RecordFailure(db, config, i).policies[r] == db.policies[r]
  {
    if i in db.failing && Counted(db, i) && db.instances[i].revision == r {
      assert MayBeCounted(db, i);
      assert false;
    }
  }

  /** The run does not take the revision off its variant. */
  ghost predicate KeepsCurrent(actions: seq<Action>, r: Revision) {
    forall k | 0 <= k < |actions| :: actions[k] != DoMarkObsolete(r)
  }

  /** Then nothing but a new revision of the variant ends the probing: no start, retry or reset is accepted. */
  lemma {:induction false} StrandedForever(w: World, config: Config, actions: seq<Action>, r: Revision)
    requires ValidConfig(config) && Stranded(w.db, r) && KeepsCurrent(actions, r)
    ensures var db := Run(w, config, actions).db;
            Stranded(db, r) && db.policies[r] == w.db.policies[r] && !MayAttempt(db, r)
  {
    if actions != [] {
      var n := |actions| - 1;
      StrandedForever(w, config, actions[..n], r);
      StrandedStep(Run(w, config, actions[..n]).db, config, actions[n], r);
    }
  }

  /** No server of the revision is left, and none of its creates waits or runs. */
  ghost predicate Settled(db: Db, r: Revision) {
    forall i | i in db.instances && db.instances[i].revision == r ::
      db.instances[i].lifecycle == Stopped &&
      (i in db.creates ==> db.creates[i].state != Pending && db.creates[i].state != InProgress)
  }

  /** A policy row is deleted by a reset only when the cleanup before it has nothing left to do. */
  ghost predicate CleansUp(db: Db, config: Config, actions: seq<Action>)
    requires ValidConfig(config)
    decreases |actions|
  {
    actions == [] ||
    ((actions[0].DoDeleteReset? ==> Settled(db, actions[0].r)) && CleansUp(Apply(db, config, actions[0]), config, actions[1..]))
  }

  /** Some run that keeps the revision current, and cleans up, leads to a state in which it may be attempted. */
  ghost predicate Recoverable(db: Db, config: Config, r: Revision)
    requires ValidConfig(config)
  {
    exists actions :: KeepsCurrent(actions, r) && CleansUp(db, config, actions) && MayAttempt(RunDb(db, config, actions), r)
  }

  lemma RecoverableNow(db: Db, config: Config, r: Revision)
    requires ValidConfig(config) && MayAttempt(db, r)
    ensures Recoverable(db, config, r)
  {
    assert KeepsCurrent([], r) && CleansUp(db, config, []) && MayAttempt(RunDb(db, config, []), r);
  }

  lemma {:induction false} RunDbFirst(db: Db, config: Config, a: Action, actions: seq<Action>)
    requires ValidConfig(config)
    ensures RunDb(db, config, [a] + actions) == RunDb(Apply(db, config, a), config, actions)
    decreases |actions|
  {
    var all := [a] + actions;
    if actions == [] {
      assert all[..0] == [];
    } else {
      var n := |actions| - 1;
      assert all[..|all| - 1] == [a] + actions[..n];
      RunDbFirst(db, config, a, actions[..n]);
    }
  }

  lemma RecoverableBefore(db: Db, config: Config, a: Action, r: Revision)
    requires ValidConfig(config) && a != DoMarkObsolete(r) && Recoverable(Apply(db, config, a), config, r)
    requires a.DoDeleteReset? ==> Settled(db, a.r)
    ensures Recoverable(db, config, r)
  {
    var actions :| KeepsCurrent(actions, r) && CleansUp(Apply(db, config, a), config, actions) &&
                   MayAttempt(RunDb(Apply(db, config, a), config, actions), r);
    RunDbFirst(db, config, a, actions);
    var all := [a] + actions;
    assert all[0] == a && all[1..] == actions;
    assert KeepsCurrent(all, r) && CleansUp(db, config, all);
  }

  /** A reset whose creates are cancelled stops one server after the other. */
  lemma {:induction false} StoppingIsRecoverable(db: Db, config: Config, r: Revision, left: set<InstanceId>)
    requires ValidConfig(config) && r in db.policies && db.policies[r].state == Resetting
    requires forall i | i in db.instances && db.instances[i].revision == r ::
               (i !in left ==> db.instances[i].lifecycle == Stopped) &&
               (i in db.creates ==> db.creates[i].state != Pending && db.creates[i].state != InProgress)
    ensures Recoverable(db, config, r)
    decreases left
  {
    if left == {} {
      RecoverableNow(Apply(db, config, DoDeleteReset(r)), config, r);
      RecoverableBefore(db, config, DoDeleteReset(r), r);
    } else {
      var i := Witness(left);
      StoppingIsRecoverable(Apply(db, config, DoMove(i, Stopped)), config, r, left - {i});
      RecoverableBefore(db, config, DoMove(i, Stopped), r);
    }
  }

  /** What is claimed is queued again by a restart, what is queued is cancelled by the reset, and then every server is stopped. */
  lemma ResettingIsRecoverable(db: Db, config: Config, r: Revision)
    requires ValidConfig(config) && r in db.policies && db.policies[r].state == Resetting
    ensures Recoverable(db, config, r)
  {
    var ids := set i | i in db.instances && db.instances[i].revision == r;
    var restarted := Apply(db, config, DoRestart);
    var cancelled := Apply(restarted, config, DoCancelPending(ids));
    forall i | i in cancelled.instances && cancelled.instances[i].revision == r && i in cancelled.creates
      ensures cancelled.creates[i].state != Pending && cancelled.creates[i].state != InProgress
    {
      assert restarted.creates[i].state != InProgress && i in ids;
    }
    StoppingIsRecoverable(cancelled, config, r, ids);
    RecoverableBefore(restarted, config, DoCancelPending(ids), r);
    RecoverableBefore(db, config, DoRestart, r);
  }

  /** Waiting, or a reset, ends every state but the probing. */
  lemma BackedOffIsRecoverable(db: Db, config: Config, r: Revision)
    requires ValidConfig(config) && r in db.policies && db.policies[r].state != Probing
    requires db.policies[r].state == BackingOff ==> db.policies[r].nextRetryAt.Some?
    ensures Recoverable(db, config, r)
  {
    match db.policies[r].state {
      case BackingOff =>
        var due := db.policies[r].nextRetryAt.value;
        var ms: nat := if due > db.now then due - db.now else 0;
        RecoverableNow(Apply(db, config, DoWait(ms)), config, r);
        RecoverableBefore(db, config, DoWait(ms), r);
      case Blocked =>
        ResettingIsRecoverable(Apply(db, config, DoRequestReset(r)), config, r);
        RecoverableBefore(db, config, DoRequestReset(r), r);
      case Resetting =>
        ResettingIsRecoverable(db, config, r);
    }
  }

  /** An instance that gets ready clears the row. */
  lemma ReadyIsRecoverable(db: Db, config: Config, r: Revision, i: InstanceId)
    requires ValidConfig(config) && i in db.instances && db.instances[i].revision == r
    requires i in db.readying || db.instances[i].lifecycle == Starting
    ensures Recoverable(db, config, r)
    decreases i !in db.readying
  {
    if i in db.readying {
      RecoverableNow(Apply(db, config, DoClear(i)), config, r);
      RecoverableBefore(db, config, DoClear(i), r);
    } else {
      ReadyIsRecoverable(Apply(db, config, DoReady(i)), config, r, i);
      RecoverableBefore(db, config, DoReady(i), r);
    }
  }

  /** A create that is carried out may succeed. */
  lemma ExecutingIsRecoverable(db: Db, config: Config, r: Revision, i: InstanceId)
    requires ValidConfig(config) && i in db.instances && db.instances[i].revision == r && InCreation(db, i) && Executing(db, i)
    ensures Recoverable(db, config, r)
  {
    ReadyIsRecoverable(Apply(db, config, DoSucceed(i)), config, r, i);
    RecoverableBefore(db, config, DoSucceed(i), r);
  }

  /** One that waits may be claimed, and one that was claimed waits again after a restart. */
  lemma QueuedIsRecoverable(db: Db, config: Config, r: Revision, i: InstanceId)
    requires ValidConfig(config) && i in db.instances && db.instances[i].revision == r && InCreation(db, i) && Admitted(db, i)
    requires i in db.creates && (db.creates[i].state == Pending || db.creates[i].state == InProgress)
    ensures Recoverable(db, config, r)
    decreases db.creates[i].state == InProgress
  {
    if db.creates[i].state == Pending {
      ExecutingIsRecoverable(Apply(db, config, DoClaim(i)), config, r, i);
      RecoverableBefore(db, config, DoClaim(i), r);
    } else {
      QueuedIsRecoverable(Apply(db, config, DoRestart), config, r, i);
      RecoverableBefore(db, config, DoRestart, r);
    }
  }

  /** A counted failure of the probe ends the probing. */
  lemma RecordedIsRecoverable(db: Db, config: Config, r: Revision, i: InstanceId)
    requires ValidConfig(config) && ProbeOf(db, r, i) && db.policies[r].failureCount >= 1
    requires i in db.instances && db.instances[i].revision == r && i in db.failing
    ensures Recoverable(db, config, r)
  {
    var after := Apply(db, config, DoRecordFailure(i));
    assert after.policies[r] == FailedPolicy(config, CountAfter(db, r), db.now, i);
    BackedOffIsRecoverable(after, config, r);
    RecoverableBefore(db, config, DoRecordFailure(i), r);
  }

  lemma CountedIsRecoverable(db: Db, config: Config, r: Revision, i: InstanceId)
    requires ValidConfig(config) && ProbeOf(db, r, i) && db.policies[r].failureCount >= 1 && RowsOk(db)
    requires i in db.instances && db.instances[i].revision == r && MayBeCounted(db, i)
    ensures Recoverable(db, config, r)
  {
    if i in db.failing {
      RecordedIsRecoverable(db, config, r, i);
    } else if db.instances[i].lifecycle != Creating {
      RecordedIsRecoverable(Apply(db, config, DoFail(i, RuntimeMissing)), config, r, i);
      RecoverableBefore(db, config, DoFail(i, RuntimeMissing), r);
    } else if i in db.reporting {
      RecordedIsRecoverable(Apply(db, config, DoReport(i, CreateFailed)), config, r, i);
      RecoverableBefore(db, config, DoReport(i, CreateFailed), r);
    } else if i in db.executing {
      ExecutingIsRecoverable(db, config, r, i);
    } else {
      QueuedIsRecoverable(db, config, r, i);
    }
  }

  lemma NotStrandedIsRecoverable(w: World, config: Config, r: Revision)
    requires ValidConfig(config) && Inv(w, config) && !Stranded(w.db, r)
    ensures Recoverable(w.db, config, r)
  {
    var db := w.db;
    if r !in db.policies {
      RecoverableNow(db, config, r);
    } else {
      assert PolicyOk(config, db.policies[r], w.probes[r], w.first[r], db.now);
      if db.policies[r].state != Probing {
        BackedOffIsRecoverable(db, config, r);
      } else {
        var i :| i in db.instances && db.instances[i].revision == r &&
          (MayGetReady(db, i) || (db.policies[r].probe == Some(i) && MayBeCounted(db, i)));
        if !MayGetReady(db, i) {
          CountedIsRecoverable(db, config, r, i);
        } else if i in db.readying || db.instances[i].lifecycle == Starting {
          ReadyIsRecoverable(db, config, r, i);
        } else if i in db.executing {
          ExecutingIsRecoverable(db, config, r, i);
        } else {
          QueuedIsRecoverable(db, config, r, i);
        }
      }
    }
  }

  /**
   In every reachable state a revision is stranded exactly when no further run at
   all, as long as the revision stays the current one, lets it be attempted again.
   If it is not stranded, some such run does that deletes no policy row before its
   cleanup is done.
   */
  lemma StrandedExactlyWhenNothingHelps(start: World, config: Config, history: seq<Action>, r: Revision)
    requires ValidConfig(config) && Fresh(start)
    ensures
      var w := Run(start, config, history);
      && (Stranded(w.db, r) <==>
            forall actions | KeepsCurrent(actions, r) :: !MayAttempt(Run(w, config, actions).db, r))
      && (!Stranded(w.db, r) ==>
            exists actions | KeepsCurrent(actions, r) && CleansUp(w.db, config, actions) ::
              MayAttempt(Run(w, config, actions).db, r))
  {
    RunKeeps(start, config, history);
    var w := Run(start, config, history);
    if Stranded(w.db, r) {
      forall actions | KeepsCurrent(actions, r) ensures !MayAttempt(Run(w, config, actions).db, r) {
        StrandedForever(w, config, actions, r);
      }
    } else {
      NotStrandedIsRecoverable(w, config, r);
      var actions :| KeepsCurrent(actions, r) && CleansUp(w.db, config, actions) && MayAttempt(RunDb(w.db, config, actions), r);
      RunIsRunDb(w, config, actions);
    }
  }

  /**
   A probe that is failed, by whomever and whatever for, strands its revision exactly
   when the failure does not count, and nothing else of the revision can get ready.
   A server that already runs does not help.
   */
  lemma LosingTheProbeStrands(db: Db, r: Revision, i: InstanceId, reason: Reason)
    requires ProbeOf(db, r, i) && i !in db.failing
    requires i in db.instances && db.instances[i].revision == r && Live(db.instances[i].lifecycle)
    ensures Stranded(Fail(db, i, reason), r) <==>
              && (db.instances[i].ready || reason !in {CreateFailed, StartupTimeout, RuntimeMissing})
              && i !in db.readying
              && forall j | j in db.instances && db.instances[j].revision == r && j != i :: !MayGetReady(db, j)
  {
    var after := Fail(db, i, reason);
    forall j | j in db.instances && db.instances[j].revision == r && j != i
      ensures MayGetReady(after, j) <==> MayGetReady(db, j)
    {
    }
    assert MayGetReady(after, i) <==> i in db.readying;
    assert MayBeCounted(after, i) <==> !db.instances[i].ready && reason in {CreateFailed, StartupTimeout, RuntimeMissing};
  }

  /** A crash after the probe got ready strands its revision as well, unless something else of it can get ready. */
  lemma ForgettingReadinessStrands(db: Db, config: Config, r: Revision, i: InstanceId)
    requires ValidConfig(config) && ProbeOf(db, r, i) && i in db.readying && i !in db.failing
    requires i in db.instances && db.instances[i] == Instance(r, Running, true)
    ensures Stranded(Apply(db, config, DoForgetReady(i)), r) <==>
              forall j | j in db.instances && db.instances[j].revision == r && j != i :: !MayGetReady(db, j)
  {
    var after := Apply(db, config, DoForgetReady(i));
    forall j | j in db.instances && j != i ensures MayGetReady(after, j) <==> MayGetReady(db, j) {
    }
    assert !MayGetReady(after, i) && !MayBeCounted(after, i);
  }

  /** What a restart leaves to the probe: it starts, or its create is in the queue again. */
  predicate SurvivesRestart(db: Db, i: InstanceId)
    requires i in db.instances
  {
    match db.instances[i].lifecycle
    case Creating => i in db.creates && (db.creates[i].state == Pending || db.creates[i].state == InProgress)
    case Stopping | Stopped | InstanceFailed => false
    case _ => !db.instances[i].ready
  }

  /**
   A restart strands a probing revision exactly when none of its servers is starting
   and the probe cannot start any more: in particular if the command of its create
   has failed, and its instance not yet, or if a failure was not yet recorded.
   Other servers whose creates ran, or wait, do not help.
   */
  lemma RestartStrands(db: Db, r: Revision, i: InstanceId)
    requires ProbeOf(db, r, i) && i in db.instances && db.instances[i].revision == r
    ensures Stranded(Restart(db), r) <==>
              && !SurvivesRestart(db, i)
              && forall j | j in db.instances && db.instances[j].revision == r :: db.instances[j].lifecycle != Starting
  {
    var after := Restart(db);
    forall j | j in db.instances && db.instances[j].revision == r && j != i
      ensures MayGetReady(after, j) <==> db.instances[j].lifecycle == Starting
    {
      assert !MayExecute(after, j);
    }
    assert db.instances[i].lifecycle != Starting ==>
             (MayGetReady(after, i) || MayBeCounted(after, i) <==> SurvivesRestart(db, i));
  }

  // ----- Runs that strand a revision

  lemma RunOneMore(w: World, config: Config, actions: seq<Action>, a: Action)
    requires ValidConfig(config)
    ensures Run(w, config, actions + [a]) == Step(Run(w, config, actions), config, a)
  {
    assert (actions + [a])[..|actions|] == actions;
  }

  lemma {:induction false} RunDbConcat(db: Db, config: Config, first: seq<Action>, later: seq<Action>)
    requires ValidConfig(config)
    ensures RunDb(db, config, first + later) == RunDb(RunDb(db, config, first), config, later)
    decreases |later|
  {
    if later == [] {
      assert first + later == first;
    } else {
      var n := |later| - 1;
      assert (first + later)[..|first + later| - 1] == first + later[..n];
      RunDbConcat(db, config, first, later[..n]);
    }
  }

  lemma RunDbOne(db: Db, config: Config, a: Action)
    requires ValidConfig(config)
    ensures RunDb(db, config, [a]) == Apply(db, config, a)
  {
    assert [a][..0] == [];
  }

  lemma RunDbTwo(db: Db, mid: Db, config: Config, a: Action, b: Action)
    requires ValidConfig(config) && mid == Apply(db, config, a)
    ensures RunDb(db, config, [a, b]) == Apply(mid, config, b)
  {
    assert [a, b] == [a] + [b];
    RunDbFirst(db, config, a, [b]);
    RunDbOne(mid, config, b);
  }

  /** A server is created and claimed, its create fails, and the failure is reported. */
  function StartFails(r: Revision, i: InstanceId): seq<Action> {
    [DoCreate(r, i), DoClaim(i)] + [DoFailCommand(i), DoReport(i, CreateFailed)]
  }

  ghost function FailedStart(db: Db, r: Revision, i: InstanceId): Db {
    Report(FailCommand(Claim(Create(db, r, i), i), i), i, CreateFailed)
  }

  lemma StartFailsRun(db: Db, config: Config, r: Revision, i: InstanceId)
    requires ValidConfig(config)
    ensures RunDb(db, config, StartFails(r, i)) == FailedStart(db, r, i)
  {
    var created := Create(db, r, i);
    var claimed := Claim(created, i);
    var over := FailCommand(claimed, i);
    RunDbConcat(db, config, [DoCreate(r, i), DoClaim(i)], [DoFailCommand(i), DoReport(i, CreateFailed)]);
    CreateAndClaim(db, config, r, i);
    FailAndReport(claimed, config, i);
  }

  lemma CreateAndClaim(db: Db, config: Config, r: Revision, i: InstanceId)
    requires ValidConfig(config)
    ensures RunDb(db, config, [DoCreate(r, i), DoClaim(i)]) == Claim(Create(db, r, i), i)
  {
    RunDbTwo(db, Create(db, r, i), config, DoCreate(r, i), DoClaim(i));
  }

  lemma FailAndReport(db: Db, config: Config, i: InstanceId)
    requires ValidConfig(config)
    ensures RunDb(db, config, [DoFailCommand(i), DoReport(i, CreateFailed)]) == Report(FailCommand(db, i), i, CreateFailed)
  {
    RunDbTwo(db, FailCommand(db, i), config, DoFailCommand(i), DoReport(i, CreateFailed));
  }

  lemma ReportedFailure(db: Db, r: Revision, i: InstanceId)
    requires Executing(db, i) && i in db.instances && db.instances[i] == Instance(r, Creating, false)
    ensures Report(FailCommand(db, i), i, CreateFailed) == db.(
              instances := db.instances[i := Instance(r, InstanceFailed, false)],
              creates := db.creates[i := db.creates[i].(state := CommandFailed)],
              executing := db.executing - multiset{i}, failing := db.failing + {i})
  {
    assert db.reporting + multiset{i} - multiset{i} == db.reporting;
  }

  lemma ClaimedStart(db: Db, r: Revision, i: InstanceId)
    requires MayAttempt(db, r) && i !in db.instances
    ensures Claim(Create(db, r, i), i) == ReserveAttempt(db, r, i).(
              instances := db.instances[i := Instance(r, Creating, false)],
              creates := db.creates[i := Command(InProgress, 1)],
              executing := db.executing + multiset{i})
  {
    assert Claimable(Create(db, r, i), i);
  }

  lemma ClaimedStartFails(db: Db, claimed: Db, r: Revision, i: InstanceId)
    requires claimed == db.(
               instances := db.instances[i := Instance(r, Creating, false)],
               creates := db.creates[i := Command(InProgress, 1)],
               executing := db.executing + multiset{i})
    ensures Report(FailCommand(claimed, i), i, CreateFailed) == db.(
              instances := db.instances[i := Instance(r, InstanceFailed, false)],
              creates := db.creates[i := Command(CommandFailed, 1)],
              failing := db.failing + {i})
  {
    ReportedFailure(claimed, r, i);
    WrittenTwice(db.instances, i, Instance(r, Creating, false), Instance(r, InstanceFailed, false));
    WrittenTwice(db.creates, i, Command(InProgress, 1), Command(CommandFailed, 1));
    assert db.executing + multiset{i} - multiset{i} == db.executing;
  }

  lemma WrittenTwice<T>(rows: map<InstanceId, T>, i: InstanceId, first: T, second: T)
    ensures rows[i := first][i := second] == rows[i := second]
  {
  }

  /** What is left of a server that fails to start. */
  lemma FailedStartLeaves(db: Db, r: Revision, i: InstanceId)
    requires MayAttempt(db, r) && i !in db.instances
    ensures FailedStart(db, r, i) == ReserveAttempt(db, r, i).(
              instances := db.instances[i := Instance(r, InstanceFailed, false)],
              creates := db.creates[i := Command(CommandFailed, 1)],
              failing := db.failing + {i})
  {
    var reserved := ReserveAttempt(db, r, i);
    assert reserved == db.(policies := reserved.policies);
    ClaimedStart(db, r, i);
    ClaimedStartFails(reserved, Claim(Create(db, r, i), i), r, i);
  }

  /** The first failure of a revision, with nothing else of it in the queue. */
  lemma FirstIsRecorded(db: Db, config: Config, r: Revision)
    requires ValidConfig(config) && config.retryLimit >= 1 && db.policies == map[] && db.failing == {0}
    requires 0 in db.instances && db.instances[0].revision == r && PendingCreating(db, r) <= {0}
    ensures RecordFailure(db, config, 0) == db.(
              policies := map[r := Policy(BackingOff, 1, Some(db.now + config.base), None, 0)], failing := {})
  {
    var after := RecordFailure(db, config, 0);
    assert DelayMs(config.base, 0) == config.base;
    assert PendingCreating(db, r) - {0} == {};
    assert after.instances == db.instances && after.creates == db.creates;
  }

  /** No rows, no calls. */
  ghost predicate Empty(db: Db) {
    && db.policies == map[] && db.instances == map[] && db.creates == map[]
    && db.executing == multiset{} && db.reporting == multiset{} && db.failing == {} && db.readying == {}
  }

  /** The first server of the revision failed, and nothing else was started. */
  ghost predicate FailedOnce(db: Db, config: Config, r: Revision) {
    && db.policies == map[r := Policy(BackingOff, 1, Some(db.now + config.base), None, 0)]
    && db.instances == map[0 := Instance(r, InstanceFailed, false)]
    && db.creates == map[0 := Command(CommandFailed, 1)]
    && db.executing == multiset{} && db.reporting == multiset{} && db.failing == {} && db.readying == {}
  }

  lemma FirstStartLeaves(db: Db, r: Revision)
    requires Empty(db)
    ensures FailedStart(db, r, 0) == db.(
              instances := map[0 := Instance(r, InstanceFailed, false)],
              creates := map[0 := Command(CommandFailed, 1)], failing := {0})
  {
    FailedStartLeaves(db, r, 0);
    assert ReserveAttempt(db, r, 0) == db;
  }

  lemma FirstFailure(db: Db, config: Config, r: Revision)
    requires ValidConfig(config) && config.retryLimit >= 1 && Empty(db)
    ensures FailedOnce(RunDb(db, config, StartFails(r, 0) + [DoRecordFailure(0)]), config, r)
  {
    StartFailsRun(db, config, r, 0);
    FirstStartLeaves(db, r);
    OnlyOneRecorded(db, FailedStart(db, r, 0), config, r);
    RecordedAfter(db, FailedStart(db, r, 0), config, r, StartFails(r, 0));
  }

  lemma OnlyOneRecorded(db: Db, down: Db, config: Config, r: Revision)
    requires ValidConfig(config) && config.retryLimit >= 1 && Empty(db)
    requires down == db.(instances := map[0 := Instance(r, InstanceFailed, false)],
                         creates := map[0 := Command(CommandFailed, 1)], failing := {0})
    ensures FailedOnce(RecordFailure(down, config, 0), config, r)
  {
    FirstIsRecorded(down, config, r);
  }

  lemma RecordedAfter(db: Db, down: Db, config: Config, r: Revision, actions: seq<Action>)
    requires ValidConfig(config) && RunDb(db, config, actions) == down && FailedOnce(RecordFailure(down, config, 0), config, r)
    ensures FailedOnce(RunDb(db, config, actions + [DoRecordFailure(0)]), config, r)
  {
    FailureIsApplied(down, config, 0);
    RunThenOne(db, down, RecordFailure(down, config, 0), config, actions, DoRecordFailure(0));
  }

  lemma RunThenOne(db: Db, mid: Db, end: Db, config: Config, actions: seq<Action>, a: Action)
    requires ValidConfig(config) && RunDb(db, config, actions) == mid && Apply(mid, config, a) == end
    ensures RunDb(db, config, actions + [a]) == end
  {
    assert (actions + [a])[..|actions|] == actions;
  }

  lemma FailureIsApplied(db: Db, config: Config, i: InstanceId)
    requires ValidConfig(config)
    ensures Apply(db, config, DoFail(i, HostOffline)) == FailElsewhere(db, i, HostOffline)
    ensures Apply(db, config, DoRecordFailure(i)) == RecordFailure(db, config, i)
  {
  }

  /** Its waiting time is over, and a probe is created. */
  ghost predicate ProbesAgain(db: Db, r: Revision) {
    && db.policies == map[r := Policy(Probing, 1, None, Some(1), 0)]
    && db.instances == map[0 := Instance(r, InstanceFailed, false), 1 := Instance(r, Creating, false)]
    && db.creates == map[0 := Command(CommandFailed, 1), 1 := Command(Pending, 0)]
    && db.executing == multiset{} && db.reporting == multiset{} && db.failing == {} && db.readying == {}
  }

  /** One counted failure, the waiting time, and the probe. */
  function UpToTheProbe(config: Config, r: Revision): seq<Action>
    requires ValidConfig(config)
  {
    (StartFails(r, 0) + [DoRecordFailure(0)]) + [DoWait(config.base), DoCreate(r, 1)]
  }

  lemma ProbeIsCreated(db: Db, config: Config, r: Revision)
    requires ValidConfig(config) && FailedOnce(db, config, r)
    ensures ProbesAgain(Create(db.(now := db.now + config.base), r, 1), r)
  {
    var waited := db.(now := db.now + config.base);
    assert MayAttempt(waited, r) && 1 !in waited.instances;
  }

  lemma ProbeFollows(db: Db, config: Config, r: Revision)
    requires ValidConfig(config) && config.retryLimit >= 1 && Empty(db)
    ensures ProbesAgain(RunDb(db, config, UpToTheProbe(config, r)), r)
  {
    var first := StartFails(r, 0) + [DoRecordFailure(0)];
    var failed := RunDb(db, config, first);
    FirstFailure(db, config, r);
    RunDbConcat(db, config, first, [DoWait(config.base), DoCreate(r, 1)]);
    WaitAndCreate(failed, failed.(now := failed.now + config.base), config, r, 1);
    ProbeIsCreated(failed, config, r);
  }

  lemma WaitAndCreate(db: Db, waited: Db, config: Config, r: Revision, i: InstanceId)
    requires ValidConfig(config) && waited == db.(now := db.now + config.base)
    ensures RunDb(db, config, [DoWait(config.base), DoCreate(r, i)]) == Create(waited, r, i)
  {
    WaitIsApplied(db, config, config.base);
    RunDbTwo(db, waited, config, DoWait(config.base), DoCreate(r, i));
    CreateIsApplied(waited, config, r, i);
  }

  lemma WaitIsApplied(db: Db, config: Config, ms: nat)
    requires ValidConfig(config)
    ensures Apply(db, config, DoWait(ms)) == db.(now := db.now + ms)
  {
  }

  lemma CreateIsApplied(db: Db, config: Config, r: Revision, i: InstanceId)
    requires ValidConfig(config)
    ensures Apply(db, config, DoCreate(r, i)) == Create(db, r, i)
  {
  }

  lemma LosingTheFirstProbe(db: Db, r: Revision)
    requires ProbesAgain(db, r)
    ensures Stranded(FailElsewhere(db, 1, HostOffline), r)
  {
    LosingTheProbeStrands(db, r, 1, HostOffline);
  }

  /** A server that fails to start, and a probe that loses its host: that is all it takes. */
  lemma StrandingHappens(start: World, config: Config, r: Revision)
    requires ValidConfig(config) && config.retryLimit >= 1 && Empty(start.db)
    ensures Stranded(Run(start, config, UpToTheProbe(config, r) + [DoFail(1, HostOffline)]).db, r)
  {
    var actions := UpToTheProbe(config, r);
    var probed := RunDb(start.db, config, actions);
    ProbeFollows(start.db, config, r);
    LosingTheFirstProbe(probed, r);
    FailureIsApplied(probed, config, 1);
    RunThenOne(start.db, probed, FailElsewhere(probed, 1, HostOffline), config, actions, DoFail(1, HostOffline));
    RunIsRunDb(start, config, actions + [DoFail(1, HostOffline)]);
  }

  lemma LosingTheReport(db: Db, config: Config, r: Revision)
    requires ValidConfig(config) && ProbesAgain(db, r)
    ensures var over := FailCommand(Claim(db, 1), 1);
            !Stranded(over, r) && Stranded(Restart(over), r)
  {
    var over := FailCommand(Claim(db, 1), 1);
    assert Claimable(db, 1);
    assert over.creates[1] == Command(CommandFailed, 1) && over.instances == db.instances && over.policies == db.policies;
    assert MayBeCounted(over, 1);
    RestartStrands(over, r, 1);
  }

  /**
   Or a probe whose create fails, and a process that ends between the two
   transactions that write the failure.
   */
  lemma LostReportStrands(start: World, config: Config, r: Revision)
    requires ValidConfig(config) && config.retryLimit >= 1 && Empty(start.db)
    ensures var actions := UpToTheProbe(config, r) + [DoClaim(1), DoFailCommand(1)];
            && !Stranded(Run(start, config, actions).db, r)
            && Stranded(Run(start, config, actions + [DoRestart]).db, r)
  {
    var actions := UpToTheProbe(config, r) + [DoClaim(1), DoFailCommand(1)];
    var probed := RunDb(start.db, config, UpToTheProbe(config, r));
    ProbeFollows(start.db, config, r);
    RunDbConcat(start.db, config, UpToTheProbe(config, r), [DoClaim(1), DoFailCommand(1)]);
    ClaimAndFail(probed, config, 1);
    LosingTheReport(probed, config, r);
    var over := FailCommand(Claim(probed, 1), 1);
    RunThenOne(start.db, over, Restart(over), config, actions, DoRestart);
    RunIsRunDb(start, config, actions);
    RunIsRunDb(start, config, actions + [DoRestart]);
  }

  lemma ClaimAndFail(db: Db, config: Config, i: InstanceId)
    requires ValidConfig(config)
    ensures RunDb(db, config, [DoClaim(i), DoFailCommand(i)]) == FailCommand(Claim(db, i), i)
  {
    RunDbTwo(db, Claim(db, i), config, DoClaim(i), DoFailCommand(i));
  }

  /** Two servers are claimed, one of them fails, and a restart returns the other one to the queue. */
  function OneOfTwoFails(r: Revision): seq<Action> {
    ([DoCreate(r, 0), DoCreate(r, 1)] + [DoClaim(0), DoClaim(1)]) +
    ([DoFailCommand(0), DoReport(0, CreateFailed)] + [DoRecordFailure(0), DoRestart])
  }

  lemma TwoAreClaimed(db: Db, config: Config, r: Revision)
    requires ValidConfig(config) && Empty(db)
    ensures var claimed := RunDb(db, config, [DoCreate(r, 0), DoCreate(r, 1)] + [DoClaim(0), DoClaim(1)]);
            claimed == db.(
              instances := map[0 := Instance(r, Creating, false), 1 := Instance(r, Creating, false)],
              creates := map[0 := Command(InProgress, 1), 1 := Command(InProgress, 1)],
              executing := multiset{0, 1})
  {
    RunDbConcat(db, config, [DoCreate(r, 0), DoCreate(r, 1)], [DoClaim(0), DoClaim(1)]);
    RunDbTwo(db, Create(db, r, 0), config, DoCreate(r, 0), DoCreate(r, 1));
    var created := Create(Create(db, r, 0), r, 1);
    RunDbTwo(created, Claim(created, 0), config, DoClaim(0), DoClaim(1));
    assert created.instances == map[0 := Instance(r, Creating, false), 1 := Instance(r, Creating, false)];
    assert created.creates == map[0 := Command(Pending, 0), 1 := Command(Pending, 0)];
  }

  /** What is left: one instance failed, and the create of the other one waits. */
  ghost predicate OneWaits(db: Db, config: Config, r: Revision) {
    && db.policies == map[r := Policy(BackingOff, 1, Some(db.now + config.base), None, 0)]
    && db.instances == map[0 := Instance(r, InstanceFailed, false), 1 := Instance(r, Creating, false)]
    && db.creates == map[0 := Command(CommandFailed, 1), 1 := Command(Pending, 1)]
    && db.executing == multiset{} && db.reporting == multiset{} && db.failing == {} && db.readying == {}
  }

  lemma OneIsReported(db: Db, config: Config, r: Revision)
    requires ValidConfig(config) && config.retryLimit >= 1
    requires db.policies == map[] && db.failing == {}
    requires db.instances == map[0 := Instance(r, Creating, false), 1 := Instance(r, Creating, false)]
    requires db.creates == map[0 := Command(InProgress, 1), 1 := Command(InProgress, 1)] && db.executing == multiset{0, 1}
    ensures OneWaits(Restart(RecordFailure(Report(FailCommand(db, 0), 0, CreateFailed), config, 0)), config, r)
  {
    ReportedFailure(db, r, 0);
    var down := Report(FailCommand(db, 0), 0, CreateFailed);
    assert PendingCreating(down, r) <= {0};
    FirstIsRecorded(down, config, r);
    assert down.instances == map[0 := Instance(r, InstanceFailed, false), 1 := Instance(r, Creating, false)];
    assert down.creates == map[0 := Command(CommandFailed, 1), 1 := Command(InProgress, 1)];
  }

  lemma OneFailure(db: Db, config: Config, r: Revision)
    requires ValidConfig(config) && config.retryLimit >= 1 && Empty(db)
    ensures OneWaits(RunDb(db, config, OneOfTwoFails(r)), config, r)
  {
    var before := [DoCreate(r, 0), DoCreate(r, 1)] + [DoClaim(0), DoClaim(1)];
    var first, later := [DoFailCommand(0), DoReport(0, CreateFailed)], [DoRecordFailure(0), DoRestart];
    var claimed := RunDb(db, config, before);
    TwoAreClaimed(db, config, r);
    RunDbConcat(db, config, before, first + later);
    RunDbConcat(claimed, config, first, later);
    FailAndReport(claimed, config, 0);
    RecordAndRestart(Report(FailCommand(claimed, 0), 0, CreateFailed), config);
    OneIsReported(claimed, config, r);
  }

  lemma RecordAndRestart(db: Db, config: Config)
    requires ValidConfig(config)
    ensures RunDb(db, config, [DoRecordFailure(0), DoRestart]) == Restart(RecordFailure(db, config, 0))
  {
    RunDbTwo(db, RecordFailure(db, config, 0), config, DoRecordFailure(0), DoRestart);
  }

  /** A second probe, beside the create that waits. */
  ghost predicate ProbesBeside(db: Db, r: Revision) {
    && db.policies == map[r := Policy(Probing, 1, None, Some(2), 0)]
    && db.instances ==
         map[0 := Instance(r, InstanceFailed, false), 1 := Instance(r, Creating, false), 2 := Instance(r, Creating, false)]
    && db.creates == map[0 := Command(CommandFailed, 1), 1 := Command(Pending, 1), 2 := Command(Pending, 0)]
    && db.executing == multiset{} && db.reporting == multiset{} && db.failing == {} && db.readying == {}
  }

  lemma SecondProbeFollows(db: Db, config: Config, r: Revision)
    requires ValidConfig(config) && config.retryLimit >= 1 && Empty(db)
    ensures ProbesBeside(RunDb(db, config, OneOfTwoFails(r) + [DoWait(config.base), DoCreate(r, 2)]), r)
  {
    var failed := RunDb(db, config, OneOfTwoFails(r));
    var waited := failed.(now := failed.now + config.base);
    OneFailure(db, config, r);
    RunDbConcat(db, config, OneOfTwoFails(r), [DoWait(config.base), DoCreate(r, 2)]);
    WaitAndCreate(failed, waited, config, r, 2);
    assert MayAttempt(waited, r) && 2 !in waited.instances;
  }

  /** The revision is stranded, and the create of a creating instance of it waits. */
  ghost predicate WaitsInVain(db: Db, r: Revision, i: InstanceId) {
    Stranded(db, r) && Waits(db, i) && db.instances[i].revision == r
  }

  lemma LosingTheSecondProbe(db: Db, r: Revision)
    requires ProbesBeside(db, r)
    ensures WaitsInVain(FailElsewhere(db, 2, HostOffline), r, 1)
  {
    assert !MayGetReady(db, 1) && !MayGetReady(db, 0);
    LosingTheProbeStrands(db, r, 2, HostOffline);
  }

  /** A sibling that waits in the queue does not help: while its revision is probing it is not claimed. */
  lemma WaitingSiblingDoesNotHelp(start: World, config: Config, r: Revision)
    requires ValidConfig(config) && config.retryLimit >= 1 && Empty(start.db)
    ensures WaitsInVain(
              Run(start, config, OneOfTwoFails(r) + [DoWait(config.base), DoCreate(r, 2)] + [DoFail(2, HostOffline)]).db, r, 1)
  {
    var actions := OneOfTwoFails(r) + [DoWait(config.base), DoCreate(r, 2)];
    var probed := RunDb(start.db, config, actions);
    SecondProbeFollows(start.db, config, r);
    LosingTheSecondProbe(probed, r);
    FailureIsApplied(probed, config, 2);
    RunThenOne(start.db, probed, FailElsewhere(probed, 2, HostOffline), config, actions, DoFail(2, HostOffline));
    RunIsRunDb(start, config, actions + [DoFail(2, HostOffline)]);
  }

  // ----- The bound is reached

  /** When the policy row was inserted, or now if there is none. */
  ghost function FirstAt(w: World, r: Revision): int {
    if r in w.db.policies && r in w.first then w.first[r] else w.db.now
  }

  /** That instant is kept while the row stays. */
  lemma StepFirst(w: World, config: Config, a: Action, r: Revision)
    requires ValidConfig(config) && Inv(w, config) && (a.DoWait? ==> r in w.db.policies)
    requires r in w.db.policies ==> r in Apply(w.db, config, a).policies
    ensures FirstAt(Step(w, config, a), r) == FirstAt(w, r)
  {
    if !a.DoRecordFailure? {
      RowsAfter(w.db, config, a);
    }
  }

  /** Only a recorded failure inserts a policy row, and only waiting takes time. */
  lemma RowsAfter(db: Db, config: Config, a: Action)
    requires ValidConfig(config) && !a.DoRecordFailure?
    ensures Apply(db, config, a).policies.Keys <= db.policies.Keys && (!a.DoWait? ==> Apply(db, config, a).now == db.now)
  {
  }

  lemma FailedStartCounts(db: Db, failed: Db, r: Revision, i: InstanceId)
    requires MayAttempt(db, r) && db.failing == {}
    requires failed == ReserveAttempt(db, r, i).(
               instances := db.instances[i := Instance(r, InstanceFailed, false)], creates := failed.creates, failing := {i})
    ensures failed.now == db.now && Counted(failed, i) && CountAfter(failed, r) == CountAfter(db, r)
  {
  }

  /** One more attempt: created, claimed, failed and counted in the same instant. */
  ghost function Attempt(w: World, config: Config, r: Revision, i: InstanceId): World
    requires ValidConfig(config)
  {
    Run(w, config, StartFails(r, i) + [DoRecordFailure(i)])
  }

  lemma CountIsPositive(w: World, config: Config, r: Revision)
    requires ValidConfig(config) && Inv(w, config)
    ensures CountAfter(w.db, r) >= 1
  {
    if r in w.db.policies {
      assert PolicyOk(config, w.db.policies[r], w.probes[r], w.first[r], w.db.now);
    }
  }

  lemma AttemptRun(w: World, config: Config, r: Revision, i: InstanceId) returns (failed: Db)
    requires ValidConfig(config) && MayAttempt(w.db, r) && i !in w.db.instances && w.db.failing == {}
    ensures Attempt(w, config, r, i).db == RecordFailure(failed, config, i)
    ensures failed == ReserveAttempt(w.db, r, i).(
              instances := w.db.instances[i := Instance(r, InstanceFailed, false)], creates := failed.creates, failing := {i})
  {
    failed := FailedStart(w.db, r, i);
    FailedStartLeaves(w.db, r, i);
    AttemptIsRun(w, failed, config, r, i);
  }

  lemma AttemptIsRun(w: World, failed: Db, config: Config, r: Revision, i: InstanceId)
    requires ValidConfig(config) && failed == FailedStart(w.db, r, i)
    ensures Attempt(w, config, r, i).db == RecordFailure(failed, config, i)
  {
    StartFailsRun(w.db, config, r, i);
    FailureIsApplied(failed, config, i);
    RunThenOne(w.db, failed, RecordFailure(failed, config, i), config, StartFails(r, i), DoRecordFailure(i));
    RunIsRunDb(w, config, StartFails(r, i) + [DoRecordFailure(i)]);
  }

  /** The row after so many retries, and one more failure. */
  ghost function RetryRow(config: Config, count: nat, now: int, i: InstanceId): Policy {
    if count < config.retryLimit
    then Policy(BackingOff, count + 1, Some(now + DelayMs(config.base, count)), None, i)
    else Policy(Blocked, count + 1, None, None, i)
  }

  lemma AttemptLeaves(db: Db, failed: Db, config: Config, r: Revision, i: InstanceId)
    requires ValidConfig(config) && CountAfter(db, r) >= 1
    requires MayAttempt(db, r) && i !in db.instances && db.failing == {}
    requires failed == ReserveAttempt(db, r, i).(
               instances := db.instances[i := Instance(r, InstanceFailed, false)], creates := failed.creates, failing := {i})
    ensures var after := RecordFailure(failed, config, i);
            r in after.policies && after.now == db.now && after.failing == {} &&
            after.policies[r] == RetryRow(config, CountAfter(db, r) - 1, db.now, i) &&
            after.instances.Keys == db.instances.Keys + {i}
  {
    FailedStartCounts(db, failed, r, i);
    RecordedAttempt(failed, config, r, i);
  }

  lemma AttemptIsCounted(w: World, config: Config, r: Revision, i: InstanceId)
    requires ValidConfig(config) && Inv(w, config)
    requires MayAttempt(w.db, r) && i !in w.db.instances && w.db.failing == {}
    ensures CountAfter(w.db, r) >= 1
    ensures var after := Attempt(w, config, r, i).db;
            r in after.policies && after.now == w.db.now && after.failing == {} &&
            after.policies[r] == RetryRow(config, CountAfter(w.db, r) - 1, w.db.now, i) &&
            after.instances.Keys == w.db.instances.Keys + {i}
  {
    CountIsPositive(w, config, r);
    var failed := AttemptRun(w, config, r, i);
    AttemptLeaves(w.db, failed, config, r, i);
  }

  /** Only a ready server and a reset delete a row. */
  lemma RowsStay(db: Db, config: Config, a: Action)
    requires ValidConfig(config) && !a.DoClear? && !a.DoDeleteReset?
    ensures db.policies.Keys <= Apply(db, config, a).policies.Keys
  {
  }

  /** A run that deletes no row and does not wait keeps the instant. */
  lemma {:induction false} RunFirst(w: World, config: Config, actions: seq<Action>, r: Revision)
    requires ValidConfig(config) && Inv(w, config)
    requires forall k | 0 <= k < |actions| ::
               !actions[k].DoWait? && !actions[k].DoClear? && !actions[k].DoDeleteReset?
    ensures FirstAt(Run(w, config, actions), r) == FirstAt(w, r)
  {
    if actions != [] {
      var n := |actions| - 1;
      RunFirst(w, config, actions[..n], r);
      RunKeeps(w, config, actions[..n]);
      RowsStay(Run(w, config, actions[..n]).db, config, actions[n]);
      StepFirst(Run(w, config, actions[..n]), config, actions[n], r);
    }
  }

  lemma RecordedAttempt(failed: Db, config: Config, r: Revision, i: InstanceId)
    requires ValidConfig(config) && i in failed.instances && failed.instances[i].revision == r && failed.failing == {i}
    requires Counted(failed, i) && CountAfter(failed, r) >= 1
    ensures var after := RecordFailure(failed, config, i);
            r in after.policies && after.policies[r] == RetryRow(config, CountAfter(failed, r) - 1, failed.now, i) &&
            after.failing == {} && after.now == failed.now && after.instances.Keys == failed.instances.Keys
  {
  }

  ghost predicate Reaches(start: World, config: Config, w: World)
    requires ValidConfig(config)
  {
    exists actions :: Run(start, config, actions) == w
  }

  lemma ReachesNext(start: World, config: Config, w: World, a: Action)
    requires ValidConfig(config) && Reaches(start, config, w)
    ensures Reaches(start, config, Step(w, config, a))
  {
    var actions :| Run(start, config, actions) == w;
    RunOneMore(start, config, actions, a);
  }

  lemma {:induction false} ReachesMore(start: World, config: Config, w: World, actions: seq<Action>)
    requires ValidConfig(config) && Reaches(start, config, w)
    ensures Reaches(start, config, Run(w, config, actions))
  {
    if actions != [] {
      var n := |actions| - 1;
      ReachesMore(start, config, w, actions[..n]);
      ReachesNext(start, config, Run(w, config, actions[..n]), actions[n]);
    }
  }

  lemma ReachesGood(start: World, config: Config, w: World)
    requires ValidConfig(config) && Fresh(start) && Reaches(start, config, w)
    ensures Inv(w, config)
  {
    var actions :| Run(start, config, actions) == w;
    RunKeeps(start, config, actions);
  }

  /** An attempt can follow; what it leaves behind. */
  lemma AttemptFollows(start: World, config: Config, w: World, r: Revision, i: InstanceId) returns (after: World)
    requires ValidConfig(config) && Fresh(start) && Reaches(start, config, w)
    requires MayAttempt(w.db, r) && i !in w.db.instances && w.db.failing == {}
    ensures Reaches(start, config, after) && FirstAt(after, r) == FirstAt(w, r)
    ensures CountAfter(w.db, r) >= 1
    ensures r in after.db.policies && after.db.now == w.db.now && after.db.failing == {}
    ensures after.db.policies[r] == RetryRow(config, CountAfter(w.db, r) - 1, w.db.now, i)
    ensures after.db.instances.Keys == w.db.instances.Keys + {i}
  {
    ReachesGood(start, config, w);
    AttemptIsCounted(w, config, r, i);
    var actions := StartFails(r, i) + [DoRecordFailure(i)];
    RunFirst(w, config, actions, r);
    ReachesMore(start, config, w, actions);
    after := Attempt(w, config, r, i);
  }

  /** The instances are 0 to n. */
  ghost predicate Numbered(db: Db, n: int) {
    forall i | i in db.instances :: 0 <= i <= n
  }

  /** Every retry was made as soon as it was allowed, and failed at once. */
  ghost predicate Retried(w: World, config: Config, r: Revision, count: nat)
    requires ValidConfig(config)
  {
    && r in w.db.policies && w.db.failing == {} && Numbered(w.db, count)
    && w.db.now == FirstAt(w, r) + TotalDelay(config.base, count)
    && w.db.policies[r] == RetryRow(config, count, w.db.now, count)
  }

  lemma WaitStep(w: World, config: Config, ms: nat)
    requires ValidConfig(config)
    ensures Step(w, config, DoWait(ms)) == World(w.db.(now := w.db.now + ms), w.probes, w.first)
  {
  }

  /** The waiting time passes. */
  lemma WaitForRetry(start: World, config: Config, w: World, r: Revision, delay: nat) returns (waited: World)
    requires ValidConfig(config) && Fresh(start) && Reaches(start, config, w)
    requires r in w.db.policies && w.db.policies[r].state == BackingOff
    requires w.db.policies[r].nextRetryAt == Some(w.db.now + delay)
    ensures Reaches(start, config, waited) && MayAttempt(waited.db, r)
    ensures FirstAt(waited, r) == FirstAt(w, r)
    ensures waited.db == w.db.(now := w.db.now + delay)
  {
    ReachesGood(start, config, w);
    ReachesNext(start, config, w, DoWait(delay));
    WaitStep(w, config, delay);
    waited := Step(w, config, DoWait(delay));
  }

  lemma NextDelay(w: World, config: Config, r: Revision, count: nat) returns (delay: nat)
    requires ValidConfig(config) && 1 <= count <= config.retryLimit && Retried(w, config, r, count - 1)
    ensures w.db.policies[r].state == BackingOff && w.db.policies[r].nextRetryAt == Some(w.db.now + delay)
    ensures w.db.policies[r].failureCount == count
    ensures TotalDelay(config.base, count - 1) + delay == TotalDelay(config.base, count)
    ensures count !in w.db.instances
  {
    DelayIsPositive(config.base, count - 1);
    delay := DelayMs(config.base, count - 1);
  }

  lemma RetryAgain(start: World, config: Config, w: World, r: Revision, count: nat) returns (after: World)
    requires ValidConfig(config) && Fresh(start) && 1 <= count <= config.retryLimit
    requires Reaches(start, config, w) && Retried(w, config, r, count - 1)
    ensures Reaches(start, config, after) && Retried(after, config, r, count)
  {
    var delay := NextDelay(w, config, r, count);
    after := WaitAndAttempt(start, config, w, r, delay, count);
    NowRetried(after, config, r, count, delay, FirstAt(w, r));
  }

  lemma WaitAndAttempt(start: World, config: Config, w: World, r: Revision, delay: nat, i: InstanceId)
    returns (after: World)
    requires ValidConfig(config) && Fresh(start) && Reaches(start, config, w)
    requires r in w.db.policies && w.db.policies[r].state == BackingOff && w.db.policies[r].failureCount >= 1
    requires w.db.policies[r].nextRetryAt == Some(w.db.now + delay)
    requires i !in w.db.instances && w.db.failing == {}
    ensures Reaches(start, config, after) && FirstAt(after, r) == FirstAt(w, r)
    ensures r in after.db.policies && after.db.failing == {} && after.db.now == w.db.now + delay
    ensures after.db.policies[r] == RetryRow(config, w.db.policies[r].failureCount, after.db.now, i)
    ensures after.db.instances.Keys == w.db.instances.Keys + {i}
  {
    var waited := WaitForRetry(start, config, w, r, delay);
    after := AttemptFollows(start, config, waited, r, i);
  }

  lemma NowRetried(after: World, config: Config, r: Revision, count: nat, delay: nat, first: int)
    requires ValidConfig(config) && count >= 1 && r in after.db.policies && after.db.failing == {} && Numbered(after.db, count)
    requires FirstAt(after, r) == first && after.db.now == first + TotalDelay(config.base, count - 1) + delay
    requires TotalDelay(config.base, count - 1) + delay == TotalDelay(config.base, count)
    requires after.db.policies[r] == RetryRow(config, count, after.db.now, count)
    ensures Retried(after, config, r, count)
  {
  }

  lemma {:induction false} RetriesAtOnce(start: World, config: Config, r: Revision, count: nat) returns (w: World)
    requires ValidConfig(config) && Fresh(start) && start.db.instances == map[] && count <= config.retryLimit
    ensures Reaches(start, config, w) && Retried(w, config, r, count)
  {
    if count == 0 {
      assert Run(start, config, []) == start;
      w := AttemptFollows(start, config, start, r, 0);
    } else {
        w := RetriesAtOnce(start, config, r, count - 1);
      w := RetryAgain(start, config, w, r, count);
    }
  }

  /** The waiting time before a block is attained, so the bound cannot be raised. */
  lemma BlockedAtTheBound(start: World, config: Config, r: Revision) returns (actions: seq<Action>)
    requires ValidConfig(config) && Fresh(start) && start.db.instances == map[]
    ensures var w := Run(start, config, actions);
            r in w.db.policies && w.db.policies[r].state == Blocked && r in w.first &&
            w.db.now == w.first[r] + config.base * (Power2(config.retryLimit) - 1)
  {
    DelaysAddUp(config.base, config.retryLimit);
    var w := RetriesAtOnce(start, config, r, config.retryLimit);
    ReachesGood(start, config, w);
    actions :| Run(start, config, actions) == w;
  }
}
