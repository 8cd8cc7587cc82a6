/**
 The worker that executes queued creates (orchestrator/src/services/instance-start-worker.ts).
 Its calls interleave at every await; the fields keep the concurrency limit.
 */
module InstanceStartWorker {
  import opened Basics
  import opened VariantStart
  import opened VariantStartController

  /** The creates a worker may claim. */
  function Eligible(db: Db): set<InstanceId> {
    set i | i in db.creates && Claimable(db, i)
  }

  function ClaimAll(db: Db, claimed: set<InstanceId>): Db {
    db.(creates := map i | i in db.creates ::
          if i in claimed then Command(InProgress, db.creates[i].attempts + 1) else db.creates[i],
        executing := db.executing + multiset(claimed))
  }

  lemma ClaimOneMore(db: Db, claimed: set<InstanceId>, i: InstanceId)
    requires claimed <= Eligible(db) && i in claimed
    ensures ClaimAll(db, claimed) == Claim(ClaimAll(db, claimed - {i}), i)
  {
    assert i in Eligible(db);
    assert ClaimAll(db, claimed).creates ==
           ClaimAll(db, claimed - {i}).creates[i := Command(InProgress, db.creates[i].attempts + 1)];
    assert multiset(claimed) == multiset(claimed - {i}) + multiset{i};
  }

  /** One UPDATE of all claimed commands is a sequence of claims. */
  lemma {:induction false} ClaimsOneByOne(db: Db, config: Config, claimed: set<InstanceId>) returns (actions: seq<Action>)
    requires ValidConfig(config) && claimed <= Eligible(db)
    ensures Ran(db, ClaimAll(db, claimed), config, actions)
    decreases claimed
  {
    if claimed == {} {
      actions := [];
      assert ClaimAll(db, claimed).creates == db.creates;
    } else {
      var i := Witness(claimed);
      actions := ClaimsOneByOne(db, config, claimed - {i});
      ClaimOneMore(db, claimed, i);
      RanByOne(db, ClaimAll(db, claimed - {i}), ClaimAll(db, claimed), config, actions, DoClaim(i));
      actions := actions + [DoClaim(i)];
    }
  }

  /** Nothing older is left behind. */
  ghost predicate OldestFirst(queue: seq<InstanceId>, rows: set<InstanceId>, taken: set<InstanceId>) {
    forall i, j | 0 <= i < j < |queue| && queue[j] in taken && queue[i] in rows :: queue[i] in taken
  }

  /** ORDER BY created_at LIMIT: as many rows as asked for, or all of them, the oldest first. */
  method TakeOldest(queue: seq<InstanceId>, rows: set<InstanceId>, limit: nat) returns (taken: set<InstanceId>)
    requires rows <= Elements(queue) && Distinct(queue)
    ensures taken <= rows && |taken| == if |rows| <= limit then |rows| else limit
    ensures OldestFirst(queue, rows, taken)
  {
    taken := {};
    var k := 0;
    while k < |queue| && |taken| < limit
      invariant 0 <= k <= |queue| && taken <= rows && |taken| <= limit
      invariant forall j | 0 <= j < k :: queue[j] in rows ==> queue[j] in taken
      invariant forall x | x in taken :: exists j :: 0 <= j < k && queue[j] == x
      invariant OldestFirst(queue, rows, taken)
    {
      if queue[k] in rows && queue[k] !in taken {
        taken := taken + {queue[k]};
      }
      k := k + 1;
    }
    SizesOfTaken(queue, rows, taken, k, limit);
  }

  lemma SizesOfTaken(queue: seq<InstanceId>, rows: set<InstanceId>, taken: set<InstanceId>, k: nat, limit: nat)
    requires rows <= Elements(queue) && taken <= rows && |taken| <= limit && k <= |queue|
    requires k == |queue| || |taken| == limit
    requires forall j | 0 <= j < k :: queue[j] in rows ==> queue[j] in taken
    ensures |taken| == if |rows| <= limit then |rows| else limit
  {
    SubsetSize(taken, rows);
    if |taken| < limit {
      forall x | x in rows ensures x in taken {
        var j :| 0 <= j < |queue| && queue[j] == x;
      }
      assert taken == rows;
    } else if |rows| == limit {
      assert |rows - taken| == |rows| - |taken|;
    }
  }

  lemma SubsetSize<T>(a: set<T>, b: set<T>)
    requires a <= b
    ensures |a| <= |b|
  {
    assert b == a + (b - a);
  }

  // ----- The calls of a worker, and the steps of everybody else, in any order

  /**
   What the calls share: the rows, the flags that guard ticks, and whether a tick
   has begun whose claiming statement has not been executed yet.
   */
  datatype WorkerState = WorkerState(db: Db, accepting: bool, claiming: bool, asking: bool)

  /** `room` says that fewer creates run than allowed. */
  datatype Call =
    | TickBegins(room: bool)
    | TickClaims(claimed: set<InstanceId>)
    | TickEnds
    | CreateEnds(step: Action)
    | StopBegins
    | StopRecovers
    | Elsewhere(step: Action)

  /** Any step of another service while the process lives: only this worker claims creates, and carries them out. */
  predicate OfOthers(step: Action) {
    !step.DoClaim? && !EndsCreate(step) && !step.DoRestart?
  }

  function After(w: WorkerState, config: Config, call: Call): WorkerState
    requires ValidConfig(config)
  {
    match call
    case TickBegins(room) => if w.accepting && !w.claiming && room then w.(claiming := true, asking := true) else w
    case TickClaims(claimed) =>
      if w.asking && claimed <= Eligible(w.db) then w.(db := ClaimAll(w.db, claimed), asking := false) else w
    case TickEnds => w.(claiming := false, asking := false)
    case CreateEnds(step) => if EndsCreate(step) then w.(db := Apply(w.db, config, step)) else w
    case StopBegins => w.(accepting := false)
    case StopRecovers => w.(db := VariantStart.RecoverInterrupted(w.db))
    case Elsewhere(step) => if OfOthers(step) then w.(db := Apply(w.db, config, step)) else w
  }

  ghost function AfterAll(w: WorkerState, config: Config, calls: seq<Call>): WorkerState
    requires ValidConfig(config)
  {
    if calls == [] then w
    else After(AfterAll(w, config, calls[..|calls| - 1]), config, calls[|calls| - 1])
  }

  lemma AfterThis(w: WorkerState, config: Config, calls: seq<Call>, call: Call)
    requires ValidConfig(config)
    ensures AfterAll(w, config, calls + [call]) == After(AfterAll(w, config, calls), config, call)
  {
    assert (calls + [call])[..|calls|] == calls;
  }

  function CreatesInProgress(db: Db): set<InstanceId> {
    set i | i in db.creates && db.creates[i].state == InProgress
  }

  /** Stopped, nothing in progress, and no tick that is still to claim. */
  ghost predicate AtRest(w: WorkerState) {
    !w.accepting && !w.asking && CreatesInProgress(w.db) == {}
  }

  /** Nothing but a claim puts a create in progress. */
  lemma OnlyClaimsStart(db: Db, config: Config, step: Action)
    requires ValidConfig(config) && !step.DoClaim?
    ensures CreatesInProgress(Apply(db, config, step)) <= CreatesInProgress(db)
  {
    if EndsCreate(step) {
      EndingStartsNone(db, config, step);
    } else {
      match step {
        case DoCreate(_, _) =>
        case DoRecordFailure(_) =>
        case DoRecoverInterrupted =>
        case DoRestart =>
        case DoCancelPending(_) =>
        case _ =>
      }
    }
  }

  lemma EndingStartsNone(db: Db, config: Config, step: Action)
    requires ValidConfig(config) && EndsCreate(step)
    ensures CreatesInProgress(Apply(db, config, step)) <= CreatesInProgress(db)
  {
  }

  lemma RestLasts(w: WorkerState, config: Config, call: Call)
    requires ValidConfig(config) && AtRest(w)
    ensures AtRest(After(w, config, call))
  {
    if (call.Elsewhere? || call.CreateEnds?) && !call.step.DoClaim? {
      OnlyClaimsStart(w.db, config, call.step);
    } else {
      forall i | i in CreatesInProgress(After(w, config, call).db) ensures i in CreatesInProgress(w.db) {
      }
    }
  }

  lemma {:induction false} RestLastsForever(w: WorkerState, config: Config, calls: seq<Call>)
    requires ValidConfig(config) && AtRest(w)
    ensures AtRest(AfterAll(w, config, calls))
  {
    if calls != [] {
      RestLastsForever(w, config, calls[..|calls| - 1]);
      RestLasts(AfterAll(w, config, calls[..|calls| - 1]), config, calls[|calls| - 1]);
    }
  }

  lemma {:induction false} FreshNumber(used: set<int>) returns (n: int)
    ensures forall x | x in used :: x < n
  {
    if used == {} {
      n := 0;
    } else {
      var x := Witness(used);
      var m := FreshNumber(used - {x});
      n := Max(m, x + 1);
      forall y | y in used ensures y < n {
        assert y == x || y in used - {x};
      }
    }
  }

  /** A server of a new revision is always allowed, and can be claimed. */
  lemma CreateIsEligible(db: Db, config: Config) returns (r: Revision, i: InstanceId)
    requires ValidConfig(config)
    ensures i in Eligible(Apply(db, config, DoCreate(r, i)))
  {
    i := FreshNumber(db.instances.Keys);
    var groups := set p | p in db.policies :: p.group;
    var group := FreshNumber(groups);
    r := Revision(group, 0, 0);
    assert i !in db.instances.Keys;
    assert r in db.policies ==> r.group in groups;
    assert Create(db, r, i).creates[i] == Command(Pending, 0);
  }

  /**
   After a stop no create is ever in progress again exactly when at its recovery no
   tick was still to execute its claim: a tick that began before the stop is not
   held back by it, and may claim what is inserted in the meantime.
   */
  lemma StopIsFinalExactlyWhen(w: WorkerState, config: Config)
    requires ValidConfig(config) && !w.accepting
    ensures
      var stopped := After(w, config, StopRecovers);
      (forall calls :: CreatesInProgress(AfterAll(stopped, config, calls).db) == {}) <==> !w.asking
  {
    var stopped := After(w, config, StopRecovers);
    assert CreatesInProgress(stopped.db) == {};
    if !w.asking {
      forall calls ensures CreatesInProgress(AfterAll(stopped, config, calls).db) == {} {
        RestLastsForever(stopped, config, calls);
      }
    } else {
      var r, i := CreateIsEligible(stopped.db, config);
      LateClaim(stopped, config, r, i);
      assert i in CreatesInProgress(AfterAll(stopped, config, [Elsewhere(DoCreate(r, i)), TickClaims({i})]).db);
    }
  }

  lemma LateClaim(w: WorkerState, config: Config, r: Revision, i: InstanceId)
    requires ValidConfig(config) && w.asking && i in Eligible(Apply(w.db, config, DoCreate(r, i)))
    ensures i in CreatesInProgress(AfterAll(w, config, [Elsewhere(DoCreate(r, i)), TickClaims({i})]).db)
  {
    var calls := [Elsewhere(DoCreate(r, i))];
    assert calls[..0] == [];
    assert AfterAll(w, config, calls) == After(w, config, calls[0]);
    AfterThis(w, config, calls, TickClaims({i}));
    assert calls + [TickClaims({i})] == [Elsewhere(DoCreate(r, i)), TickClaims({i})];
  }

  /** How that happens: a tick begins, the worker is stopped and recovers, a create is inserted, and the tick claims it. */
  lemma StopIsOvertaken(w: WorkerState, config: Config) returns (calls: seq<Call>, i: InstanceId)
    requires ValidConfig(config) && w.accepting && !w.claiming
    ensures |calls| == 5 && calls[..3] == [TickBegins(true), StopBegins, StopRecovers]
    ensures calls[3].Elsewhere? && calls[3].step.DoCreate? && calls[4] == TickClaims({i})
    ensures CreatesInProgress(AfterAll(w, config, calls[..3]).db) == {} && !AfterAll(w, config, calls[..3]).accepting
    ensures i in CreatesInProgress(AfterAll(w, config, calls).db)
  {
    var begun := [TickBegins(true), StopBegins, StopRecovers];
    StopsAmidTick(w, config);
    var stopped := AfterAll(w, config, begun);
    var r;
    r, i := CreateIsEligible(stopped.db, config);
    calls := begun + [Elsewhere(DoCreate(r, i))] + [TickClaims({i})];
    AfterThis(w, config, begun, Elsewhere(DoCreate(r, i)));
    AfterThis(w, config, begun + [Elsewhere(DoCreate(r, i))], TickClaims({i}));
    assert calls[..3] == begun;
  }

  lemma StopsAmidTick(w: WorkerState, config: Config)
    requires ValidConfig(config) && w.accepting && !w.claiming
    ensures AfterAll(w, config, [TickBegins(true), StopBegins, StopRecovers]) ==
            WorkerState(VariantStart.RecoverInterrupted(w.db), false, true, true)
  {
    assert AfterAll(w, config, []) == w;
    AfterThis(w, config, [], TickBegins(true));
    AfterThis(w, config, [TickBegins(true)], StopBegins);
    AfterThis(w, config, [TickBegins(true), StopBegins], StopRecovers);
    assert [] + [TickBegins(true)] == [TickBegins(true)];
    assert [TickBegins(true)] + [StopBegins] == [TickBegins(true), StopBegins];
    assert [TickBegins(true), StopBegins] + [StopRecovers] == [TickBegins(true), StopBegins, StopRecovers];
  }

  class Worker {
    const config: Config
    const concurrency: nat
    var db: Db
    var active: set<InstanceId>
    var accepting: bool
    var claiming: bool
    var stopping: bool
    /** What the tick that is claiming may still launch. */
    ghost var granted: nat
    /** Its claiming statement has not been executed yet. */
    ghost var asking: bool

    constructor (config: Config, concurrency: nat, tables: Db)
      requires ValidConfig(config)
      ensures Valid() && db == tables && active == {} && accepting && !claiming && !stopping
      ensures this.config == config && this.concurrency == concurrency
    {
      this.config, this.concurrency, db := config, concurrency, tables;
      active, accepting, claiming, stopping, granted, asking := {}, true, false, false, 0, false;
    }

    ghost function State(): WorkerState
      reads this
    {
      WorkerState(db, accepting, claiming, asking)
    }

    /** In every interleaving: no more than `concurrency` creates run. */
    ghost predicate Valid()
      reads this
    {
      ValidConfig(config) && |active| + granted <= concurrency && (!claiming ==> granted == 0 && !asking)
    }

    /** tick, up to the claiming transaction: the number of creates to ask for. */
    method BeginTick() returns (available: nat)
      requires Valid()
      modifies this
      ensures Valid() && db == old(db) && active == old(active)
      ensures State() == After(old(State()), config, TickBegins(old(|active| < concurrency)))
      ensures accepting == old(accepting) && stopping == old(stopping)
      ensures available > 0 <==> old(accepting && !claiming && |active| < concurrency)
      ensures available > 0 ==> claiming && granted == available == concurrency - |active|
      ensures available == 0 ==> claiming == old(claiming) && granted == old(granted)
    {
      if !accepting || claiming {
        return 0;
      }
      claiming := true;
      if |active| >= concurrency {
        claiming := false;
        return 0;
      }
      available := concurrency - |active|;
      granted, asking := available, true;
    }

    /**
     The claiming transaction: as many eligible creates as asked for, the oldest first, each
     counted as an attempt. `queue` lists the creates in the order in which they were inserted.
     */
    method ClaimCreates(queue: seq<InstanceId>, limit: nat) returns (claimed: set<InstanceId>, ghost actions: seq<Action>)
      requires Valid() && asking && Elements(queue) == db.creates.Keys && Distinct(queue)
      modifies this`db, this`asking
      ensures Valid() && State() == After(old(State()), config, TickClaims(claimed))
      ensures claimed <= Eligible(old(db)) && Ran(old(db), db, config, actions)
      ensures |claimed| == if |Eligible(old(db))| <= limit then |Eligible(old(db))| else limit
      ensures db == ClaimAll(old(db), claimed) && OldestFirst(queue, Eligible(old(db)), claimed)
    {
      claimed := TakeOldest(queue, Eligible(db), limit);
      actions := ClaimsOneByOne(db, config, claimed);
      db := ClaimAll(db, claimed);
      asking := false;
    }

    /** Launches what was claimed and ends the claiming tick. */
    method EndTick(claimed: set<InstanceId>)
      requires Valid() && claiming && |claimed| <= granted
      modifies this
      ensures Valid() && !claiming && active == old(active) + claimed && db == old(db)
      ensures State() == After(old(State()), config, TickEnds)
      ensures accepting == old(accepting) && stopping == old(stopping)
    {
      assert |active + claimed| <= |active| + |claimed|;
      active := active + claimed;
      claiming := false;
      granted, asking := 0, false;
    }

    /** A create ends, whether or not a tick is claiming. */
    method Finished(i: InstanceId)
      requires Valid()
      modifies this
      ensures Valid() && active == old(active) - {i} && db == old(db)
      ensures claiming == old(claiming) && granted == old(granted) && asking == old(asking)
      ensures accepting == old(accepting) && stopping == old(stopping)
    {
      Shrinks(active, i);
      active := active - {i};
    }

    /** No create is left in progress when the process starts or has stopped. */
    method RecoverInterrupted()
      modifies this`db
      ensures db == VariantStart.RecoverInterrupted(old(db))
      ensures forall i | i in db.creates :: db.creates[i].state != InProgress
    {
      db := db.(creates := map i | i in db.creates ::
        if db.creates[i].state == InProgress then db.creates[i].(state := Pending) else db.creates[i]);
    }

    /** No further tick begins. */
    method BeginStop()
      requires Valid()
      modifies this
      ensures Valid() && !accepting && stopping && db == old(db) && active == old(active)
      ensures claiming == old(claiming) && granted == old(granted) && State() == After(old(State()), config, StopBegins)
    {
      accepting, stopping := false, true;
    }

    /** After the grace period for the creates that run: what is still in progress is returned to the queue. */
    method EndStop()
      requires Valid() && !accepting
      modifies this`db
      ensures Valid() && State() == After(old(State()), config, StopRecovers)
      ensures forall i | i in db.creates :: db.creates[i].state != InProgress
      ensures (forall calls :: CreatesInProgress(AfterAll(State(), config, calls).db) == {}) <==> !asking
    {
      RecoverInterrupted();
      StopIsFinalExactlyWhen(old(State()), config);
    }
  }

  lemma Shrinks<T>(s: set<T>, x: T)
    ensures |s - {x}| <= |s|
  {
    if x in s {
      assert s == (s - {x}) + {x};
    } else {
      assert s - {x} == s;
    }
  }
}
