/**
 Operational incidents (orchestrator/src/services/incident-controller.ts): the
 table after a reconciliation, and the cache of healthy control loops.
 */
module IncidentController {
  import opened Basics

  type IncidentId = int
  type Task = int

  /** Detectors and control loops use different fingerprints. */
  datatype Fingerprint = ControlLoop(task: Task) | Detector(key: int)

  datatype IncidentState = Pending | Active | Resolved

  datatype Incident = Incident(
    fingerprint: Fingerprint,
    state: IncidentState,
    occurrenceCount: int,
    firstObservedAt: int,
    lastObservedAt: int,
    openedAt: Option<int>,
    resolvedAt: Option<int>
  )

  datatype Observation = Observation(
    fingerprint: Fingerprint,
    occurrenceCount: Option<int>,
    openAfterMs: Option<int>,
    openAfterOccurrences: Option<int>
  )

  type Table = map<IncidentId, Incident>

  function OrElse(o: Option<int>, d: int): int {
    if o.Some? then o.value else d
  }

  // ----- The table

  predicate Open(table: Table, id: IncidentId, f: Fingerprint) {
    id in table && table[id].fingerprint == f && table[id].state != Resolved
  }

  function Unresolved(table: Table): set<Fingerprint> {
    set id | id in table && table[id].state != Resolved :: table[id].fingerprint
  }

  function UnresolvedDetectors(table: Table): set<Fingerprint> {
    set f | f in Unresolved(table) && f.Detector?
  }

  /** At most one unresolved incident of a fingerprint; opening times as the states say. */
  ghost predicate TableOk(table: Table) {
    && (forall f, a, b :: Open(table, a, f) && Open(table, b, f) ==> a == b)
    && (forall id | id in table :: IncidentOk(table[id]))
  }

  predicate IncidentOk(i: Incident) {
    && (i.state == Pending <==> i.openedAt.None?)
    && (i.state == Resolved <==> i.resolvedAt.Some?)
    && i.firstObservedAt <= i.lastObservedAt
    && (i.openedAt.Some? ==> i.firstObservedAt <= i.openedAt.value)
  }

  function Found(table: Table, f: Fingerprint): set<IncidentId> {
    set id | id in table && Open(table, id, f)
  }

  // ----- One observation

  predicate OpensAtOnce(o: Observation) {
    OrElse(o.openAfterMs, 0) == 0 && OrElse(o.occurrenceCount, 1) >= OrElse(o.openAfterOccurrences, 1)
  }

  function Inserted(o: Observation, now: int): Incident {
    Incident(o.fingerprint, if OpensAtOnce(o) then Active else Pending, OrElse(o.occurrenceCount, 1), now, now,
             if OpensAtOnce(o) then Some(now) else None, None)
  }

  function Occurrences(i: Incident, o: Observation, increment: bool): int {
    OrElse(o.occurrenceCount, if increment then i.occurrenceCount + 1 else i.occurrenceCount)
  }

  /** Active stays active; without thresholds, or past one of them, the incident opens. */
  predicate IsOrBecomesActive(i: Incident, o: Observation, increment: bool, now: int) {
    || i.state == Active
    || (o.openAfterMs.None? && o.openAfterOccurrences.None?)
    || (o.openAfterMs.Some? && now - i.firstObservedAt >= o.openAfterMs.value)
    || (o.openAfterOccurrences.Some? && Occurrences(i, o, increment) >= o.openAfterOccurrences.value)
  }

  function Updated(i: Incident, o: Observation, increment: bool, now: int): Incident {
    if IsOrBecomesActive(i, o, increment, now)
    then i.(state := Active, occurrenceCount := Occurrences(i, o, increment), lastObservedAt := now,
            openedAt := Some(OrElse(i.openedAt, now)))
    else i.(state := Pending, occurrenceCount := Occurrences(i, o, increment), lastObservedAt := now, openedAt := None)
  }

  /** The unresolved incident of the fingerprint is updated, or inserted under the new id. */
  ghost predicate IsObserved(before: Table, after: Table, o: Observation, increment: bool, now: int, newId: IncidentId) {
    if Found(before, o.fingerprint) == {}
    then after == before[newId := Inserted(o, now)]
    else exists id :: Open(before, id, o.fingerprint) && after == before[id := Updated(before[id], o, increment, now)]
  }

  lemma ObservationKeeps(before: Table, after: Table, o: Observation, increment: bool, now: int, newId: IncidentId)
    requires TableOk(before) && IsObserved(before, after, o, increment, now, newId) && newId !in before
    requires forall id | id in before :: before[id].lastObservedAt <= now
    ensures TableOk(after) && Unresolved(after) == Unresolved(before) + {o.fingerprint}
    ensures forall id | id in after :: after[id].lastObservedAt <= now
    ensures forall id | id in before && before[id].fingerprint != o.fingerprint :: id in after && after[id] == before[id]
    ensures forall id | id in before && before[id].state == Resolved :: id in after && after[id] == before[id]
    ensures forall id | id in after && id !in before :: id == newId
  {
    if Found(before, o.fingerprint) == {} {
      forall id ensures !Open(before, id, o.fingerprint) {
        assert id in Found(before, o.fingerprint) <==> Open(before, id, o.fingerprint);
      }
      forall a, g | Open(after, a, g) && a != newId ensures Open(before, a, g) && g != o.fingerprint {
        assert after[a] == before[a] && Open(before, a, g);
        assert !Open(before, a, o.fingerprint);
      }
      assert IncidentOk(after[newId]);
      UnresolvedAfter(before, after, newId, o.fingerprint);
    } else {
      var id :| Open(before, id, o.fingerprint) && after == before[id := Updated(before[id], o, increment, now)];
      assert IncidentOk(before[id]) && IncidentOk(after[id]);
      forall a, g | Open(after, a, g) ensures Open(before, a, g) {
      }
      UnresolvedAfter(before, after, id, o.fingerprint);
    }
  }

  lemma UnresolvedAfter(before: Table, after: Table, id: IncidentId, f: Fingerprint)
    requires id in after && after[id].fingerprint == f && after[id].state != Resolved && after == before[id := after[id]]
    requires id in before ==> before[id].fingerprint == f
    ensures Unresolved(after) == Unresolved(before) + {f}
  {
    forall g | g in Unresolved(before) ensures g in Unresolved(after) {
      var k :| k in before && before[k].state != Resolved && before[k].fingerprint == g;
      assert k in after && after[k].fingerprint == g && after[k].state != Resolved;
    }
    forall g | g in Unresolved(after) ensures g in Unresolved(before) + {f} {
      var k :| k in after && after[k].state != Resolved && after[k].fingerprint == g;
      assert k != id ==> before[k] == after[k];
    }
  }

  function LoopFailure(task: Task, threshold: int): Observation {
    Observation(ControlLoop(task), None, None, Some(threshold))
  }

  /** The tables between the failures of a loop, from one without an unresolved incident of it. */
  ghost predicate FailsAgain(tables: seq<Table>, task: Task, threshold: int, times: seq<int>, ids: seq<IncidentId>) {
    && |tables| == |times| + 1 == |ids| + 1
    && Found(tables[0], ControlLoop(task)) == {}
    && forall k | 0 <= k < |times| ::
         TableOk(tables[k]) && ids[k] !in tables[k] &&
         IsObserved(tables[k], tables[k + 1], LoopFailure(task, threshold), true, times[k], ids[k])
  }

  /** A loop that fails n times in a row has one incident with n occurrences, which is open exactly from the threshold on. */
  lemma {:induction false} LoopFailuresOpen(
      tables: seq<Table>, task: Task, threshold: int, times: seq<int>, ids: seq<IncidentId>, n: nat)
    returns (id: IncidentId)
    requires FailsAgain(tables, task, threshold, times, ids) && 1 <= n <= |times|
    ensures Open(tables[n], id, ControlLoop(task)) && tables[n][id].occurrenceCount == n
    ensures tables[n][id].state == Active <==> n >= threshold
  {
    var before, after := tables[n - 1], tables[n - 1 + 1];
    assert IsObserved(before, after, LoopFailure(task, threshold), true, times[n - 1], ids[n - 1]);
    if n == 1 {
      id := ids[0];
    } else {
      id := LoopFailuresOpen(tables, task, threshold, times, ids, n - 1);
      assert id in Found(before, ControlLoop(task));
      var k :| Open(before, k, ControlLoop(task)) &&
        after == before[k := Updated(before[k], LoopFailure(task, threshold), true, times[n - 1])];
      assert TableOk(before) && k == id;
    }
  }

  /** These observations one after the other. */
  ghost predicate ObservedInOrder(
      before: Table, after: Table, observations: seq<Observation>, now: int, newIds: seq<IncidentId>)
    requires |newIds| == |observations|
    decreases |observations|
  {
    if observations == [] then after == before
    else
      var n := |observations| - 1;
      exists mid: Table ::
        ObservedInOrder(before, mid, observations[..n], now, newIds[..n]) &&
        IsObserved(mid, after, observations[n], false, now, newIds[n])
  }

  lemma ObservedOneMore(before: Table, mid: Table, after: Table, observations: seq<Observation>, now: int,
                        newIds: seq<IncidentId>, i: nat)
    requires |newIds| == |observations| && i < |observations|
    requires ObservedInOrder(before, mid, observations[..i], now, newIds[..i])
    requires IsObserved(mid, after, observations[i], false, now, newIds[i])
    ensures ObservedInOrder(before, after, observations[..i + 1], now, newIds[..i + 1])
  {
    assert observations[..i + 1][..i] == observations[..i] && newIds[..i + 1][..i] == newIds[..i];
  }

  // ----- Resolving

  /** Of these fingerprints waiting incidents are forgotten and open ones resolved; nothing else changes. */
  ghost predicate ResolvedOf(before: Table, after: Table, absent: set<Fingerprint>, now: int) {
    && after.Keys <= before.Keys
    && forall id | id in before ::
         if before[id].state == Resolved || before[id].fingerprint !in absent then id in after && after[id] == before[id]
         else if before[id].state == Pending then id !in after
         else id in after && after[id] == before[id].(state := Resolved, resolvedAt := Some(now))
  }

  lemma ResolvedOneMore(before: Table, mid: Table, f: Fingerprint, seen: set<Fingerprint>, now: int)
    requires ResolvedOf(before, mid, seen, now) && f !in seen
    ensures ResolvedOf(before, ResolvedTable(mid, f, now), seen + {f}, now)
  {
  }

  /** Waiting incidents are forgotten, open ones are kept as resolved. */
  function ResolvedTable(table: Table, f: Fingerprint, now: int): Table {
    map id | id in table && !(Open(table, id, f) && table[id].state == Pending) ::
      if Open(table, id, f) then table[id].(state := Resolved, resolvedAt := Some(now)) else table[id]
  }

  lemma ResolvingKeeps(table: Table, f: Fingerprint, now: int)
    requires TableOk(table)
    ensures TableOk(ResolvedTable(table, f, now)) && Unresolved(ResolvedTable(table, f, now)) == Unresolved(table) - {f}
    ensures forall id | id in ResolvedTable(table, f, now) ::
              id in table && ResolvedTable(table, f, now)[id].lastObservedAt == table[id].lastObservedAt
  {
    var after := ResolvedTable(table, f, now);
    forall id | id in after ensures IncidentOk(after[id]) {
      assert IncidentOk(table[id]);
    }
    forall g, a | Open(after, a, g) ensures Open(table, a, g) {
    }
    forall g | g in Unresolved(table) - {f} ensures g in Unresolved(after) {
      var k :| k in table && table[k].state != Resolved && table[k].fingerprint == g;
      assert k in after && after[k] == table[k];
    }
    forall g | g in Unresolved(after) ensures g in Unresolved(table) - {f} {
      var k :| k in after && after[k].state != Resolved && after[k].fingerprint == g;
      assert k in table && table[k].state != Resolved && table[k].fingerprint == g;
    }
  }

  lemma NothingToResolve(table: Table, f: Fingerprint, now: int)
    requires f !in Unresolved(table)
    ensures ResolvedTable(table, f, now) == table
  {
    forall id | id in table ensures !Open(table, id, f) {
      assert table[id].state != Resolved ==> table[id].fingerprint in Unresolved(table);
    }
  }

  // ----- The service

  class Controller {
    var table: Table
    var healthyLoops: set<Task>

    constructor ()
      ensures table == map[] && healthyLoops == {} && Valid(0)
    {
      table, healthyLoops := map[], {};
    }

    /** A loop in the cache has no unresolved incident; all rows are from before `now`. */
    ghost predicate Valid(now: int)
      reads this
    {
      && TableOk(table)
      && (forall id | id in table :: table[id].lastObservedAt <= now)
      && forall t | t in healthyLoops :: ControlLoop(t) !in Unresolved(table)
    }

    method Observe(o: Observation, increment: bool, now: int, newId: IncidentId)
      requires Valid(now) && newId !in table
      requires o.fingerprint.ControlLoop? ==> o.fingerprint.task !in healthyLoops
      modifies this`table
      ensures Valid(now) && IsObserved(old(table), table, o, increment, now, newId)
    {
      ghost var before := table;
      var current := Found(table, o.fingerprint);
      if current == {} {
        var occurrences := if o.occurrenceCount.Some? then o.occurrenceCount.value else 1;
        var active := (o.openAfterMs.None? || o.openAfterMs.value == 0) &&
          occurrences >= (if o.openAfterOccurrences.Some? then o.openAfterOccurrences.value else 1);
        table := table[newId := Incident(o.fingerprint, if active then Active else Pending, occurrences, now, now,
          if active then Some(now) else None, None)];
      } else {
        var id := Pick(current);
        var existing := table[id];
        var occurrences := if o.occurrenceCount.Some? then o.occurrenceCount.value
          else if increment then existing.occurrenceCount + 1 else existing.occurrenceCount;
        var age := now - existing.firstObservedAt;
        var hasTimeThreshold := o.openAfterMs.Some?;
        var hasOccurrenceThreshold := o.openAfterOccurrences.Some?;
        var active := existing.state == Active || (!hasTimeThreshold && !hasOccurrenceThreshold) ||
          (hasTimeThreshold && age >= o.openAfterMs.value) ||
          (hasOccurrenceThreshold && occurrences >= o.openAfterOccurrences.value);
        var openedAt := if !active then None
          else if existing.openedAt.Some? then existing.openedAt else Some(now);
        table := table[id := existing.(state := if active then Active else Pending, occurrenceCount := occurrences,
          lastObservedAt := now, openedAt := openedAt)];
        assert Open(before, id, o.fingerprint) && table[id] == Updated(existing, o, increment, now);
      }
      ObservationKeeps(before, table, o, increment, now, newId);
    }

    method Resolve(f: Fingerprint, now: int)
      requires Valid(now)
      modifies this`table
      ensures Valid(now) && table == ResolvedTable(old(table), f, now)
    {
      ghost var before := table;
      ResolvingKeeps(before, f, now);
      var rows := Found(table, f);
      if rows == {} {
        forall id | id in table ensures !Open(table, id, f) {
          assert id in Found(table, f) <==> Open(table, id, f);
        }
        assert table == ResolvedTable(before, f, now);
        return;
      }
      var id := Pick(rows);
      assert Open(before, id, f);
      assert forall k | k in before :: Open(before, k, f) ==> k == id;
      if table[id].state == Pending {
        table := table - {id};
      } else {
        table := table[id := table[id].(state := Resolved, resolvedAt := Some(now))];
      }
      assert table == ResolvedTable(before, f, now);
    }

    method RecordLoopFailure(task: Task, threshold: int, now: int, newId: IncidentId)
      requires Valid(now) && newId !in table
      modifies this
      ensures Valid(now) && healthyLoops == old(healthyLoops) - {task}
      ensures IsObserved(old(table), table, Observation(ControlLoop(task), None, None, Some(threshold)), true, now, newId)
    {
      healthyLoops := healthyLoops - {task};
      Observe(Observation(ControlLoop(task), None, None, Some(threshold)), true, now, newId);
    }

    /** The cache only saves work: the table is as if every success resolved the incident. */
    method RecordLoopSuccess(task: Task, now: int)
      requires Valid(now)
      modifies this
      ensures Valid(now) && healthyLoops == old(healthyLoops) + {task}
      ensures table == ResolvedTable(old(table), ControlLoop(task), now)
    {
      if task in healthyLoops {
        NothingToResolve(table, ControlLoop(task), now);
        return;
      }
      ResolvingKeeps(table, ControlLoop(task), now);
      Resolve(ControlLoop(task), now);
      healthyLoops := healthyLoops + {task};
    }

    method ObserveAll(observations: seq<Observation>, now: int, newIds: seq<IncidentId>)
      requires Valid(now) && |newIds| == |observations|
      requires Distinct(newIds)
      requires forall i | 0 <= i < |newIds| :: newIds[i] !in table
      requires forall i | 0 <= i < |observations| :: observations[i].fingerprint.Detector?
      modifies this`table
      ensures Valid(now) && Unresolved(table) == Unresolved(old(table)) + Fingerprints(observations)
      ensures KeptApart(old(table), table, Fingerprints(observations))
      ensures ObservedInOrder(old(table), table, observations, now, newIds)
    {
      ghost var before := table;
      assert Fingerprints(observations[..0]) == {};
      for i := 0 to |observations|
        invariant Valid(now)
        invariant forall k | i <= k < |newIds| :: newIds[k] !in table
        invariant Unresolved(table) == Unresolved(before) + Fingerprints(observations[..i])
        invariant KeptApart(before, table, Fingerprints(observations[..i]))
        invariant ObservedInOrder(before, table, observations[..i], now, newIds[..i])
      {
        ghost var mid := table;
        Observe(observations[i], false, now, newIds[i]);
        ObservationKeeps(mid, table, observations[i], false, now, newIds[i]);
        FingerprintsGrow(observations, i);
        ObservedOneMore(before, mid, table, observations, now, newIds, i);
      }
      assert observations[..|observations|] == observations && newIds[..|newIds|] == newIds;
    }

    /**
     An uninterrupted reconciliation: the unresolved detector incidents are exactly
     the observed ones, one each, and the incidents of control loops are untouched.
     `observed` is the table between the observations and the resolving of the others.
     */
    method Reconcile(observations: seq<Observation>, now: int, newIds: seq<IncidentId>) returns (ghost observed: Table)
      requires Valid(now) && |newIds| == |observations|
      requires Distinct(newIds)
      requires forall i | 0 <= i < |newIds| :: newIds[i] !in table
      requires forall i | 0 <= i < |observations| :: observations[i].fingerprint.Detector?
      modifies this`table
      ensures Valid(now) && UnresolvedDetectors(table) == Fingerprints(observations)
      ensures forall f, a, b :: Open(table, a, f) && Open(table, b, f) ==> a == b
      ensures Kept(old(table), table)
      ensures ObservedInOrder(old(table), observed, observations, now, newIds)
      ensures ResolvedOf(observed, table, UnresolvedDetectors(observed) - Fingerprints(observations), now)
    {
      ghost var before := table;
      ObserveAll(observations, now, newIds);
      observed := table;
      var left := UnresolvedDetectors(table) - Fingerprints(observations);
      ResolveAll(left, now);
      KeptThen(before, observed, table);
    }

    method ResolveAll(absent: set<Fingerprint>, now: int)
      requires Valid(now) && forall f | f in absent :: f.Detector?
      modifies this`table
      ensures Valid(now) && UnresolvedDetectors(table) == UnresolvedDetectors(old(table)) - absent
      ensures Kept(old(table), table) && ResolvedOf(old(table), table, absent, now)
    {
      ghost var before := table;
      var left := absent;
      while left != {}
        invariant Valid(now) && left <= absent
        invariant UnresolvedDetectors(table) == UnresolvedDetectors(before) - (absent - left)
        invariant Kept(before, table) && ResolvedOf(before, table, absent - left, now)
        decreases |left|
      {
        var f := Pick(left);
        ghost var mid := table;
        Resolve(f, now);
        ResolvingKeeps(mid, f, now);
        KeptThen(before, mid, table);
        ResolvedOneMore(before, mid, f, absent - left, now);
        assert UnresolvedDetectors(table) == UnresolvedDetectors(mid) - {f};
        assert absent - (left - {f}) == (absent - left) + {f};
        left := left - {f};
      }
    }
  }

  /** Resolved incidents and those of control loops stay as they are. */
  ghost predicate Kept(before: Table, after: Table) {
    forall id | id in before && (before[id].state == Resolved || before[id].fingerprint.ControlLoop?) ::
      id in after && after[id] == before[id]
  }

  lemma KeptThen(before: Table, mid: Table, after: Table)
    requires Kept(before, mid) && Kept(mid, after)
    ensures Kept(before, after)
  {
    forall id | id in before && (before[id].state == Resolved || before[id].fingerprint.ControlLoop?)
      ensures id in after && after[id] == before[id]
    {
      assert id in mid && mid[id] == before[id];
    }
  }

  function Fingerprints(observations: seq<Observation>): set<Fingerprint> {
    set i | 0 <= i < |observations| :: observations[i].fingerprint
  }

  lemma FingerprintsGrow(observations: seq<Observation>, i: nat)
    requires i < |observations|
    ensures Fingerprints(observations[..i + 1]) == Fingerprints(observations[..i]) + {observations[i].fingerprint}
  {
    var a, b := observations[..i], observations[..i + 1];
    forall k | 0 <= k < |b| ensures b[k].fingerprint in Fingerprints(a) + {observations[i].fingerprint} {
      if k < i {
        assert a[k] == b[k];
      }
    }
    forall k | 0 <= k < |a| ensures a[k].fingerprint in Fingerprints(b) {
      assert a[k] == b[k];
    }
    assert b[i].fingerprint in Fingerprints(b);
  }

  /** Resolved incidents and those of other fingerprints stay as they are. */
  ghost predicate KeptApart(before: Table, after: Table, touched: set<Fingerprint>) {
    forall id | id in before && (before[id].state == Resolved || before[id].fingerprint !in touched) ::
      id in after && after[id] == before[id]
  }
}
