/**
 Where servers are created, and what that does to groups and hosts over any run
 (orchestrator/src/services/instance-controller.ts, createWarm and the guarded
 lifecycle updates; orchestrator/src/services/host-service.ts, selectForPlacement).
 */
module Fleet {
  import opened Basics
  import opened Lifecycles
  import opened HostPlacement

  type GroupId = int
  type InstanceId = nat

  datatype Group = Group(enabled: bool, maximum: nat, hub: bool, proxy: bool)

  /** `available` is ONLINE and ACTIVE, `draining` the maintenance state. */
  datatype Host = Host(cpu: int, memory: int, proxyAddress: bool, available: bool, draining: bool)

  datatype Row = Row(
    group: GroupId,
    host: HostId,
    cpu: int,
    memory: int,
    lifecycle: Lifecycle,
    open: bool,
    replacedId: Option<InstanceId>
  )

  /** Instances in the order they were inserted; the index is the id. */
  datatype State = State(groups: map<GroupId, Group>, hosts: seq<Host>, rows: seq<Row>)

  datatype Reason = HubRenewal | HostMaintenance

  datatype Replacement = Replacement(source: InstanceId, reason: Reason, renewalDue: bool)

  datatype PlacementResult = Placed(host: HostId) | BlockedBy(cause: PlacementBlockCause)

  // ----- What a row uses

  function ActiveShare(row: Row, g: GroupId): int {
    if row.group == g && Live(row.lifecycle) then 1 else 0
  }

  function CpuShare(row: Row, h: HostId): int {
    if row.host == h && row.lifecycle != Stopped then row.cpu else 0
  }

  function MemoryShare(row: Row, h: HostId): int {
    if row.host == h && row.lifecycle != Stopped then row.memory else 0
  }

  function Total(rows: seq<Row>, share: Row -> int): int {
    Sum(seq(|rows|, i requires 0 <= i < |rows| => share(rows[i])))
  }

  function ActiveIn(rows: seq<Row>, g: GroupId): int {
    Total(rows, row => ActiveShare(row, g))
  }

  function CpuOn(rows: seq<Row>, h: HostId): int {
    Total(rows, row => CpuShare(row, h))
  }

  function MemoryOn(rows: seq<Row>, h: HostId): int {
    Total(rows, row => MemoryShare(row, h))
  }

  lemma TotalAppend(rows: seq<Row>, row: Row, share: Row -> int)
    ensures Total(rows + [row], share) == Total(rows, share) + share(row)
  {
    var shares := seq(|rows|, i requires 0 <= i < |rows| => share(rows[i]));
    SumAppend(shares, share(row));
    assert seq(|rows + [row]|, i requires 0 <= i < |rows + [row]| => share((rows + [row])[i])) == shares + [share(row)];
  }

  lemma TotalUpdate(rows: seq<Row>, i: nat, row: Row, share: Row -> int)
    requires i < |rows|
    ensures Total(rows[i := row], share) == Total(rows, share) - share(rows[i]) + share(row)
  {
    var shares := seq(|rows|, k requires 0 <= k < |rows| => share(rows[k]));
    SumUpdate(shares, i, share(row));
    var now := rows[i := row];
    assert seq(|now|, k requires 0 <= k < |now| => share(now[k])) == shares[i := share(row)];
  }

  // ----- Placement

  predicate Eligible(host: Host, proxy: bool) {
    host.available && (proxy ==> host.proxyAddress)
  }

  /** The eligible hosts with what is reserved on them, in the order of their ids. */
  function Candidates(hosts: seq<Host>, rows: seq<Row>, proxy: bool, excluded: Option<HostId>): (r: seq<HostPlacementCandidate>)
    ensures forall c | c in r ::
              0 <= c.id < |hosts| && Eligible(hosts[c.id], proxy) && excluded != Some(c.id) &&
              c == HostPlacementCandidate(c.id, hosts[c.id].cpu, hosts[c.id].memory, CpuOn(rows, c.id), MemoryOn(rows, c.id))
    ensures forall h | 0 <= h < |hosts| && Eligible(hosts[h], proxy) && excluded != Some(h) ::
              exists c :: c in r && c.id == h
  {
    if hosts == [] then []
    else
      var n := |hosts| - 1;
      var before := Candidates(hosts[..n], rows, proxy, excluded);
      if Eligible(hosts[n], proxy) && excluded != Some(n)
      then
        var c := HostPlacementCandidate(n, hosts[n].cpu, hosts[n].memory, CpuOn(rows, n), MemoryOn(rows, n));
        assert c in before + [c] && forall d | d in before :: d in before + [c];
        before + [c]
      else before
  }

  function SelectForPlacement(
      hosts: seq<Host>, rows: seq<Row>, g: GroupId, maximum: int, request: PlacementRequest,
      proxy: bool, excluded: Option<HostId>): PlacementResult
  {
    if ActiveIn(rows, g) >= maximum then BlockedBy(GroupMaximumReached)
    else
      var candidates := Candidates(hosts, rows, proxy, excluded);
      if candidates == [] then BlockedBy(NoOnlineHost)
      else
        var selected := SelectExecutionHost(candidates, request);
        if selected.Some? then Placed(selected.value.id)
        else BlockedBy(ClassifyPlacementBlock(candidates, request))
  }

  predicate HasRoom(hosts: seq<Host>, rows: seq<Row>, h: HostId, request: PlacementRequest) {
    0 <= h < |hosts| && CpuOn(rows, h) + request.cpu <= hosts[h].cpu && MemoryOn(rows, h) + request.memoryBytes <= hosts[h].memory
  }

  /**
   A server is placed exactly when the group is below its maximum and some eligible
   host has room, always on a host with room; a conflict is never reported.
   */
  lemma PlacementIsExact(
      hosts: seq<Host>, rows: seq<Row>, g: GroupId, maximum: int, request: PlacementRequest,
      proxy: bool, excluded: Option<HostId>)
    ensures
      var result := SelectForPlacement(hosts, rows, g, maximum, request, proxy, excluded);
      && (result.Placed? <==>
            ActiveIn(rows, g) < maximum &&
            exists h :: HasRoom(hosts, rows, h, request) && Eligible(hosts[h], proxy) && excluded != Some(h))
      && (result.Placed? ==>
            HasRoom(hosts, rows, result.host, request) && Eligible(hosts[result.host], proxy) && excluded != Some(result.host))
      && (result == BlockedBy(GroupMaximumReached) <==> ActiveIn(rows, g) >= maximum)
      && result != BlockedBy(PlacementConflict)
  {
    var candidates := Candidates(hosts, rows, proxy, excluded);
    forall h | HasRoom(hosts, rows, h, request) && Eligible(hosts[h], proxy) && excluded != Some(h)
      ensures exists c :: c in candidates && Feasible(c, request)
    {
      RoomIsFeasible(hosts, rows, request, proxy, excluded, h);
    }
    forall c | c in candidates && Feasible(c, request) ensures HasRoom(hosts, rows, c.id, request) {
    }
  }

  lemma RoomIsFeasible(
      hosts: seq<Host>, rows: seq<Row>, request: PlacementRequest, proxy: bool, excluded: Option<HostId>, h: HostId)
    requires HasRoom(hosts, rows, h, request) && Eligible(hosts[h], proxy) && excluded != Some(h)
    ensures exists c :: c in Candidates(hosts, rows, proxy, excluded) && Feasible(c, request)
  {
    var candidates := Candidates(hosts, rows, proxy, excluded);
    assert Eligible(hosts[h], proxy);
    assert exists c :: c in candidates && c.id == h;
    var c :| c in candidates && c.id == h;
    assert c == HostPlacementCandidate(h, hosts[h].cpu, hosts[h].memory, CpuOn(rows, h), MemoryOn(rows, h));
  }

  // ----- Steps

  /** A replacement on its way or running, whose source is not over. */
  predicate LiveReplacement(rows: seq<Row>, i: InstanceId, g: GroupId) {
    && i < |rows| && rows[i].group == g && Serving(rows[i].lifecycle)
    && rows[i].replacedId.Some? && rows[i].replacedId.value < |rows|
    && var source := rows[rows[i].replacedId.value].lifecycle;
       source != Stopped && source != InstanceFailed
  }

  predicate MayReplace(s: State, g: GroupId, r: Replacement)
    requires g in s.groups
  {
    && r.source < |s.rows| && s.rows[r.source].group == g
    && s.rows[r.source].lifecycle == Running && s.rows[r.source].open
    && (match r.reason
        case HubRenewal => s.groups[g].hub && r.renewalDue
        case HostMaintenance => 0 <= s.rows[r.source].host < |s.hosts| && s.hosts[s.rows[r.source].host].draining)
    && forall i: nat | i < |s.rows| :: !LiveReplacement(s.rows, i, g)
  }

  function Limit(group: Group, replacement: Option<Replacement>): int {
    group.maximum + if replacement.Some? && replacement.value.reason == HostMaintenance then 1 else 0
  }

  /** The host to avoid: that of the server under maintenance. */
  function Excluded(s: State, replacement: Option<Replacement>): Option<HostId> {
    if replacement.Some? && replacement.value.reason == HostMaintenance && replacement.value.source < |s.rows|
    then Some(s.rows[replacement.value.source].host) else None
  }

  function CreatePlacement(s: State, g: GroupId, request: PlacementRequest, replacement: Option<Replacement>): PlacementResult
    requires g in s.groups
  {
    SelectForPlacement(s.hosts, s.rows, g, Limit(s.groups[g], replacement), request, s.groups[g].proxy, Excluded(s, replacement))
  }

  predicate MayCreate(s: State, g: GroupId, request: PlacementRequest, replacement: Option<Replacement>) {
    && g in s.groups && s.groups[g].enabled
    && (replacement.Some? ==> MayReplace(s, g, replacement.value))
    && CreatePlacement(s, g, request, replacement).Placed?
  }

  /** The server to replace runs, is open, and has a reason to go; and no other replacement of its group is under way. */
  ghost predicate Replaceable(s: State, g: GroupId, r: Replacement)
    requires g in s.groups
  {
    && r.source < |s.rows|
    && var source := s.rows[r.source];
       && source.group == g && source.lifecycle == Running && source.open
       && (r.reason == HubRenewal ==> s.groups[g].hub && r.renewalDue)
       && (r.reason == HostMaintenance ==> 0 <= source.host < |s.hosts| && s.hosts[source.host].draining)
       && forall i: nat | i < |s.rows| && s.rows[i].group == g && s.rows[i].replacedId.Some? && s.rows[i].replacedId.value < |s.rows| ::
            s.rows[i].lifecycle in {Creating, Starting, Running} ==>
              s.rows[s.rows[i].replacedId.value].lifecycle in {Stopped, InstanceFailed}
  }

  /** A host that may take the server: available, with an address if it is a proxy, not the one under maintenance, and with room. */
  ghost predicate Suitable(s: State, g: GroupId, request: PlacementRequest, replacement: Option<Replacement>, h: HostId)
    requires g in s.groups
  {
    && 0 <= h < |s.hosts| && s.hosts[h].available && (s.groups[g].proxy ==> s.hosts[h].proxyAddress)
    && !(replacement.Some? && replacement.value.reason == HostMaintenance && replacement.value.source < |s.rows| &&
         s.rows[replacement.value.source].host == h)
    && CpuOn(s.rows, h) + request.cpu <= s.hosts[h].cpu && MemoryOn(s.rows, h) + request.memoryBytes <= s.hosts[h].memory
  }

  /**
   A server is created exactly in an enabled group that is below its maximum, or one
   above it for maintenance, if what it replaces may be replaced and some host is
   suitable; and then on a suitable host.
   */
  lemma CreationIsExact(s: State, g: GroupId, request: PlacementRequest, replacement: Option<Replacement>)
    ensures MayCreate(s, g, request, replacement) <==>
              && g in s.groups && s.groups[g].enabled
              && (replacement.Some? ==> Replaceable(s, g, replacement.value))
              && ActiveIn(s.rows, g) <
                   s.groups[g].maximum + (if replacement.Some? && replacement.value.reason == HostMaintenance then 1 else 0)
              && exists h :: Suitable(s, g, request, replacement, h)
    ensures MayCreate(s, g, request, replacement) ==>
              Suitable(s, g, request, replacement, NewRow(s, g, request, replacement).host)
  {
    if g in s.groups && s.groups[g].enabled {
      var excluded := Excluded(s, replacement);
      PlacementIsExact(s.hosts, s.rows, g, Limit(s.groups[g], replacement), request, s.groups[g].proxy, excluded);
      forall h ensures Suitable(s, g, request, replacement, h) <==>
                HasRoom(s.hosts, s.rows, h, request) && Eligible(s.hosts[h], s.groups[g].proxy) && excluded != Some(h)
      {
      }
      if replacement.Some? {
        ReplaceableMeans(s, g, replacement.value);
      }
    }
  }

  lemma ReplaceableMeans(s: State, g: GroupId, r: Replacement)
    requires g in s.groups
    ensures MayReplace(s, g, r) <==> Replaceable(s, g, r)
  {
    forall i: nat | i < |s.rows|
      ensures LiveReplacement(s.rows, i, g) <==>
                s.rows[i].group == g && s.rows[i].replacedId.Some? && s.rows[i].replacedId.value < |s.rows| &&
                s.rows[i].lifecycle in {Creating, Starting, Running} &&
                s.rows[s.rows[i].replacedId.value].lifecycle !in {Stopped, InstanceFailed}
    {
    }
  }

  function NewRow(s: State, g: GroupId, request: PlacementRequest, replacement: Option<Replacement>): Row
    requires MayCreate(s, g, request, replacement)
  {
    Row(g, CreatePlacement(s, g, request, replacement).host, request.cpu, request.memoryBytes, Creating, true,
        if replacement.Some? then Some(replacement.value.source) else None)
  }

  /** `allowed` is the answer of the startup policy. */
  function Created(s: State, g: GroupId, request: PlacementRequest, replacement: Option<Replacement>, allowed: bool): State {
    if MayCreate(s, g, request, replacement) && allowed
    then s.(rows := s.rows + [NewRow(s, g, request, replacement)]) else s
  }

  function Move(s: State, i: InstanceId, to: Lifecycle): State {
    if i < |s.rows| && Follows(s.rows[i].lifecycle, to)
    then s.(rows := s.rows[i := s.rows[i].(lifecycle := to)]) else s
  }

  function Reserve(s: State, i: InstanceId): State {
    if i < |s.rows| && s.rows[i].lifecycle == Running
    then s.(rows := s.rows[i := s.rows[i].(open := false)]) else s
  }

  function ChangeHost(s: State, h: HostId, available: bool, draining: bool): State {
    if 0 <= h < |s.hosts|
    then s.(hosts := s.hosts[h := s.hosts[h].(available := available, draining := draining)]) else s
  }

  datatype Action =
    | DoCreate(g: GroupId, request: PlacementRequest, replacement: Option<Replacement>, allowed: bool)
    | DoMove(i: InstanceId, to: Lifecycle)
    | DoReserve(i: InstanceId)
    | DoChangeHost(h: HostId, available: bool, draining: bool)

  function Apply(s: State, a: Action): State {
    match a
    case DoCreate(g, request, replacement, allowed) => Created(s, g, request, replacement, allowed)
    case DoMove(i, to) => Move(s, i, to)
    case DoReserve(i) => Reserve(s, i)
    case DoChangeHost(h, available, draining) => ChangeHost(s, h, available, draining)
  }

  ghost function Run(s: State, actions: seq<Action>): State {
    if actions == [] then s else Apply(Run(s, actions[..|actions| - 1]), actions[|actions| - 1])
  }

  /** Variants ask for something. */
  predicate ValidAction(a: Action) {
    a.DoCreate? ==> a.request.cpu >= 0 && a.request.memoryBytes >= 0
  }

  predicate IsMaintenance(a: Action) {
    a.DoCreate? && a.replacement.Some? && a.replacement.value.reason == HostMaintenance
  }

  // ----- Invariant

  ghost predicate RowOk(s: State, i: nat)
    requires i < |s.rows|
  {
    var row := s.rows[i];
    && row.cpu >= 0 && row.memory >= 0
    && (row.replacedId.Some? ==>
          row.replacedId.value < i &&
          s.rows[row.replacedId.value].lifecycle != Creating && s.rows[row.replacedId.value].lifecycle != Starting)
  }

  ghost predicate HostsOk(s: State) {
    forall h | 0 <= h < |s.hosts| :: CpuOn(s.rows, h) <= s.hosts[h].cpu && MemoryOn(s.rows, h) <= s.hosts[h].memory
  }

  /** `extra` is one if servers were replaced for maintenance. */
  ghost predicate GroupsOk(s: State, extra: int) {
    forall g | g in s.groups :: ActiveIn(s.rows, g) <= s.groups[g].maximum + extra
  }

  predicate Replacing(rows: seq<Row>, i: InstanceId, g: GroupId) {
    LiveReplacement(rows, i, g) && rows[rows[i].replacedId.value].lifecycle == Running
  }

  ghost predicate OneReplacement(s: State) {
    forall g, i, j :: Replacing(s.rows, i, g) && Replacing(s.rows, j, g) ==> i == j
  }

  ghost predicate Inv(s: State, extra: int) {
    (forall i: nat | i < |s.rows| :: RowOk(s, i)) && HostsOk(s) && GroupsOk(s, extra) && OneReplacement(s)
  }

  // ----- Creating

  lemma AppendHosts(s: State, row: Row)
    requires HostsOk(s) && 0 <= row.host < |s.hosts|
    requires CpuOn(s.rows, row.host) + row.cpu <= s.hosts[row.host].cpu
    requires MemoryOn(s.rows, row.host) + row.memory <= s.hosts[row.host].memory
    ensures HostsOk(s.(rows := s.rows + [row]))
  {
    var after := s.(rows := s.rows + [row]);
    forall h | 0 <= h < |after.hosts| ensures CpuOn(after.rows, h) <= after.hosts[h].cpu && MemoryOn(after.rows, h) <= after.hosts[h].memory {
      TotalAppend(s.rows, row, r => CpuShare(r, h));
      TotalAppend(s.rows, row, r => MemoryShare(r, h));
    }
  }

  lemma CreateHosts(s: State, g: GroupId, request: PlacementRequest, replacement: Option<Replacement>)
    requires HostsOk(s) && MayCreate(s, g, request, replacement)
    ensures HostsOk(s.(rows := s.rows + [NewRow(s, g, request, replacement)]))
  {
    PlacementIsExact(s.hosts, s.rows, g, Limit(s.groups[g], replacement), request, s.groups[g].proxy, Excluded(s, replacement));
    AppendHosts(s, NewRow(s, g, request, replacement));
  }

  lemma CreateGroups(s: State, g: GroupId, request: PlacementRequest, replacement: Option<Replacement>, extra: int)
    requires GroupsOk(s, extra) && MayCreate(s, g, request, replacement) && extra >= 0
    requires replacement.Some? && replacement.value.reason == HostMaintenance ==> extra >= 1
    ensures GroupsOk(s.(rows := s.rows + [NewRow(s, g, request, replacement)]), extra)
  {
    var row := NewRow(s, g, request, replacement);
    var after := s.(rows := s.rows + [row]);
    forall k | k in after.groups ensures ActiveIn(after.rows, k) <= after.groups[k].maximum + extra {
      TotalAppend(s.rows, row, r => ActiveShare(r, k));
    }
  }

  lemma AppendReplacement(s: State, row: Row)
    requires OneReplacement(s) && forall i: nat | i < |s.rows| :: RowOk(s, i)
    requires row.replacedId.Some? ==> forall i: nat | i < |s.rows| :: !LiveReplacement(s.rows, i, row.group)
    ensures OneReplacement(s.(rows := s.rows + [row]))
  {
    var after := s.rows + [row];
    var n := |s.rows|;
    forall k, i: nat | Replacing(after, i, k) && i < n ensures Replacing(s.rows, i, k) {
      assert RowOk(s, i);
    }
    forall k, i: nat | Replacing(after, i, k) && i < n ensures row.replacedId.Some? ==> k != row.group {
      assert LiveReplacement(s.rows, i, k);
    }
  }

  lemma CreateReplacement(s: State, g: GroupId, request: PlacementRequest, replacement: Option<Replacement>)
    requires OneReplacement(s) && MayCreate(s, g, request, replacement)
    requires forall i: nat | i < |s.rows| :: RowOk(s, i)
    ensures OneReplacement(s.(rows := s.rows + [NewRow(s, g, request, replacement)]))
  {
    AppendReplacement(s, NewRow(s, g, request, replacement));
  }

  lemma CreateKeeps(s: State, g: GroupId, request: PlacementRequest, replacement: Option<Replacement>, allowed: bool, extra: int)
    requires Inv(s, extra) && extra >= 0 && request.cpu >= 0 && request.memoryBytes >= 0
    requires replacement.Some? && replacement.value.reason == HostMaintenance ==> extra >= 1
    ensures Inv(Created(s, g, request, replacement, allowed), extra)
  {
    if MayCreate(s, g, request, replacement) && allowed {
      var after := Created(s, g, request, replacement, allowed);
      CreateHosts(s, g, request, replacement);
      CreateGroups(s, g, request, replacement, extra);
      CreateReplacement(s, g, request, replacement);
      forall i: nat | i < |after.rows| ensures RowOk(after, i) {
        if i < |s.rows| {
          assert RowOk(s, i);
        }
      }
    }
  }

  // ----- Moving and the rest

  /** A changed row uses no more than before, and becomes neither serving nor running in place of a source. */
  ghost predicate Shrinks(before: Row, after: Row) {
    && after.group == before.group && after.host == before.host && after.cpu == before.cpu
    && after.memory == before.memory && after.replacedId == before.replacedId
    && (Live(after.lifecycle) ==> Live(before.lifecycle))
    && (before.lifecycle == Stopped ==> after.lifecycle == Stopped)
    && (Serving(after.lifecycle) ==> Serving(before.lifecycle))
    && (after.lifecycle == Creating || after.lifecycle == Starting ==>
          before.lifecycle == Creating || before.lifecycle == Starting)
    && (after.lifecycle == Running ==> before.lifecycle == Starting || before.lifecycle == Running)
  }

  lemma RowChangeKeepsSums(s: State, i: nat, row: Row, extra: int)
    requires i < |s.rows| && Shrinks(s.rows[i], row) && RowOk(s, i)
    requires HostsOk(s) && GroupsOk(s, extra)
    ensures HostsOk(s.(rows := s.rows[i := row])) && GroupsOk(s.(rows := s.rows[i := row]), extra)
  {
    var after := s.(rows := s.rows[i := row]);
    forall h | 0 <= h < |after.hosts| ensures CpuOn(after.rows, h) <= after.hosts[h].cpu && MemoryOn(after.rows, h) <= after.hosts[h].memory {
      TotalUpdate(s.rows, i, row, r => CpuShare(r, h));
      TotalUpdate(s.rows, i, row, r => MemoryShare(r, h));
    }
    forall g | g in after.groups ensures ActiveIn(after.rows, g) <= after.groups[g].maximum + extra {
      TotalUpdate(s.rows, i, row, r => ActiveShare(r, g));
    }
  }

  lemma RowChangeKeepsReplacement(s: State, i: nat, row: Row, after: State)
    requires i < |s.rows| && Shrinks(s.rows[i], row)
    requires (forall k: nat | k < |s.rows| :: RowOk(s, k)) && OneReplacement(s)
    requires after == s.(rows := s.rows[i := row])
    ensures OneReplacement(after)
    ensures forall k: nat | k < |after.rows| :: RowOk(after, k)
  {
    forall k: nat | k < |s.rows| ensures RowOk(after, k) {
      assert RowOk(s, k);
    }
    forall g, j | Replacing(after.rows, j, g) ensures Replacing(s.rows, j, g) {
      assert RowOk(s, j);
    }
  }

  lemma StepKeeps(s: State, a: Action, extra: int)
    requires Inv(s, extra) && ValidAction(a) && extra >= 0 && (IsMaintenance(a) ==> extra >= 1)
    ensures Inv(Apply(s, a), extra)
  {
    match a {
      case DoCreate(g, request, replacement, allowed) =>
        CreateKeeps(s, g, request, replacement, allowed, extra);
      case DoMove(i, to) =>
        if i < |s.rows| && Follows(s.rows[i].lifecycle, to) {
          RowChangeKeepsSums(s, i, s.rows[i].(lifecycle := to), extra);
          RowChangeKeepsReplacement(s, i, s.rows[i].(lifecycle := to), Apply(s, a));
        }
      case DoReserve(i) =>
        if i < |s.rows| && s.rows[i].lifecycle == Running {
          RowChangeKeepsSums(s, i, s.rows[i].(open := false), extra);
          RowChangeKeepsReplacement(s, i, s.rows[i].(open := false), Apply(s, a));
        }
      case DoChangeHost(h, available, draining) =>
        forall i: nat | i < |s.rows| ensures RowOk(Apply(s, a), i) {
          assert RowOk(s, i);
        }
    }
  }

  lemma {:induction false} RunKeeps(s: State, actions: seq<Action>, extra: int)
    requires Inv(s, extra) && extra >= 0
    requires forall k | 0 <= k < |actions| :: ValidAction(actions[k]) && (IsMaintenance(actions[k]) ==> extra >= 1)
    ensures Inv(Run(s, actions), extra)
  {
    if actions != [] {
      var n := |actions| - 1;
      RunKeeps(s, actions[..n], extra);
      StepKeeps(Run(s, actions[..n]), actions[n], extra);
    }
  }

  lemma {:induction false} RunKeepsSizes(s: State, actions: seq<Action>)
    ensures Run(s, actions).groups == s.groups && |Run(s, actions).hosts| == |s.hosts|
    ensures forall h | 0 <= h < |s.hosts| ::
              Run(s, actions).hosts[h].cpu == s.hosts[h].cpu && Run(s, actions).hosts[h].memory == s.hosts[h].memory
  {
    if actions != [] {
      RunKeepsSizes(s, actions[..|actions| - 1]);
    }
  }

  predicate NothingReserved(s: State) {
    s.rows == [] && forall h | 0 <= h < |s.hosts| :: s.hosts[h].cpu >= 0 && s.hosts[h].memory >= 0
  }

  /**
   Over every run from an empty fleet: no host is overbooked, a group exceeds its
   maximum by at most one server and only if there was a replacement for maintenance,
   and at most one live replacement of a group has a running source.
   */
  lemma AllocationIsSafe(start: State, actions: seq<Action>)
    requires NothingReserved(start) && forall k | 0 <= k < |actions| :: ValidAction(actions[k])
    ensures
      var s := Run(start, actions);
      var extra := if exists k | 0 <= k < |actions| :: IsMaintenance(actions[k]) then 1 else 0;
      && |s.hosts| == |start.hosts| && s.groups == start.groups
      && (forall h | 0 <= h < |start.hosts| ::
            CpuOn(s.rows, h) <= start.hosts[h].cpu && MemoryOn(s.rows, h) <= start.hosts[h].memory)
      && (forall g | g in start.groups :: ActiveIn(s.rows, g) <= start.groups[g].maximum + extra)
      && (forall g, i, j :: Replacing(s.rows, i, g) && Replacing(s.rows, j, g) ==> i == j)
  {
    var extra := if exists k | 0 <= k < |actions| :: IsMaintenance(actions[k]) then 1 else 0;
    EmptyFleetIsGood(start, extra);
    RunKeeps(start, actions, extra);
    RunKeepsSizes(start, actions);
  }

  lemma EmptyFleetIsGood(start: State, extra: int)
    requires NothingReserved(start) && extra >= 0
    ensures Inv(start, extra)
  {
    forall h | 0 <= h < |start.hosts| ensures CpuOn(start.rows, h) == 0 && MemoryOn(start.rows, h) == 0 {
    }
    forall g | g in start.groups ensures ActiveIn(start.rows, g) == 0 {
    }
  }

  // ----- The service

  class InstanceController {
    var state: State

    constructor (state: State)
      ensures this.state == state
    {
      this.state := state;
    }

    /** Checks, placement and insertion in the order of the transaction; a refused start takes its row back. */
    method CreateWarm(g: GroupId, request: PlacementRequest, replacement: Option<Replacement>, allowed: bool)
      returns (created: Option<InstanceId>)
      modifies this
      ensures state == Created(old(state), g, request, replacement, allowed)
      ensures created.Some? <==> MayCreate(old(state), g, request, replacement) && allowed
      ensures created.Some? ==> created.value == |old(state).rows|
    {
      if g !in state.groups || !state.groups[g].enabled {
        return None;
      }
      var limit := state.groups[g].maximum +
        if replacement.Some? && replacement.value.reason == HostMaintenance then 1 else 0;
      var excluded: Option<HostId> := None;
      if replacement.Some? {
        if !MayReplace(state, g, replacement.value) {
          return None;
        }
        if replacement.value.reason == HostMaintenance {
          excluded := Some(state.rows[replacement.value.source].host);
        }
      }
      var placement :=
        SelectForPlacement(state.hosts, state.rows, g, limit, request, state.groups[g].proxy, excluded);
      if placement.BlockedBy? {
        return None;
      }
      ghost var before := state;
      var source := if replacement.Some? then Some(replacement.value.source) else None;
      state := state.(rows := state.rows +
        [Row(g, placement.host, request.cpu, request.memoryBytes, Creating, true, source)]);
      if !allowed {
        state := state.(rows := state.rows[..|state.rows| - 1]);
        assert state.rows == before.rows;
        return None;
      }
      return Some(|state.rows| - 1);
    }
  }
}
