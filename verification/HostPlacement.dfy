/**
 Choosing an execution host (orchestrator/src/domain/host-placement.ts) and
 saying why there is none (orchestrator/src/services/host-service.ts).
 */
module HostPlacement {
  import opened Basics

  type HostId = int

  datatype HostPlacementCandidate = HostPlacementCandidate(
    id: HostId,
    allocatableCpu: int,
    allocatableMemoryBytes: int,
    reservedCpu: int,
    reservedMemoryBytes: int
  )

  datatype PlacementRequest = PlacementRequest(cpu: int, memoryBytes: int)

  predicate ValidHost(h: HostPlacementCandidate) {
    h.allocatableCpu > 0 && h.allocatableMemoryBytes > 0
  }

  predicate CpuFits(h: HostPlacementCandidate, request: PlacementRequest) {
    h.allocatableCpu - h.reservedCpu >= request.cpu
  }

  predicate MemoryFits(h: HostPlacementCandidate, request: PlacementRequest) {
    h.allocatableMemoryBytes - h.reservedMemoryBytes >= request.memoryBytes
  }

  predicate Feasible(h: HostPlacementCandidate, request: PlacementRequest) {
    CpuFits(h, request) && MemoryFits(h, request)
  }

  /** The larger reserved share of the two resources. */
  function DominantShare(h: HostPlacementCandidate): real {
    if ValidHost(h) then
      var cpu := h.reservedCpu as real / h.allocatableCpu as real;
      var memory := h.reservedMemoryBytes as real / h.allocatableMemoryBytes as real;
      if cpu >= memory then cpu else memory
    else 0.0
  }

  /** Neither resource is reserved to a larger share, and one of them to exactly this. */
  lemma DominantShareIsLargest(h: HostPlacementCandidate)
    requires ValidHost(h)
    ensures h.reservedCpu as real <= DominantShare(h) * h.allocatableCpu as real
    ensures h.reservedMemoryBytes as real <= DominantShare(h) * h.allocatableMemoryBytes as real
    ensures h.reservedCpu as real == DominantShare(h) * h.allocatableCpu as real ||
            h.reservedMemoryBytes as real == DominantShare(h) * h.allocatableMemoryBytes as real
  {
    var cpu, memory := h.reservedCpu as real / h.allocatableCpu as real, h.reservedMemoryBytes as real / h.allocatableMemoryBytes as real;
    assert cpu * h.allocatableCpu as real == h.reservedCpu as real;
    assert memory * h.allocatableMemoryBytes as real == h.reservedMemoryBytes as real;
    var share := DominantShare(h);
    Larger(cpu, share, h.allocatableCpu as real);
    Larger(memory, share, h.allocatableMemoryBytes as real);
  }

  lemma Larger(a: real, b: real, c: real)
    requires a <= b && c > 0.0
    ensures a * c <= b * c
  {
  }

  predicate LoadedAtMost(a: HostPlacementCandidate, b: HostPlacementCandidate) {
    DominantShare(a) < DominantShare(b) || (DominantShare(a) == DominantShare(b) && a.id <= b.id)
  }

  function FeasibleHosts(candidates: seq<HostPlacementCandidate>, request: PlacementRequest)
    : (r: seq<HostPlacementCandidate>)
    ensures forall h :: h in r <==> h in candidates && Feasible(h, request)
  {
    if candidates == [] then []
    else
      var n := |candidates| - 1;
      assert candidates == candidates[..n] + [candidates[n]];
      FeasibleHosts(candidates[..n], request) + if Feasible(candidates[n], request) then [candidates[n]] else []
  }

  lemma LoadIsTotalPreorder()
    ensures TotalPreorder((a: HostPlacementCandidate, b: HostPlacementCandidate) => LoadedAtMost(a, b))
  {
  }

  /** Nothing only if no host fits; otherwise the feasible host with the least dominant share, by id on ties. */
  function SelectExecutionHost(candidates: seq<HostPlacementCandidate>, request: PlacementRequest)
    : (selected: Option<HostPlacementCandidate>)
    ensures selected.None? <==> forall h | h in candidates :: !Feasible(h, request)
    ensures selected.Some? ==> selected.value in candidates && Feasible(selected.value, request)
    ensures selected.Some? ==>
              forall h | h in candidates && Feasible(h, request) :: LoadedAtMost(selected.value, h)
  {
    var feasible := FeasibleHosts(candidates, request);
    var order := (a: HostPlacementCandidate, b: HostPlacementCandidate) => LoadedAtMost(a, b);
    LoadIsTotalPreorder();
    var sorted := SortBy(feasible, order);
    SameMembers(sorted, feasible);
    assert sorted != [] ==> sorted[0] in sorted;
    assert sorted == [] ==> forall h :: h !in feasible;
    if sorted == [] then None else Some(sorted[0])
  }

  /** The choice does not depend on the order of the candidates. */
  lemma SelectionIgnoresOrder(a: seq<HostPlacementCandidate>, b: seq<HostPlacementCandidate>, request: PlacementRequest)
    requires forall h :: h in a <==> h in b
    requires forall g, h :: g in a && h in a && g.id == h.id ==> g == h
    ensures SelectExecutionHost(a, request) == SelectExecutionHost(b, request)
  {
    var x, y := SelectExecutionHost(a, request), SelectExecutionHost(b, request);
    if x.Some? {
      assert x.value in b && y.Some?;
      assert LoadedAtMost(x.value, y.value) && LoadedAtMost(y.value, x.value);
    }
  }

  datatype PlacementBlockCause =
    | NoOnlineHost | InsufficientCpu | InsufficientMemory | InsufficientResources
    | GroupMaximumReached | PlacementConflict

  /** The cause names the resource that no host has, or says that no host has both. */
  function ClassifyPlacementBlock(candidates: seq<HostPlacementCandidate>, requested: PlacementRequest)
    : (cause: PlacementBlockCause)
    ensures cause == NoOnlineHost <==> candidates == []
    ensures cause == PlacementConflict <==> exists h | h in candidates :: Feasible(h, requested)
    ensures cause == InsufficientCpu <==>
              candidates != [] && (forall h | h in candidates :: !CpuFits(h, requested)) &&
              exists h | h in candidates :: MemoryFits(h, requested)
    ensures cause == InsufficientMemory <==>
              candidates != [] && (forall h | h in candidates :: !MemoryFits(h, requested)) &&
              exists h | h in candidates :: CpuFits(h, requested)
    ensures cause != GroupMaximumReached
  {
    if |candidates| == 0 then NoOnlineHost
    else
      assert candidates[0] in candidates;
      var cpuFits := exists h | h in candidates :: CpuFits(h, requested);
      var memoryFits := exists h | h in candidates :: MemoryFits(h, requested);
      var jointFit := exists h | h in candidates :: Feasible(h, requested);
      if jointFit then PlacementConflict
      else if !cpuFits && !memoryFits then InsufficientResources
      else if !cpuFits then InsufficientCpu
      else if !memoryFits then InsufficientMemory
      else InsufficientResources
  }
}
