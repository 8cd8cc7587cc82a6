/**
 Durable delivery of player transfers (orchestrator/src/services/transfer-service.ts):
 receipts and final states are written once, and a tick completes before it expires.
 */
module TransferService {
  import opened Basics

  type CommandId = int
  type PlayerId = int
  type InstanceId = int
  type SessionId = int

  datatype CommandState = Pending | Completed | Expired | Cancelled

  datatype ReceiptState = Awaited | Arrived | Gone

  /** A transfer_commands row with its transfer_command_players. Times are in milliseconds. */
  datatype Command = Command(
    instance: InstanceId,
    session: Option<SessionId>,
    receipts: map<PlayerId, ReceiptState>,
    state: CommandState,
    attempts: int,
    nextAttemptAt: int,
    createdAt: int,
    expiresAt: int
  )

  type Commands = map<CommandId, Command>

  /** Rows seen by the observation queries. */
  datatype Observations = Observations(present: set<(InstanceId, PlayerId)>, left: set<(SessionId, PlayerId)>)

  // ----- What is always true of a row

  /** Exponential, at most half a minute. */
  function BackoffMs(attempts: nat): (r: int)
    ensures 1000 <= r <= 30000 && (attempts >= 1 ==> r >= 2000)
  {
    var exponent := if attempts < 5 then attempts else 5;
    assert exponent >= 1 ==> Power2(exponent) == 2 * Power2(exponent - 1);
    1000 * if Power2(exponent) < 30 then Power2(exponent) else 30
  }

  /** The first failed publication waits a second, each further one twice as long as the one before, up to half a minute. */
  lemma BackoffDoubles(n: nat)
    ensures BackoffMs(0) == 1000 && BackoffMs(n + 1) == Min(30000, 2 * BackoffMs(n))
    ensures BackoffMs(n) == if n <= 4 then 1000 * Power2(n) else 30000
  {
    SmallPowers(if n <= 4 then n else 4);
  }

  lemma SmallPowers(n: nat)
    requires n <= 4
    ensures Power2(n) == (if n == 0 then 1 else if n == 1 then 2 else if n == 2 then 4 else if n == 3 then 8 else 16)
    ensures Power2(n + 1) == 2 * Power2(n) && Power2(5) == 32
  {
    assert Power2(2) == 4 && Power2(3) == 8;
    assert Power2(4) == 16 && Power2(5) == 32;
  }

  predicate Settled(c: Command) {
    forall p | p in c.receipts :: c.receipts[p] != Awaited
  }

  /** Between two attempts lie two seconds, one after a failed first attempt. */
  predicate RowOk(c: Command) {
    && c.attempts >= 0
    && c.nextAttemptAt >= c.createdAt + (if c.attempts == 0 then 0 else 2000 * c.attempts - 1000)
    && 2000 * c.attempts <= c.expiresAt - c.createdAt + 2999
    && c.expiresAt > c.createdAt
    && (c.state == Completed ==> Settled(c))
  }

  ghost predicate RowsOk(commands: Commands) {
    forall c | c in commands :: RowOk(commands[c])
  }

  /** No more than one attempt per second of the timeout, rounded up. */
  lemma AttemptsAreBounded(commands: Commands, id: CommandId, timeout: int)
    requires RowsOk(commands) && id in commands && timeout == commands[id].expiresAt - commands[id].createdAt
    ensures commands[id].attempts <= (timeout + 2999) / 2000 <= (timeout + 999) / 1000
  {
    assert RowOk(commands[id]);
  }

  // ----- What may happen to a row

  /** Receipts leave Awaited once, and a row that is not pending is frozen. */
  predicate RowLater(a: Command, b: Command) {
    && b.receipts.Keys == a.receipts.Keys
    && (forall p | p in a.receipts && a.receipts[p] != Awaited :: b.receipts[p] == a.receipts[p])
    && (a.state != Pending ==> b == a)
    && b.instance == a.instance && b.session == a.session
    && b.createdAt == a.createdAt && b.expiresAt == a.expiresAt
    && a.attempts <= b.attempts
  }

  ghost predicate Later(before: Commands, after: Commands) {
    forall c | c in before :: c in after && RowLater(before[c], after[c])
  }

  lemma LaterThen(a: Commands, b: Commands, c: Commands)
    requires Later(a, b) && Later(b, c)
    ensures Later(a, c)
  {
    forall id | id in a ensures id in c && RowLater(a[id], c[id]) {
      assert RowLater(a[id], b[id]) && RowLater(b[id], c[id]);
    }
  }

  // ----- Observation

  function ObservedReceipt(c: Command, p: PlayerId, seen: Observations): ReceiptState
    requires p in c.receipts
  {
    if c.state != Pending || c.receipts[p] != Awaited then c.receipts[p]
    else if (c.instance, p) in seen.present then Arrived
    else if c.session.Some? && (c.session.value, p) in seen.left then Gone
    else Awaited
  }

  /** Every player of the command arrived or left. */
  predicate FullyObserved(c: Command, seen: Observations) {
    forall p | p in c.receipts :: ObservedReceipt(c, p, seen) != Awaited
  }

  function Observed(c: Command, seen: Observations): Command {
    var now := c.(receipts := map p | p in c.receipts :: ObservedReceipt(c, p, seen));
    if c.state == Pending && FullyObserved(c, seen) then now.(state := Completed) else now
  }

  function MarkArrived(c: Command, seen: Observations): Command {
    c.(receipts := map p | p in c.receipts ::
      if c.receipts[p] == Awaited && c.state == Pending && (c.instance, p) in seen.present then Arrived else c.receipts[p])
  }

  function MarkGone(c: Command, seen: Observations): Command {
    c.(receipts := map p | p in c.receipts ::
      if c.receipts[p] == Awaited && c.state == Pending && c.session.Some? && (c.session.value, p) in seen.left
      then Gone else c.receipts[p])
  }

  function Close(c: Command): Command {
    if c.state == Pending && Settled(c) then c.(state := Completed) else c
  }

  /** The three updates are one observation: arrivals win, and completion sees both. */
  lemma ObservedInSteps(c: Command, seen: Observations)
    ensures Close(MarkGone(MarkArrived(c, seen), seen)) == Observed(c, seen)
    ensures RowLater(c, Observed(c, seen)) && (RowOk(c) ==> RowOk(Observed(c, seen)))
    ensures Observed(c, seen).state == Pending ==> !Settled(Observed(c, seen))
  {
    var marked := MarkGone(MarkArrived(c, seen), seen);
    forall p | p in c.receipts ensures marked.receipts[p] == ObservedReceipt(c, p, seen) {
    }
    assert marked.receipts == map p | p in c.receipts :: ObservedReceipt(c, p, seen);
    if c.state != Pending {
      assert marked.receipts == c.receipts;
    }
  }

  predicate IsDue(c: Command, now: int) {
    c.state == Pending && c.nextAttemptAt <= now < c.expiresAt
  }

  function DueSet(commands: Commands, now: int): set<CommandId> {
    set c | c in commands && IsDue(commands[c], now)
  }

  /** The window of the command still has room for one more attempt. */
  predicate CanTry(c: Command) {
    c.attempts >= 0 && 2000 * (c.attempts + 1) <= c.expiresAt - c.createdAt + 2999
  }

  lemma DueCanTry(c: Command, now: int)
    requires RowOk(c) && IsDue(c, now)
    ensures CanTry(c)
  {
  }

  function Published(c: Command, accepted: bool, now: int): Command
    requires c.attempts >= 0
  {
    if c.state != Pending then c
    else c.(attempts := c.attempts + 1, nextAttemptAt := now + if accepted then 2000 else BackoffMs(c.attempts))
  }

  /** The taken commands are distinct, in order of creation, and none that is left is older. */
  ghost predicate TakenInOrder(commands: Commands, taken: seq<CommandId>, left: set<CommandId>) {
    && (forall i | 0 <= i < |taken| :: taken[i] in commands)
    && (forall i, j :: 0 <= i < j < |taken| ==>
          taken[i] != taken[j] && commands[taken[i]].createdAt <= commands[taken[j]].createdAt)
    && (forall i, c :: 0 <= i < |taken| && c in left && c in commands ==>
          commands[taken[i]].createdAt <= commands[c].createdAt)
  }

  lemma TakenAppend(commands: Commands, taken: seq<CommandId>, left: set<CommandId>, c: CommandId)
    requires TakenInOrder(commands, taken, left) && c in left && c in commands && c !in taken
    requires forall d | d in left && d in commands :: commands[c].createdAt <= commands[d].createdAt
    ensures TakenInOrder(commands, taken + [c], left - {c})
  {
  }

  ghost predicate IsOldest(commands: Commands, due: set<CommandId>, taken: seq<CommandId>, limit: nat) {
    && |taken| <= limit
    && (forall c :: c in taken ==> c in due)
    && TakenInOrder(commands, taken, due - (set c | c in taken))
    && (|taken| < limit ==> forall c :: c in due ==> c in taken)
  }

  /** How long the n-th attempt waits for the next one. */
  ghost function WaitAfter(n: nat, accepted: bool): int
    requires n > 0
  {
    if accepted then 2000 else if n <= 5 then 1000 * Power2(n - 1) else 30000
  }

  /** A command published at this time is tried once more; nothing but its attempts and next time changes. */
  ghost predicate Tried(before: Command, after: Command, accepted: bool, at: int) {
    && before.state == Pending && before.attempts >= 0
    && after == before.(attempts := before.attempts + 1, nextAttemptAt := at + WaitAfter(before.attempts + 1, accepted))
  }

  /** These commands were tried one after the other, a pause before each; nothing happened to the others. */
  ghost predicate TriedInTurn(
      before: Commands, after: Commands, due: seq<CommandId>, accepted: CommandId -> bool, at: int, pause: nat)
  {
    && after.Keys == before.Keys && (forall i | 0 <= i < |due| :: due[i] in before)
    && (forall c | c in before && c !in due :: after[c] == before[c])
    && forall i | 0 <= i < |due| :: Tried(before[due[i]], after[due[i]], accepted(due[i]), at + (i + 1) * pause)
  }

  lemma NextIsTried(
      before: Commands, mid: Commands, after: Commands, due: seq<CommandId>, n: nat, accepted: CommandId -> bool, at: int,
      pause: nat)
    requires n < |due| && Distinct(due) && due[n] in before && TriedInTurn(before, mid, due[..n], accepted, at, pause)
    requires after.Keys == before.Keys && forall c | c in before && c != due[n] :: after[c] == mid[c]
    requires Tried(mid[due[n]], after[due[n]], accepted(due[n]), at + (n + 1) * pause)
    ensures TriedInTurn(before, after, due[..n + 1], accepted, at, pause)
  {
    var some, more := due[..n], due[..n + 1];
    assert more == some + [due[n]] && due[n] !in some;
    forall i | 0 <= i < |more|
      ensures more[i] in before && Tried(before[more[i]], after[more[i]], accepted(more[i]), at + (i + 1) * pause)
    {
      if i < n {
        assert more[i] == some[i] && some[i] in some;
      }
    }
  }

  lemma TriedIsLater(
      before: Commands, after: Commands, due: seq<CommandId>, accepted: CommandId -> bool, at: int, pause: nat)
    requires TriedInTurn(before, after, due, accepted, at, pause)
    ensures Later(before, after)
  {
    forall c | c in before ensures RowLater(before[c], after[c]) {
      if c in due {
        var i :| 0 <= i < |due| && due[i] == c;
        assert Tried(before[due[i]], after[due[i]], accepted(due[i]), at + (i + 1) * pause);
      }
    }
  }

  method PickOldest(commands: Commands, left: set<CommandId>) returns (oldest: CommandId)
    requires left != {} && left <= commands.Keys
    ensures oldest in left && forall c | c in left :: commands[oldest].createdAt <= commands[c].createdAt
  {
    oldest := Pick(left);
    var rest := left - {oldest};
    while rest != {}
      invariant rest <= left && oldest in left && oldest !in rest
      invariant forall c | c in left - rest :: commands[oldest].createdAt <= commands[c].createdAt
      decreases |rest|
    {
      var c := Pick(rest);
      if commands[c].createdAt < commands[oldest].createdAt {
        oldest := c;
      }
      rest := rest - {c};
    }
  }

  // ----- All updates of the rows, in any order

  /** The rows, the clock, and what the running tick has selected but not yet published. */
  datatype World = World(commands: Commands, now: int, selected: set<CommandId>)

  /** One statement each: of this service, of the plugin events, and of the services that cancel sessions. */
  datatype Update =
    | Inserts(id: CommandId, instance: InstanceId, session: Option<SessionId>, players: set<PlayerId>, timeoutMs: int)
    | CancelsInstance(instance: InstanceId)
    | CancelsSession(s: SessionId)
    | Arrives(instance: InstanceId, player: PlayerId)
    | MarksArrivals(seen: Observations)
    | MarksDepartures(seen: Observations)
    | Completes
    | Expires
    | Selects(ids: set<CommandId>)
    | Attempts(id: CommandId, accepted: bool)
    | Passes(ms: nat)

  function CancelIf(c: Command, hit: bool): Command {
    if hit && c.state == Pending then c.(state := Cancelled) else c
  }

  function ExpireAt(c: Command, now: int): Command {
    if c.state == Pending && c.expiresAt <= now then c.(state := Expired) else c
  }

  function NewCommand(w: World, instance: InstanceId, session: Option<SessionId>, players: set<PlayerId>, timeoutMs: int): Command {
    Command(instance, session, map p | p in players :: Awaited, Pending, 0, w.now, w.now, w.now + timeoutMs)
  }

  function Updated(c: Command, now: int, u: Update): Command {
    match u
    case CancelsInstance(instance) => CancelIf(c, c.instance == instance)
    case CancelsSession(s) => CancelIf(c, c.session == Some(s))
    case Arrives(instance, player) => MarkArrived(c, Observations({(instance, player)}, {}))
    case MarksArrivals(seen) => MarkArrived(c, seen)
    case MarksDepartures(seen) => MarkGone(c, seen)
    case Completes => Close(c)
    case Expires => ExpireAt(c, now)
    case _ => c
  }

  function Step(w: World, u: Update): World {
    match u
    case Inserts(id, instance, session, players, timeoutMs) =>
      if id in w.commands || timeoutMs <= 0 then w
      else w.(commands := w.commands[id := NewCommand(w, instance, session, players, timeoutMs)])
    case Selects(ids) => if ids <= DueSet(w.commands, w.now) then w.(selected := ids) else w
    case Attempts(id, accepted) =>
      if id in w.selected && id in w.commands && w.commands[id].attempts >= 0
      then w.(commands := w.commands[id := Published(w.commands[id], accepted, w.now)], selected := w.selected - {id})
      else w
    case Passes(ms) => w.(now := w.now + ms)
    case _ => w.(commands := map c | c in w.commands :: Updated(w.commands[c], w.now, u))
  }

  ghost function Run(w: World, updates: seq<Update>): World {
    if updates == [] then w else Step(Run(w, updates[..|updates| - 1]), updates[|updates| - 1])
  }

  /** Selected commands, unless they were decided meanwhile, may be tried once more. */
  ghost predicate WorldOk(w: World) {
    && RowsOk(w.commands)
    && forall c | c in w.selected ::
         c in w.commands && (w.commands[c].state == Pending ==> w.commands[c].nextAttemptAt <= w.now && CanTry(w.commands[c]))
  }

  lemma UpdatedIsLater(c: Command, now: int, u: Update)
    requires RowOk(c)
    ensures RowOk(Updated(c, now, u)) && RowLater(c, Updated(c, now, u))
    ensures var d := Updated(c, now, u);
            d.attempts == c.attempts && d.nextAttemptAt == c.nextAttemptAt && (d.state == Pending ==> c.state == Pending)
  {
    var d := Updated(c, now, u);
    if c.state != Pending {
      assert d.receipts == c.receipts;
    }
  }

  /** Cancelling a session takes its pending commands and no others. */
  lemma CancelledForSession(w: World, s: SessionId, id: CommandId)
    requires id in w.commands
    ensures
      var before, after := w.commands[id], Step(w, CancelsSession(s)).commands[id];
      && (before.session == Some(s) && before.state == Pending ==> after == before.(state := Cancelled))
      && (before.session != Some(s) || before.state != Pending ==> after == before)
  {
  }

  lemma StepIsLater(w: World, u: Update)
    requires WorldOk(w)
    ensures WorldOk(Step(w, u)) && Later(w.commands, Step(w, u).commands)
  {
    match u {
      case Inserts(_, _, _, _, _) =>
      case Selects(ids) =>
        forall c | c in DueSet(w.commands, w.now) ensures CanTry(w.commands[c]) {
          assert RowOk(w.commands[c]);
          DueCanTry(w.commands[c], w.now);
        }
      case Attempts(id, accepted) => AttemptIsLater(w, id, accepted);
      case Passes(_) =>
      case _ =>
        forall c | c in w.commands {
          UpdatedIsLater(w.commands[c], w.now, u);
        }
    }
  }

  lemma AttemptIsLater(w: World, id: CommandId, accepted: bool)
    requires WorldOk(w)
    ensures WorldOk(Step(w, Attempts(id, accepted))) && Later(w.commands, Step(w, Attempts(id, accepted)).commands)
  {
    if id in w.selected {
      assert RowOk(w.commands[id]);
      assert RowOk(Published(w.commands[id], accepted, w.now));
    }
  }

  lemma {:induction false} RunIsLater(w: World, updates: seq<Update>)
    requires WorldOk(w)
    ensures WorldOk(Run(w, updates)) && Later(w.commands, Run(w, updates).commands)
  {
    if updates != [] {
      var n := |updates| - 1;
      RunIsLater(w, updates[..n]);
      StepIsLater(Run(w, updates[..n]), updates[n]);
      LaterThen(w.commands, Run(w, updates[..n]).commands, Run(w, updates).commands);
    }
  }

  lemma {:induction false} RunSplit(w: World, first: seq<Update>, later: seq<Update>)
    ensures Run(w, first + later) == Run(Run(w, first), later)
    decreases |later|
  {
    if later == [] {
      assert first + later == first;
    } else {
      var n := |later| - 1;
      assert (first + later)[..|first + later| - 1] == first + later[..n];
      RunSplit(w, first, later[..n]);
    }
  }

  /**
   However the statements of all services interleave: final states and settled
   receipts stay as they are from any moment of a history to any later one, and
   the number of attempts stays within the bound.
   */
  lemma HistoryIsLater(start: World, first: seq<Update>, later: seq<Update>, id: CommandId)
    requires start.commands == map[] && start.selected == {} && id in Run(start, first).commands
    ensures
      var before, after := Run(start, first).commands, Run(start, first + later).commands;
      && id in after && RowLater(before[id], after[id])
      && after[id].attempts <= (after[id].expiresAt - after[id].createdAt + 2999) / 2000
  {
    RunIsLater(start, first);
    RunSplit(start, first, later);
    RunIsLater(Run(start, first), later);
    var after := Run(start, first + later).commands;
    AttemptsAreBounded(after, id, after[id].expiresAt - after[id].createdAt);
  }

  ghost predicate Reaches(before: World, after: World) {
    exists updates :: Run(before, updates) == after
  }

  lemma ReachesItself(w: World)
    ensures Reaches(w, w)
  {
    assert Run(w, []) == w;
  }

  lemma ReachesNext(before: World, mid: World, u: Update)
    requires Reaches(before, mid)
    ensures Reaches(before, Step(mid, u))
  {
    var updates :| Run(before, updates) == mid;
    assert (updates + [u])[..|updates|] == updates;
    assert Run(before, updates + [u]) == Step(mid, u);
  }

  lemma ReachesThen(before: World, mid: World, after: World)
    requires Reaches(before, mid) && Reaches(mid, after)
    ensures Reaches(before, after)
  {
    var first :| Run(before, first) == mid;
    var later :| Run(mid, later) == after;
    RunSplit(before, first, later);
  }

  /** The three statements of an observation. */
  lemma ObservationReaches(w: World, seen: Observations)
    ensures Reaches(w, w.(commands := map c | c in w.commands :: Observed(w.commands[c], seen)))
  {
    var arrived := Step(w, MarksArrivals(seen));
    var gone := Step(arrived, MarksDepartures(seen));
    ReachesItself(w);
    ReachesNext(w, w, MarksArrivals(seen));
    ReachesNext(w, arrived, MarksDepartures(seen));
    ReachesNext(w, gone, Completes);
    forall c | c in w.commands ensures Step(gone, Completes).commands[c] == Observed(w.commands[c], seen) {
      ObservedInSteps(w.commands[c], seen);
    }
    assert Step(gone, Completes).commands == map c | c in w.commands :: Observed(w.commands[c], seen);
  }

  lemma PublicationReaches(
      start: World, commands: Commands, now: int, due: seq<CommandId>, i: nat, accepted: bool, pause: nat)
    requires i < |due| && Distinct(due)
    requires Reaches(start, World(commands, now, Elements(due[i..])))
    requires due[i] in commands && commands[due[i]].attempts >= 0
    ensures Reaches(start, World(commands[due[i] := Published(commands[due[i]], accepted, now + pause)], now + pause,
                                 Elements(due[i + 1..])))
  {
    var later := World(commands, now + pause, Elements(due[i..]));
    ReachesNext(start, World(commands, now, Elements(due[i..])), Passes(pause));
    ReachesNext(start, later, Attempts(due[i], accepted));
    assert due[i] in due[i..] && due[i..] == [due[i]] + due[i + 1..];
    assert due[i] !in due[i + 1..];
    assert Elements(due[i..]) - {due[i]} == Elements(due[i + 1..]);
  }

  class Service {
    var commands: Commands
    var now: int

    /** Between two calls nothing is selected. */
    function State(): World
      reads this
    {
      World(commands, now, {})
    }

    constructor (now: int)
      ensures commands == map[] && this.now == now && RowsOk(commands)
    {
      commands, this.now := map[], now;
    }

    /** One receipt per distinct player; the deadline counts from the insertion. */
    method Enqueue(id: CommandId, instance: InstanceId, session: Option<SessionId>, players: seq<PlayerId>, timeoutMs: int)
      requires RowsOk(commands) && id !in commands && timeoutMs > 0
      modifies this`commands
      ensures RowsOk(commands) && Later(old(commands), commands)
      ensures State() == Step(old(State()), Inserts(id, instance, session, Elements(players), timeoutMs))
      ensures id in commands && commands == old(commands)[id := commands[id]]
      ensures commands[id].receipts.Keys == (set p | p in players)
      ensures commands[id].state == Pending && commands[id].attempts == 0 && commands[id].createdAt == now
      ensures commands[id].expiresAt == now + timeoutMs && IsDue(commands[id], now)
    {
      commands := commands[id :=
        Command(instance, session, map p | p in players :: Awaited, Pending, 0, now, now, now + timeoutMs)];
      assert commands[id].receipts == NewCommand(old(State()), instance, session, Elements(players), timeoutMs).receipts;
    }

    /** Every pending command to the instance is cancelled, and nothing else happens. */
    method CancelForInstance(instance: InstanceId)
      requires RowsOk(commands)
      modifies this`commands
      ensures RowsOk(commands) && Later(old(commands), commands) && commands.Keys == old(commands).Keys
      ensures forall c | c in commands :: commands[c] ==
                if old(commands)[c].instance == instance && old(commands)[c].state == Pending
                then old(commands)[c].(state := Cancelled) else old(commands)[c]
      ensures State() == Step(old(State()), CancelsInstance(instance))
    {
      commands := map c | c in commands ::
        if commands[c].instance == instance && commands[c].state == Pending
        then commands[c].(state := Cancelled) else commands[c];
      ghost var cancelled := Step(old(State()), CancelsInstance(instance)).commands;
      forall c | c in commands ensures commands[c] == cancelled[c] {
      }
      SameMap(commands, cancelled);
    }

    /** Arrivals, then departures, then completion: three updates. */
    method CompleteObservedTransfers(seen: Observations)
      requires RowsOk(commands)
      modifies this`commands
      ensures RowsOk(commands) && Later(old(commands), commands) && commands.Keys == old(commands).Keys
      ensures forall c | c in commands :: commands[c] == Observed(old(commands)[c], seen)
      ensures forall c | c in commands && commands[c].state == Pending :: !Settled(commands[c])
    {
      forall c | c in commands
        ensures Close(MarkGone(MarkArrived(commands[c], seen), seen)) == Observed(commands[c], seen)
        ensures RowLater(commands[c], Observed(commands[c], seen)) && RowOk(Observed(commands[c], seen))
        ensures Observed(commands[c], seen).state == Pending ==> !Settled(Observed(commands[c], seen))
      {
        ObservedInSteps(commands[c], seen);
      }
      commands := map c | c in commands :: MarkArrived(commands[c], seen);
      commands := map c | c in commands :: MarkGone(commands[c], seen);
      commands := map c | c in commands :: Close(commands[c]);
    }

    method ExpireTransfers()
      requires RowsOk(commands)
      modifies this`commands
      ensures RowsOk(commands) && Later(old(commands), commands) && commands.Keys == old(commands).Keys
      ensures forall c | c in commands :: commands[c] ==
                if old(commands)[c].state == Pending && old(commands)[c].expiresAt <= now
                then old(commands)[c].(state := Expired) else old(commands)[c]
      ensures State() == Step(old(State()), Expires)
    {
      commands := map c | c in commands ::
        if commands[c].state == Pending && commands[c].expiresAt <= now
        then commands[c].(state := Expired) else commands[c];
      ghost var expired := Step(old(State()), Expires).commands;
      forall c | c in commands ensures commands[c] == expired[c] {
      }
      SameMap(commands, expired);
    }

    /** ORDER BY created_at LIMIT: none that is left out is older than one that is taken. */
    method SelectDue(limit: nat) returns (due: seq<CommandId>)
      ensures IsOldest(commands, DueSet(commands, now), due, limit)
    {
      due := [];
      var left := DueSet(commands, now);
      while left != {} && |due| < limit
        invariant left <= DueSet(commands, now) && |due| <= limit
        invariant TakenInOrder(commands, due, left) && forall c :: c in due <==> c in DueSet(commands, now) - left
        decreases |left|
      {
        var c := PickOldest(commands, left);
        assert c !in due;
        TakenAppend(commands, due, left, c);
        due := due + [c];
        left := left - {c};
      }
    }

    /** One publication, acknowledged or not, counts as an attempt of a command that is still pending. */
    method Publish(id: CommandId, accepted: bool)
      requires RowsOk(commands) && id in commands
      requires commands[id].state == Pending ==>
                 commands[id].nextAttemptAt <= now && CanTry(commands[id])
      modifies this`commands
      ensures RowsOk(commands) && Later(old(commands), commands)
      ensures commands == old(commands)[id := Published(old(commands)[id], accepted, now)]
      ensures old(commands)[id].state != Pending ==> commands == old(commands)
      ensures old(commands)[id].state == Pending ==>
                Tried(old(commands)[id], commands[id], accepted, now)
    {
      if commands[id].attempts >= 0 {
        BackoffDoubles(commands[id].attempts);
      }
      if commands[id].state == Pending {
        var attempts := commands[id].attempts;
        if accepted {
          commands := commands[id := commands[id].(attempts := attempts + 1, nextAttemptAt := now + 2000)];
        } else {
          commands := commands[id := commands[id].(attempts := attempts + 1, nextAttemptAt := now + BackoffMs(attempts))];
        }
      } else {
        assert commands == commands[id := commands[id]];
      }
    }

    /** Due commands are published one after the other while time passes. */
    method PublishAll(due: seq<CommandId>, accepted: CommandId -> bool, pause: nat)
      requires RowsOk(commands)
      requires Distinct(due)
      requires forall c :: c in due ==> c in DueSet(commands, now)
      modifies this
      ensures RowsOk(commands) && Later(old(commands), commands) && old(now) <= now
      ensures TriedInTurn(old(commands), commands, due, accepted, old(now), pause)
      ensures Reaches(World(old(commands), old(now), Elements(due)), State())
    {
      ghost var ready := commands;
      ReachesItself(World(ready, now, Elements(due)));
      assert due[0..] == due;
      for i := 0 to |due|
        invariant RowsOk(commands) && now == old(now) + i * pause && old(now) <= now
        invariant TriedInTurn(ready, commands, due[..i], accepted, old(now), pause)
        invariant Reaches(World(ready, old(now), Elements(due)), World(commands, now, Elements(due[i..])))
      {
        now := now + pause;
        ghost var before := commands;
        var id := due[i];
        assert id in due && id !in due[..i];
        DueCanTry(ready[id], old(now));
        Publish(id, accepted(id));
        PublicationReaches(World(ready, old(now), Elements(due)), before, now - pause, due, i, accepted(id), pause);
        assert (i + 1) * pause == i * pause + pause;
        NextIsTried(ready, before, commands, due, i, accepted, old(now), pause);
      }
      assert due[..|due|] == due;
      TriedIsLater(ready, commands, due, accepted, old(now), pause);
      assert Elements(due[|due|..]) == {};
    }

    /** What is pending is completed if it was observed, else expired if it is past its deadline. */
    method Settle(seen: Observations, pause: nat)
      requires RowsOk(commands)
      modifies this
      ensures RowsOk(commands) && Later(old(commands), commands) && old(now) <= now
      ensures commands.Keys == old(commands).Keys
      ensures forall c | c in commands && old(commands)[c].state == Pending && FullyObserved(old(commands)[c], seen) ::
                commands[c].state == Completed
      ensures forall c | c in commands && commands[c].state == Pending :: commands[c].expiresAt > old(now)
      ensures Reaches(old(State()), State())
    {
      ghost var start, before := commands, State();
      CompleteObservedTransfers(seen);
      ghost var observed := commands;
      ReachesItself(before);
      ObservationReaches(before, seen);
      ghost var seenNow := map c | c in start :: Observed(start[c], seen);
      forall c | c in commands ensures commands[c] == seenNow[c] {
      }
      SameMap(commands, seenNow);
      ReachesNext(before, State(), Passes(pause));
      now := now + pause;
      ReachesNext(before, State(), Expires);
      ExpireTransfers();
      LaterThen(start, observed, commands);
    }

    /**
     One tick. Observation precedes expiry; the clock may advance by `pause` before
     each statement, and `accepted` says which publications succeed.
     */
    method Tick(seen: Observations, accepted: CommandId -> bool, pause: nat)
      returns (published: seq<CommandId>, ghost ready: Commands, ghost at: int)
      requires RowsOk(commands)
      modifies this
      ensures RowsOk(commands) && Later(old(commands), commands) && old(now) <= at <= now
      ensures forall c | c in old(commands) && old(commands)[c].state == Pending && FullyObserved(old(commands)[c], seen) ::
                c in commands && commands[c].state == Completed
      ensures forall c | c in commands && commands[c].state == Pending :: commands[c].expiresAt > old(now)
      ensures Later(old(commands), ready) && IsOldest(ready, DueSet(ready, at), published, 100)
      ensures TriedInTurn(ready, commands, published, accepted, at, pause)
      ensures Reaches(old(State()), State())
    {
      ghost var before := State();
      Settle(seen, pause);
      ReachesNext(before, State(), Passes(pause));
      now := now + pause;
      ready, at := commands, now;
      published := SelectDue(100);
      ghost var chosen := Elements(published);
      ReachesNext(before, State(), Selects(chosen));
      PublishAll(published, accepted, pause);
      ReachesThen(before, World(ready, at, chosen), State());
      LaterThen(old(commands), ready, commands);
    }
  }

  /** A first publication that fails, and then one as soon as each is due. */
  function Earliest(c: Command, n: nat): (r: Command)
    requires c.attempts == 0
    ensures r.attempts == if c.state == Pending then n else 0
  {
    if n == 0 then c
    else
      var before := Earliest(c, n - 1);
      Published(before, n > 1, before.nextAttemptAt)
  }

  /** The bound on attempts is reached: until then every attempt is due at its time. */
  lemma {:induction false} AttemptBoundIsReached(c: Command, n: nat)
    requires RowOk(c) && c.state == Pending && c.attempts == 0 && c.nextAttemptAt == c.createdAt
    requires n < (c.expiresAt - c.createdAt + 2999) / 2000
    ensures var before := Earliest(c, n); IsDue(before, before.nextAttemptAt) && Earliest(c, n + 1).attempts == n + 1
    ensures Earliest(c, n).nextAttemptAt == c.createdAt + if n == 0 then 0 else 2000 * n - 1000
    ensures Earliest(c, n) == c.(attempts := n, nextAttemptAt := Earliest(c, n).nextAttemptAt)
  {
    if n > 0 {
      AttemptBoundIsReached(c, n - 1);
      assert Power2(0) == 1 && BackoffMs(0) == 1000;
    }
  }

  /** The rows when the n-th attempt has just been made at its time. */
  ghost function AfterAttempts(c: Command, id: CommandId, n: nat): World
    requires c.attempts == 0
  {
    World(map[id := Earliest(c, n)], if n == 0 then c.createdAt else Earliest(c, n - 1).nextAttemptAt, {})
  }

  /** One more attempt: time passes until it is due, a tick selects the command and publishes it. */
  lemma NextAttemptFollows(start: World, c: Command, id: CommandId, n: nat)
    requires RowOk(c) && c.state == Pending && c.attempts == 0 && c.nextAttemptAt == c.createdAt
    requires n < (c.expiresAt - c.createdAt + 2999) / 2000 && Reaches(start, AfterAttempts(c, id, n))
    ensures Reaches(start, AfterAttempts(c, id, n + 1))
  {
    AttemptBoundIsReached(c, n);
    if n > 0 {
      AttemptBoundIsReached(c, n - 1);
    }
    var w, row := AfterAttempts(c, id, n), Earliest(c, n);
    var due := w.(now := row.nextAttemptAt);
    ReachesNext(start, w, Passes(row.nextAttemptAt - w.now));
    assert id in DueSet(due.commands, due.now);
    ReachesNext(start, due, Selects({id}));
    var selected := due.(selected := {id});
    ReachesNext(start, selected, Attempts(id, n > 0));
    assert selected.commands[id := Earliest(c, n + 1)] == map[id := Earliest(c, n + 1)];
  }

  lemma {:induction false} AttemptsFollow(start: World, c: Command, id: CommandId, n: nat)
    requires RowOk(c) && c.state == Pending && c.attempts == 0 && c.nextAttemptAt == c.createdAt
    requires n <= (c.expiresAt - c.createdAt + 2999) / 2000 && Reaches(start, AfterAttempts(c, id, 0))
    ensures Reaches(start, AfterAttempts(c, id, n))
  {
    if n > 0 {
      AttemptsFollow(start, c, id, n - 1);
      NextAttemptFollows(start, c, id, n - 1);
    }
  }

  /** A run of the service from empty tables makes as many attempts as the bound allows. */
  lemma BoundIsReachedByARun(start: World, id: CommandId, instance: InstanceId, players: set<PlayerId>, timeoutMs: int)
    returns (updates: seq<Update>)
    requires start.commands == map[] && start.selected == {} && timeoutMs > 0
    ensures var commands := Run(start, updates).commands;
            id in commands && commands[id].expiresAt - commands[id].createdAt == timeoutMs &&
            commands[id].attempts == (timeoutMs + 2999) / 2000
  {
    var c := NewCommand(start, instance, None, players, timeoutMs);
    var n := (timeoutMs + 2999) / 2000;
    ReachesItself(start);
    ReachesNext(start, start, Inserts(id, instance, None, players, timeoutMs));
    assert Step(start, Inserts(id, instance, None, players, timeoutMs)) == AfterAttempts(c, id, 0);
    AttemptsFollow(start, c, id, n);
    AttemptBoundIsReached(c, n - 1);
    updates :| Run(start, updates) == AfterAttempts(c, id, n);
  }
}
