/**
 Routing connected players to hubs as a sequence of transactions
 (orchestrator/src/services/hub-router.ts). Whatever the order of transfers,
 arrivals, departures and settled receipts, a hub that is filled by routed
 transfers only never promises more seats than it has.
 */
module HubTransfers {
  import opened Basics
  import opened HubRouting

  /** A PENDING receipt of a transfer command that is PENDING and not expired. */
  datatype Receipt = Receipt(command: nat, hub: TargetId, player: PlayerId)

  function PlayersOn(connected: set<(TargetId, PlayerId)>, hub: TargetId): set<(TargetId, PlayerId)> {
    set c | c in connected && c.0 == hub
  }

  function Promised(receipts: set<Receipt>, hub: TargetId): set<Receipt> {
    set r | r in receipts && r.hub == hub
  }

  /** Players connected to the hub plus players it still waits for. */
  function Occupancy(connected: set<(TargetId, PlayerId)>, receipts: set<Receipt>, hub: TargetId): int {
    |PlayersOn(connected, hub)| + |Promised(receipts, hub)|
  }

  ghost predicate DistinctIds(targets: seq<Target>) {
    forall i, j :: 0 <= i < j < |targets| ==> targets[i].id != targets[j].id
  }

  ghost function TargetIds(targets: seq<Target>): set<TargetId> {
    set i | 0 <= i < |targets| :: targets[i].id
  }

  lemma TargetIdsAppend(targets: seq<Target>, t: Target)
    ensures TargetIds(targets + [t]) == TargetIds(targets) + {t.id}
  {
    var all := targets + [t];
    forall id | id in TargetIds(targets) + {t.id} ensures id in TargetIds(all) {
      if id == t.id {
        assert all[|targets|].id == id;
      } else {
        var i :| 0 <= i < |targets| && targets[i].id == id;
        assert all[i].id == id;
      }
    }
  }

  // ----- Reading the greedy decision

  lemma {:induction false} SentCount(players: seq<PlayerId>, choice: seq<int>, targets: seq<Target>, t: nat)
    requires IsChoice(choice, players, targets) && DistinctIds(targets) && t < |targets|
    ensures |SentTo(players, choice, targets, targets[t].id)| == Given(choice, t)
  {
    if players != [] {
      SentCount(players[..|players| - 1], choice[..|players| - 1], targets, t);
    }
  }

  lemma {:induction false} SentArePlayers(players: seq<PlayerId>, choice: seq<int>, targets: seq<Target>, id: TargetId)
    requires IsChoice(choice, players, targets) && Distinct(players)
    ensures Distinct(SentTo(players, choice, targets, id))
    ensures forall p | p in SentTo(players, choice, targets, id) :: p in players
  {
    if players != [] {
      var n := |players| - 1;
      SentArePlayers(players[..n], choice[..n], targets, id);
      assert players[n] !in players[..n];
    }
  }

  lemma {:induction false} EveryoneIsDecided(players: seq<PlayerId>, choice: seq<int>, targets: seq<Target>, p: PlayerId)
    requires IsChoice(choice, players, targets) && Distinct(players) && p in players
    ensures p in Refused(players, choice) <==>
            !exists t :: 0 <= t < |targets| && p in SentTo(players, choice, targets, targets[t].id)
  {
    var n := |players| - 1;
    if p == players[n] {
      assert p !in players[..n];
      RefusedArePlayers(players[..n], choice[..n]);
      forall t | 0 <= t < |targets| {
        SentArePlayers(players[..n], choice[..n], targets, targets[t].id);
      }
      if choice[n] != REJECTED {
        assert p in SentTo(players, choice, targets, targets[choice[n]].id);
      }
    } else {
      assert p in players[..n];
      EveryoneIsDecided(players[..n], choice[..n], targets, p);
      assert forall t | 0 <= t < |targets| ::
          p in SentTo(players, choice, targets, targets[t].id) <==>
          p in SentTo(players[..n], choice[..n], targets, targets[t].id);
    }
  }

  lemma {:induction false} RefusedArePlayers(players: seq<PlayerId>, choice: seq<int>)
    requires |players| == |choice|
    ensures forall p | p in Refused(players, choice) :: p in players
  {
    if players != [] {
      RefusedArePlayers(players[..|players| - 1], choice[..|players| - 1]);
    }
  }

  lemma RefusedMeansFull(players: seq<PlayerId>, choice: seq<int>, targets: seq<Target>)
    requires IsChoice(choice, players, targets) && SeatsWell(targets, choice, |players|)
    requires Refused(players, choice) != []
    ensures GivenAll(choice, |targets|) == FreeSeats(targets)
  {
    var seats, free := GivenAll(choice, |targets|), FreeSeats(targets);
    SeatedPlusRefused(players, choice, targets);
    SameWhenNothingRaised(free, seats);
  }

  // ----- Counting receipts

  function NewReceipts(command: nat, hub: TargetId, players: seq<PlayerId>): set<Receipt> {
    set p | p in players :: Receipt(command, hub, p)
  }

  lemma {:induction false} NewReceiptsCount(command: nat, hub: TargetId, players: seq<PlayerId>)
    requires Distinct(players)
    ensures |NewReceipts(command, hub, players)| == |players|
  {
    if players == [] {
      assert NewReceipts(command, hub, players) == {};
    } else {
      var n := |players| - 1;
      NewReceiptsCount(command, hub, players[..n]);
      assert players == players[..n] + [players[n]];
      assert players[n] !in players[..n];
      assert NewReceipts(command, hub, players) ==
             NewReceipts(command, hub, players[..n]) + {Receipt(command, hub, players[n])};
    }
  }

  /** A fresh command adds its players to its own hub and to no other. */
  lemma EnqueueOccupancy(
      connected: set<(TargetId, PlayerId)>, receipts: set<Receipt>, command: nat, hub: TargetId, players: seq<PlayerId>, h: TargetId)
    requires Distinct(players)
    requires forall r | r in receipts :: r.command < command
    ensures Occupancy(connected, receipts + NewReceipts(command, hub, players), h) ==
            Occupancy(connected, receipts, h) + if h == hub then |players| else 0
  {
    var added := NewReceipts(command, hub, players);
    NewReceiptsCount(command, hub, players);
    if h == hub {
      assert Promised(receipts + added, h) == Promised(receipts, h) + added;
      assert Promised(receipts, h) !! added;
    } else {
      assert Promised(receipts + added, h) == Promised(receipts, h);
    }
  }

  // ----- Order

  /** Whoever comes first among these ids was requested first. */
  ghost predicate InOrderOf(ids: seq<PlayerId>, requested: seq<PlayerId>) {
    forall i, j, k | 0 <= i < j < |ids| && 0 <= k < |requested| && requested[k] == ids[j] :: ids[i] in requested[..k]
  }

  lemma OrderAppend(ids: seq<PlayerId>, requested: seq<PlayerId>, k: nat)
    requires k < |requested| && InOrderOf(ids, requested[..k])
    requires forall p | p in ids :: p in requested[..k]
    ensures InOrderOf(ids, requested[..k + 1])
    ensures requested[k] !in requested[..k] ==> InOrderOf(ids + [requested[k]], requested[..k + 1])
  {
    var shorter, longer := requested[..k], requested[..k + 1];
    assert longer[..k] == shorter;
    forall q | 0 <= q < |ids| ensures ids[q] in shorter {
      var p := ids[q];
      assert p in ids && p in shorter;
    }
    assert forall q | 0 <= q < k :: longer[q] == shorter[q] && shorter[q] in shorter;
    forall i, j, m | 0 <= i < j < |ids| && 0 <= m < |longer| && longer[m] == ids[j] ensures ids[i] in longer[..m] {
      if m < k {
        assert shorter[m] == ids[j] && shorter[..m] == longer[..m];
      }
    }
    if requested[k] !in shorter {
      var more := ids + [requested[k]];
      forall i, j, m | 0 <= i < j < |more| && 0 <= m < |longer| && longer[m] == more[j] ensures more[i] in longer[..m] {
        if j < |ids| {
          assert ids[j] == more[j];
        } else {
          assert m == k && more[i] == ids[i];
        }
      }
    }
  }

  lemma OrderThen(kept: seq<PlayerId>, ids: seq<PlayerId>, requested: seq<PlayerId>)
    requires InOrderOf(kept, ids) && InOrderOf(ids, requested) && forall p | p in kept :: p in ids
    ensures InOrderOf(kept, requested)
  {
    forall i, j, k | 0 <= i < j < |kept| && 0 <= k < |requested| && requested[k] == kept[j] ensures kept[i] in requested[..k] {
      assert kept[j] in ids;
      var b :| 0 <= b < |ids| && ids[b] == kept[j];
      assert kept[i] in ids[..b];
      var a :| 0 <= a < b && ids[a] == kept[i];
    }
  }

  /** The new receipts are those of the players that the choice sends to the hub. */
  ghost predicate ReceiptsFollow(
      added: set<Receipt>, players: seq<PlayerId>, choice: seq<int>, targets: seq<Target>)
    requires IsChoice(choice, players, targets)
  {
    && (forall r | r in added :: r.player in SentTo(players, choice, targets, r.hub))
    && forall h, p | p in SentTo(players, choice, targets, h) :: exists r :: r in added && r.hub == h && r.player == p
  }

  class HubRouter {
    var connected: set<(TargetId, PlayerId)>
    var receipts: set<Receipt>
    /** Enabled hubs that are RUNNING, OPEN and on an available host. */
    var routable: set<TargetId>
    const maximumPlayers: map<TargetId, nat>
    var nextCommand: nat

    /** No hub promises more seats than it has. */
    ghost predicate Valid()
      reads this
    {
      && routable <= maximumPlayers.Keys
      && (forall r | r in receipts :: r.command < nextCommand)
      && forall h | h in maximumPlayers :: Occupancy(connected, receipts, h) <= maximumPlayers[h]
    }

    constructor (maximumPlayers: map<TargetId, nat>)
      ensures Valid() && this.maximumPlayers == maximumPlayers
      ensures connected == {} && receipts == {} && routable == {}
    {
      this.maximumPlayers := maximumPlayers;
      connected, receipts, routable, nextCommand := {}, {}, {}, 0;
      new;
      forall h | h in maximumPlayers ensures Occupancy(connected, receipts, h) == 0 {
        assert PlayersOn({}, h) == {} && Promised({}, h) == {};
      }
    }

    /** The player is on a routable hub or durably on the way to one. */
    predicate Placed(p: PlayerId)
      reads this
    {
      || (exists h | h in routable :: (h, p) in connected)
      || (exists r | r in receipts :: r.player == p && r.hub in routable)
    }

    ghost predicate CurrentTarget(t: Target)
      reads this
    {
      && t.id in maximumPlayers && t.maximumPlayers == maximumPlayers[t.id]
      && t.effectiveLoad == Occupancy(connected, receipts, t.id)
    }

    method LoadTargets(source: TargetId) returns (targets: seq<Target>)
      requires Valid()
      ensures DistinctIds(targets) && TargetIds(targets) == routable - {source}
      ensures forall i | 0 <= i < |targets| :: CurrentTarget(targets[i])
    {
      targets := [];
      var left := routable - {source};
      while left != {}
        invariant left <= routable - {source}
        invariant DistinctIds(targets) && TargetIds(targets) == routable - {source} - left
        invariant forall i | 0 <= i < |targets| :: CurrentTarget(targets[i])
        decreases |left|
      {
        var h := Pick(left);
        assert forall i | 0 <= i < |targets| :: targets[i].id in TargetIds(targets);
        TargetIdsAppend(targets, Target(h, Occupancy(connected, receipts, h), maximumPlayers[h]));
        targets := targets + [Target(h, Occupancy(connected, receipts, h), maximumPlayers[h])];
        left := left - {h};
      }
    }

    /** A new durable command with one PENDING receipt per player. */
    method Enqueue(hub: TargetId, players: seq<PlayerId>)
      requires Distinct(players)
      requires forall r | r in receipts :: r.command < nextCommand
      modifies this`receipts, this`nextCommand
      ensures receipts == old(receipts) + NewReceipts(old(nextCommand), hub, players)
      ensures nextCommand == old(nextCommand) + 1
      ensures forall h :: Occupancy(connected, receipts, h) ==
                Occupancy(connected, old(receipts), h) + if h == hub then |players| else 0
    {
      forall h {
        EnqueueOccupancy(connected, receipts, nextCommand, hub, players, h);
      }
      receipts := receipts + NewReceipts(nextCommand, hub, players);
      nextCommand := nextCommand + 1;
    }

    /** Requested ids once each, in request order; models the Set built from the request. */
    method Deduplicate(requested: seq<PlayerId>) returns (ids: seq<PlayerId>)
      ensures Distinct(ids) && InOrderOf(ids, requested) && forall p :: p in ids <==> p in requested
    {
      ids := [];
      for i := 0 to |requested|
        invariant Distinct(ids) && InOrderOf(ids, requested[..i]) && forall p :: p in ids <==> p in requested[..i]
      {
        OrderAppend(ids, requested, i);
        if requested[i] !in ids {
          ids := ids + [requested[i]];
        }
        assert requested[..i + 1] == requested[..i] + [requested[i]];
      }
      assert requested[..|requested|] == requested;
    }

    /** Keeps the ids in (or not in) a set, in order. */
    method Select(ids: seq<PlayerId>, wanted: set<PlayerId>) returns (kept: seq<PlayerId>, dropped: seq<PlayerId>)
      requires Distinct(ids)
      ensures Distinct(kept) && Distinct(dropped) && InOrderOf(kept, ids) && InOrderOf(dropped, ids)
      ensures forall p :: p in kept <==> p in ids && p in wanted
      ensures forall p :: p in dropped <==> p in ids && p !in wanted
    {
      kept, dropped := [], [];
      for i := 0 to |ids|
        invariant Distinct(kept) && Distinct(dropped) && InOrderOf(kept, ids[..i]) && InOrderOf(dropped, ids[..i])
        invariant forall p :: p in kept <==> p in ids[..i] && p in wanted
        invariant forall p :: p in dropped <==> p in ids[..i] && p !in wanted
      {
        assert ids[i] !in ids[..i];
        OrderAppend(kept, ids, i);
        OrderAppend(dropped, ids, i);
        if ids[i] in wanted {
          kept := kept + [ids[i]];
        } else {
          dropped := dropped + [ids[i]];
        }
        assert ids[..i + 1] == ids[..i] + [ids[i]];
      }
      assert ids[..|ids|] == ids;
    }

    /** One durable command per target of the decision. */
    method EnqueueAll(assignments: map<TargetId, seq<PlayerId>>)
      requires forall r | r in receipts :: r.command < nextCommand
      requires forall h | h in assignments :: Distinct(assignments[h])
      modifies this`receipts, this`nextCommand
      ensures old(receipts) <= receipts && forall r | r in receipts :: r.command < nextCommand
      ensures forall h, p | h in assignments && p in assignments[h] ::
                exists r :: r in receipts - old(receipts) && r.hub == h && r.player == p
      ensures forall r | r in receipts - old(receipts) :: r.hub in assignments && r.player in assignments[r.hub]
      ensures forall h :: Occupancy(connected, receipts, h) ==
                Occupancy(connected, old(receipts), h) + if h in assignments then |assignments[h]| else 0
    {
      var left := assignments.Keys;
      while left != {}
        invariant left <= assignments.Keys
        invariant old(receipts) <= receipts && forall r | r in receipts :: r.command < nextCommand
        invariant forall h, p | h in assignments && h !in left && p in assignments[h] ::
                    exists r :: r in receipts - old(receipts) && r.hub == h && r.player == p
        invariant nextCommand >= old(nextCommand)
        invariant forall r | r in receipts - old(receipts) :: r.hub in assignments && r.player in assignments[r.hub]
        invariant forall h :: Occupancy(connected, receipts, h) ==
                    Occupancy(connected, old(receipts), h) + if h in assignments && h !in left then |assignments[h]| else 0
        decreases |left|
      {
        var h := Pick(left);
        ghost var command := nextCommand;
        Enqueue(h, assignments[h]);
        assert forall p | p in assignments[h] :: Receipt(command, h, p) in receipts;
        left := left - {h};
      }
    }

    /** Spreads the players over the other hubs by the greedy rule; refuses only when those are all full. */
    method Route(source: TargetId, playersToRoute: seq<PlayerId>)
      returns (sent: set<PlayerId>, ghost targets: seq<Target>, ghost choice: seq<int>)
      requires Valid() && Distinct(playersToRoute)
      modifies this`receipts, this`nextCommand
      ensures Valid() && old(receipts) <= receipts
      ensures forall p | p in sent :: p in playersToRoute &&
                exists r :: r in receipts && r.player == p && r.hub in routable - {source}
      ensures forall r | r in receipts - old(receipts) :: r.player in sent && r.hub in routable - {source}
      ensures (exists p :: p in playersToRoute && p !in sent) ==>
                forall h | h in routable - {source} :: Occupancy(connected, receipts, h) == maximumPlayers[h]
      ensures DistinctIds(targets) && TargetIds(targets) == routable - {source}
      ensures forall i | 0 <= i < |targets| :: old(CurrentTarget(targets[i]))
      ensures IsChoice(choice, playersToRoute, targets) && Greedy(targets, choice)
      ensures ReceiptsFollow(receipts - old(receipts), playersToRoute, choice, targets)
      ensures forall p :: p in sent <==> p in playersToRoute && p !in Refused(playersToRoute, choice)
    {
      var candidates := LoadTargets(source);
      targets := candidates;
      var decision;
      decision, choice := AllocateHubPlayers(playersToRoute, candidates);
      DecisionShape(decision, playersToRoute, choice, candidates);
      EnqueueAll(decision.assignments);
      SeatsAreCounted(decision, choice, candidates, old(receipts));
      sent := set h, p | h in decision.assignments && p in decision.assignments[h] :: p;
      forall p | p in playersToRoute && p !in sent ensures decision.rejectedPlayers != [] {
        assert p in decision.rejectedPlayers;
      }
    }

    /** After the commands are stored every target is at its greedy load. */
    lemma SeatsAreCounted(decision: Decision, choice: seq<int>, targets: seq<Target>, before: set<Receipt>)
      requires routable <= maximumPlayers.Keys && decision.assignments.Keys <= TargetIds(targets)
      requires forall i | 0 <= i < |targets| ::
                 targets[i].id in maximumPlayers && targets[i].maximumPlayers == maximumPlayers[targets[i].id] &&
                 targets[i].effectiveLoad == Occupancy(connected, before, targets[i].id)
      requires forall h :: Occupancy(connected, receipts, h) ==
                 Occupancy(connected, before, h) + if h in decision.assignments then |decision.assignments[h]| else 0
      requires forall t | 0 <= t < |targets| ::
                 (if targets[t].id in decision.assignments then |decision.assignments[targets[t].id]| else 0) ==
                 Given(choice, t) <= FreeSeats(targets)[t]
      requires forall h | h in maximumPlayers :: Occupancy(connected, before, h) <= maximumPlayers[h]
      ensures forall h | h in maximumPlayers :: Occupancy(connected, receipts, h) <= maximumPlayers[h]
      ensures (forall t | 0 <= t < |targets| :: Given(choice, t) == FreeSeats(targets)[t]) ==>
                forall h | h in TargetIds(targets) :: Occupancy(connected, receipts, h) == maximumPlayers[h]
    {
      forall h | h in TargetIds(targets)
        ensures Occupancy(connected, receipts, h) <= maximumPlayers[h]
        ensures (forall t | 0 <= t < |targets| :: Given(choice, t) == FreeSeats(targets)[t]) ==>
                  Occupancy(connected, receipts, h) == maximumPlayers[h]
      {
        var t :| 0 <= t < |targets| && targets[t].id == h;
        assert FreeSeats(targets)[t] == maximumPlayers[h] - Occupancy(connected, before, h);
      }
    }

    /**
     Routes the requested players that are connected at the source. Every
     request is answered; players already on a hub, or already on the way to
     one, get no second command; the others are spread by the greedy rule and
     refused only when every other hub is full.
     */
    method TransferPlayers(source: TargetId, requested: seq<PlayerId>)
      returns (acceptedPlayers: seq<PlayerId>, rejectedPlayers: seq<PlayerId>,
               ghost routed: seq<PlayerId>, ghost targets: seq<Target>, ghost choice: seq<int>)
      requires Valid()
      modifies this`receipts, this`nextCommand
      ensures Valid() && old(receipts) <= receipts
      ensures Distinct(acceptedPlayers) && Distinct(rejectedPlayers)
      ensures forall p :: p in requested <==> p in acceptedPlayers || p in rejectedPlayers
      ensures forall p :: !(p in acceptedPlayers && p in rejectedPlayers)
      ensures forall p | p in acceptedPlayers :: (source, p) in connected && Placed(p)
      ensures forall r | r in receipts - old(receipts) ::
                r.player in acceptedPlayers && !old(Placed(r.player)) && r.hub in routable - {source}
      ensures forall p | p in rejectedPlayers ::
                (source, p) !in connected ||
                forall h | h in routable - {source} :: Occupancy(connected, receipts, h) == maximumPlayers[h]
      ensures InOrderOf(acceptedPlayers, requested) && InOrderOf(routed, requested) && Distinct(routed)
      ensures forall p :: p in routed <==>
                p in requested && (source, p) in connected && (forall h | h in routable :: (h, p) !in connected) &&
                forall r | r in old(receipts) && r.player == p :: r.hub !in routable
      ensures DistinctIds(targets) && TargetIds(targets) == routable - {source}
      ensures forall i | 0 <= i < |targets| :: old(CurrentTarget(targets[i]))
      ensures IsChoice(choice, routed, targets) && Greedy(targets, choice)
      ensures ReceiptsFollow(receipts - old(receipts), routed, choice, targets)
      ensures forall p | p in requested && (source, p) in connected ::
                p in rejectedPlayers <==> p in routed && p in Refused(routed, choice)
    {
      var playerIds := Deduplicate(requested);
      var connectedIds := set c | c in connected && c.0 == source :: c.1;
      assert forall p :: p in connectedIds <==> (source, p) in connected;
      var acceptedIds := set p | p in connectedIds && Placed(p);
      var here, absent := Select(playerIds, connectedIds);
      var settled, playersToRoute := Select(here, acceptedIds);
      var sent;
      sent, targets, choice := Route(source, playersToRoute);
      routed := playersToRoute;
      acceptedPlayers, rejectedPlayers := Select(playerIds, acceptedIds + sent);
      OrderThen(acceptedPlayers, playerIds, requested);
      OrderThen(here, playerIds, requested);
      OrderThen(routed, here, requested);
    }

    predicate Awaited(hub: TargetId, player: PlayerId)
      reads this
    {
      exists r | r in receipts :: r.hub == hub && r.player == player
    }

    /**
     A hub reports a player. The hub service takes the report as it is, so the
     promise of seats survives exactly when the player was awaited there, was
     there already, or a seat is left.
     */
    method Arrive(hub: TargetId, player: PlayerId)
      requires Valid()
      modifies this`connected, this`receipts
      ensures connected == old(connected) + {(hub, player)}
      ensures receipts == set r | r in old(receipts) && !(r.hub == hub && r.player == player)
      ensures Valid() <==>
                hub !in maximumPlayers || old(Awaited(hub, player)) || (hub, player) in old(connected) ||
                old(Occupancy(connected, receipts, hub)) < maximumPlayers[hub]
    {
      connected := connected + {(hub, player)};
      receipts := set r | r in receipts && !(r.hub == hub && r.player == player);
      forall h | h in maximumPlayers && h != hub ensures Occupancy(connected, receipts, h) <= maximumPlayers[h] {
        assert PlayersOn(connected, h) == PlayersOn(old(connected), h);
        assert Promised(receipts, h) == Promised(old(receipts), h);
      }
      if hub in maximumPlayers {
        ArrivalCount(old(connected), old(receipts), hub, player);
      }
    }

    /** Players leave, and receipts settle, expire or are cancelled, in any combination. */
    method Release(gone: set<(TargetId, PlayerId)>, settled: set<Receipt>)
      requires Valid()
      modifies this`connected, this`receipts
      ensures Valid() && connected == old(connected) - gone && receipts == old(receipts) - settled
    {
      connected, receipts := connected - gone, receipts - settled;
      forall h | h in maximumPlayers ensures Occupancy(connected, receipts, h) <= maximumPlayers[h] {
        SubsetCount(Promised(receipts, h), Promised(old(receipts), h));
        SubsetCount(PlayersOn(connected, h), PlayersOn(old(connected), h));
      }
    }

    /** Hubs become routable or stop being so. */
    method Reroute(now: set<TargetId>)
      requires Valid() && now <= maximumPlayers.Keys
      modifies this`routable
      ensures Valid() && routable == now
    {
      routable := now;
    }
  }

  lemma ArrivalCount(connected: set<(TargetId, PlayerId)>, receipts: set<Receipt>, hub: TargetId, player: PlayerId)
    ensures
      var waiting := set r | r in receipts && !(r.hub == hub && r.player == player);
      var after := Occupancy(connected + {(hub, player)}, waiting, hub);
      var before := Occupancy(connected, receipts, hub);
      if (hub, player) in connected || exists r :: r in receipts && r.hub == hub && r.player == player
      then after <= before else after == before + 1
  {
    var waiting := set r | r in receipts && !(r.hub == hub && r.player == player);
    var there := connected + {(hub, player)};
    assert PlayersOn(there, hub) == PlayersOn(connected, hub) + {(hub, player)};
    SubsetCount(Promised(waiting, hub), Promised(receipts, hub));
    if r :| r in receipts && r.hub == hub && r.player == player {
      assert Promised(waiting, hub) <= Promised(receipts, hub) - {r};
      SubsetCount(Promised(waiting, hub), Promised(receipts, hub) - {r});
    } else {
      assert Promised(waiting, hub) == Promised(receipts, hub);
    }
  }

  lemma {:induction false} SubsetCount<T>(a: set<T>, b: set<T>)
    requires a <= b
    ensures |a| <= |b|
  {
    assert b == a + (b - a);
  }

  /** What the greedy decision means once target ids are distinct. */
  lemma DecisionShape(decision: Decision, players: seq<PlayerId>, choice: seq<int>, targets: seq<Target>)
    requires IsChoice(choice, players, targets) && Records(decision, players, choice, targets)
    requires SeatsWell(targets, choice, |players|)
    requires DistinctIds(targets) && Distinct(players)
    ensures decision.assignments.Keys <= TargetIds(targets)
    ensures forall h | h in decision.assignments ::
              Distinct(decision.assignments[h]) && forall p | p in decision.assignments[h] :: p in players
    ensures forall p | p in players ::
              p in decision.rejectedPlayers <==>
              !exists h :: h in decision.assignments && p in decision.assignments[h]
    ensures forall t | 0 <= t < |targets| ::
              (if targets[t].id in decision.assignments then |decision.assignments[targets[t].id]| else 0) ==
              Given(choice, t) <= FreeSeats(targets)[t]
    ensures decision.rejectedPlayers != [] ==>
              forall t | 0 <= t < |targets| :: Given(choice, t) == FreeSeats(targets)[t]
  {
    forall h | h in decision.assignments
      ensures h in TargetIds(targets)
      ensures Distinct(decision.assignments[h]) && forall p | p in decision.assignments[h] :: p in players
    {
      SentArePlayers(players, choice, targets, h);
      SentHasTarget(players, choice, targets, h);
    }
    forall t | 0 <= t < |targets|
      ensures (if targets[t].id in decision.assignments then |decision.assignments[targets[t].id]| else 0) ==
              Given(choice, t) <= FreeSeats(targets)[t]
    {
      SentCount(players, choice, targets, t);
      assert GivenAll(choice, |targets|)[t] == Given(choice, t);
    }
    forall p | p in players
      ensures p in decision.rejectedPlayers <==>
              !exists h :: h in decision.assignments && p in decision.assignments[h]
    {
      EveryoneIsDecided(players, choice, targets, p);
      if h :| h in decision.assignments && p in decision.assignments[h] {
        SentHasTarget(players, choice, targets, h);
      }
    }
    if decision.rejectedPlayers != [] {
      RefusedMeansFull(players, choice, targets);
      forall t | 0 <= t < |targets| ensures Given(choice, t) == FreeSeats(targets)[t] {
        assert GivenAll(choice, |targets|)[t] == Given(choice, t);
      }
    }
  }

  lemma {:induction false} SentHasTarget(players: seq<PlayerId>, choice: seq<int>, targets: seq<Target>, id: TargetId)
    requires IsChoice(choice, players, targets) && SentTo(players, choice, targets, id) != []
    ensures id in TargetIds(targets)
  {
    var n := |players| - 1;
    if choice[n] == REJECTED || targets[choice[n]].id != id {
      SentHasTarget(players[..n], choice[..n], targets, id);
    }
  }
}
