/**
 Joining and leaving the queue (orchestrator/src/services/queue-service.ts):
 each transaction, statement by statement, is one protocol step.
 */
module QueueService {
  import opened Basics
  import opened ProfileRanking
  import opened Lifecycles
  import opened Tables
  import opened Protocol
  import opened MatchmakingSafety
  import opened Matchmaker

  datatype Refusal = NotDistinct | GroupUnavailable | PartyTooLarge | DifferentMembers | AlreadyMatchmaking

  datatype Response = Accepted(entry: EntryId, state: EntryState) | Rejected(reason: Refusal)

  ghost predicate ValidPlayers(players: seq<PlayerId>) {
    players != [] && Distinct(players)
  }

  lemma {:induction false} DistinctCount(players: seq<PlayerId>)
    ensures |Elements(players)| <= |players|
    ensures |Elements(players)| == |players| <==> Distinct(players)
  {
    if players != [] {
      var n := |players| - 1;
      DistinctCount(players[..n]);
      assert players == players[..n] + [players[n]];
      assert Elements(players) == Elements(players[..n]) + {players[n]};
      if players[n] in players[..n] {
        var i :| 0 <= i < n && players[i] == players[n];
      } else {
        assert forall i | 0 <= i < n :: players[i] in players[..n];
      }
    }
  }

  predicate QueuedParty(db: Db, e: EntryId, group: GroupId, party: PartyId) {
    e in db.entries && db.entries[e].state == EntryQueued && db.entries[e].group == group && db.entries[e].party == party
  }

  predicate ActiveParty(db: Db, e: EntryId, group: GroupId, party: PartyId) {
    ActiveEntry(db, e) && db.entries[e].group == group && db.entries[e].party == party
  }

  /** Who is behind an entry: the queued players, or those of the ticket that have not left. */
  function PlayersBehind(db: Db, e: EntryId): set<PlayerId> {
    if e !in db.entries then {}
    else if db.entries[e].state == EntrySelected && db.entries[e].session.Some? && db.entries[e].session.value in db.sessions
    then Ticket(db.sessions[db.entries[e].session.value].members, e)
    else db.entries[e].players
  }

  /** The request itself is in order. */
  ghost predicate IsAcceptable(db: Db, group: GroupId, players: seq<PlayerId>) {
    ValidPlayers(players) && group in db.policies && |players| <= db.policies[group].teamSize
  }

  /** The youngest of some entries, in a list of entries from the youngest on. */
  ghost predicate IsYoungest(recent: seq<EntryId>, candidates: set<EntryId>, e: EntryId) {
    exists k :: 0 <= k < |recent| && recent[k] == e && e in candidates && forall j | 0 <= j < k :: recent[j] !in candidates
  }

  class Service {
    var db: Db

    constructor (tables: Db)
      ensures db == tables
    {
      db := tables;
    }

    /** The entry a query ordered by state finds first: a queued one if there is any. */
    method FindEntry(candidates: set<EntryId>) returns (found: Option<EntryId>)
      requires candidates <= db.entries.Keys
      ensures found.None? <==> candidates == {}
      ensures found.Some? ==> found.value in candidates
      ensures found.Some? && db.entries[found.value].state != EntryQueued ==>
                forall e | e in candidates :: db.entries[e].state != EntryQueued
    {
      var queued := set e | e in candidates && db.entries[e].state == EntryQueued;
      if queued != {} {
        var e := Pick(queued);
        return Some(e);
      }
      assert forall e | e in candidates :: db.entries[e].state == EntryQueued ==> e in queued;
      if candidates == {} {
        return None;
      }
      var e := Pick(candidates);
      return Some(e);
    }

    method FirstIn(recent: seq<EntryId>, candidates: set<EntryId>) returns (found: Option<EntryId>)
      requires candidates <= Elements(recent)
      ensures found.None? <==> candidates == {}
      ensures found.Some? ==> IsYoungest(recent, candidates, found.value)
    {
      for k := 0 to |recent|
        invariant forall j | 0 <= j < k :: recent[j] !in candidates
      {
        if recent[k] in candidates {
          return Some(recent[k]);
        }
      }
      return None;
    }

    /** The same query, with the youngest entry first among those of one state. */
    method FindYoungest(recent: seq<EntryId>, candidates: set<EntryId>) returns (found: Option<EntryId>)
      requires candidates <= db.entries.Keys && db.entries.Keys <= Elements(recent)
      ensures found.None? <==> candidates == {}
      ensures found.Some? ==> found.value in candidates
      ensures found.Some? && db.entries[found.value].state != EntryQueued ==>
                IsYoungest(recent, candidates, found.value) && forall e | e in candidates :: db.entries[e].state != EntryQueued
    {
      var queued := set e | e in candidates && db.entries[e].state == EntryQueued;
      if queued != {} {
        found := FirstIn(recent, queued);
      } else {
        assert forall e | e in candidates :: db.entries[e].state == EntryQueued ==> e in queued;
        found := FirstIn(recent, candidates);
      }
    }

    /** The players' conflicts, one query after the other. */
    method FindConflict(players: seq<PlayerId>) returns (busy: bool)
      ensures busy <==> exists p :: p in players && Busy(db, p)
    {
      for i := 0 to |players|
        invariant forall j | 0 <= j < i :: !Busy(db, players[j])
      {
        var p := players[i];
        var queueConflicts := set e | e in db.entries && QueuedWith(db, e, p);
        var sessionConflicts := set s | s in db.sessions && PlaysIn(db, s, p);
        if queueConflicts != {} || sessionConflicts != {} {
          assert Busy(db, p) by {
            if queueConflicts != {} {
              var e := Witness(queueConflicts);
              assert QueuedWith(db, e, p);
            } else {
              var s := Witness(sessionConflicts);
              assert PlaysIn(db, s, p);
            }
          }
          return true;
        }
        assert !Busy(db, p) by {
          assert forall e :: QueuedWith(db, e, p) ==> e in queueConflicts;
          assert forall s :: PlaysIn(db, s, p) ==> s in sessionConflicts;
        }
      }
      return false;
    }

    /**
     A party is queued exactly when the protocol allows it. A retry finds the entry of
     the same members instead of a second one, be it queued or selected; `found` is the
     entry that it is compared with, the youngest if none is queued. What is out of order
     is refused for its reason. `recent` lists the entries from the youngest on.
     */
    method Enqueue(e: EntryId, group: GroupId, party: PartyId, players: seq<PlayerId>, recent: seq<EntryId>)
      returns (response: Response, ghost found: Option<EntryId>)
      requires e !in db.entries && Elements(recent) == db.entries.Keys
      modifies this
      ensures db == if ValidPlayers(players) then Protocol.Enqueue(old(db), e, group, party, Elements(players)) else old(db)
      ensures ValidPlayers(players) && CanEnqueue(old(db), e, group, party, Elements(players)) <==> response == Accepted(e, EntryQueued)
      ensures response.Accepted? && response.entry != e ==>
                ActiveParty(old(db), response.entry, group, party) &&
                old(db).entries[response.entry].state == response.state &&
                Elements(players) == PlayersBehind(old(db), response.entry)
      ensures QueuedOnce(old(db)) ==>
                forall f | QueuedParty(old(db), f, group, party) && IsAcceptable(old(db), group, players) ::
                  response == if old(db).entries[f].players == Elements(players)
                    then Accepted(f, EntryQueued) else Rejected(DifferentMembers)
      ensures !IsAcceptable(old(db), group, players) ==>
                response == Rejected(if !ValidPlayers(players) then NotDistinct
                                     else if group !in old(db).policies then GroupUnavailable else PartyTooLarge)
      ensures IsAcceptable(old(db), group, players) ==>
                (found.None? <==> forall f :: !ActiveParty(old(db), f, group, party)) &&
                (found.Some? ==> ActiveParty(old(db), found.value, group, party))
      ensures IsAcceptable(old(db), group, players) && found.Some? && (forall f :: !QueuedParty(old(db), f, group, party)) ==>
                IsYoungest(recent, (set f | f in old(db).entries && ActiveParty(old(db), f, group, party)), found.value)
      ensures IsAcceptable(old(db), group, players) && (forall f :: !QueuedParty(old(db), f, group, party)) ==>
                response ==
                  if found.Some? && PlayersBehind(old(db), found.value) == Elements(players)
                  then Accepted(found.value, EntrySelected)
                  else if exists p :: p in players && Busy(old(db), p) then Rejected(AlreadyMatchmaking)
                  else Accepted(e, EntryQueued)
      ensures IsAcceptable(old(db), group, players) ==>
                forall f | ActiveParty(old(db), f, group, party) && PlayersBehind(old(db), f) == Elements(players) &&
                           (forall g | ActiveParty(old(db), g, group, party) :: g == f) ::
                  response == Accepted(f, old(db).entries[f].state) && db == old(db)
    {
      found := None;
      DistinctCount(players);
      if |players| == 0 || |Elements(players)| != |players| {
        return Rejected(NotDistinct), found;
      }
      if group !in db.policies {
        return Rejected(GroupUnavailable), found;
      }
      if |players| > db.policies[group].teamSize {
        return Rejected(PartyTooLarge), found;
      }
      var candidates := set f | f in db.entries && ActiveParty(db, f, group, party);
      var entry := FindYoungest(recent, candidates);
      found := entry;
      assert forall f :: ActiveParty(db, f, group, party) <==> f in candidates;
      if entry.Some? {
        var existing := entry.value;
        if db.entries[existing].state == EntryQueued {
          assert QueuedParty(db, existing, group, party);
          assert QueuedOnce(db) ==> forall f | QueuedParty(db, f, group, party) :: f == existing;
          if db.entries[existing].players == Elements(players) {
            return Accepted(existing, EntryQueued), found;
          }
          return Rejected(DifferentMembers), found;
        }
        var s := db.entries[existing].session.value;
        forall f ensures !QueuedParty(db, f, group, party) {
          assert QueuedParty(db, f, group, party) ==> f in candidates;
        }
        if Ticket(db.sessions[s].members, existing) == Elements(players) {
          TicketIsBusy(db, existing, s, players);
          return Accepted(existing, EntrySelected), found;
        }
      }
      forall f ensures !QueuedParty(db, f, group, party) {
        assert QueuedParty(db, f, group, party) ==> f in candidates;
      }
      var busy := FindConflict(players);
      if busy {
        return Rejected(AlreadyMatchmaking), found;
      }
      forall f | f in db.entries
        ensures !(db.entries[f].state == EntryQueued && db.entries[f].group == group && db.entries[f].party == party)
      {
        assert QueuedParty(db, f, group, party) ==> f in candidates;
      }
      db := PutEntry(db, e, Entry(group, party, Elements(players), EntryQueued, None, false));
      return Accepted(e, EntryQueued), found;
    }

    /** Whole tickets leave until their first transfer; afterwards the request is refused. */
    method LeaveParty(group: GroupId, party: PartyId) returns (left: bool, ghost found: Option<EntryId>)
      requires RowsOk(db)
      modifies this
      ensures found.None? ==> left && db == old(db) && forall e :: !ActiveParty(old(db), e, group, party)
      ensures found.Some? ==>
                ActiveParty(old(db), found.value, group, party) && left == !old(db).entries[found.value].transferStarted &&
                db == Protocol.LeaveParty(old(db), found.value)
      ensures found.Some? && (exists e :: QueuedParty(old(db), e, group, party)) ==> QueuedParty(old(db), found.value, group, party)
    {
      var candidates := set e | e in db.entries && ActiveParty(db, e, group, party);
      var entry := FindEntry(candidates);
      assert forall e :: QueuedParty(db, e, group, party) ==> e in candidates;
      if entry.None? {
        assert forall e :: ActiveParty(db, e, group, party) ==> e in candidates;
        return true, None;
      }
      if db.entries[entry.value].transferStarted {
        return false, entry;
      }
      CancelTicket(entry.value);
      return true, entry;
    }

    method CancelTicket(e: EntryId)
      requires RowsOk(db) && e in db.entries
      modifies this
      ensures db == Protocol.CancelTicket(old(db), e)
    {
      ghost var start := db;
      var entry := db.entries[e];
      db := PutEntry(db, e, entry.(state := EntryLeft));
      if entry.session.None? || entry.session.value !in db.sessions {
        return;
      }
      var s := entry.session.value;
      assert RowOk(start, s);
      var changed := Ticket(db.sessions[s].members, e);
      if changed == {} {
        return;
      }
      db := PutSession(db, s, db.sessions[s].(members := MarkLeft(db.sessions[s].members, changed)));
      var session := db.sessions[s];
      var policy := db.policies[session.group];
      ghost var ids;
      var sizes: seq<int>;
      sizes, ids := LoadTicketSizes(session.members);
      SizesCountPlayers(session.members, ids);
      var playerCount := Sum(sizes);
      var recommended := Recommend(sizes, policy.teamCount, policy.teamSize);
      EligibleMatches(session.members, ids, recommended, policy);
      var eligible := playerCount >= policy.minimumPlayers &&
        IsProfileEligible(recommended, policy.minimumPlayersPerTeam, policy.maximumTeamSpread);
      db := PutSession(db, s, Bump(session.(state :=
        if playerCount == 0 then Cancelled
        else if session.state == WaitingForInstance && !eligible then Forming
        else session.state)));
      assert playerCount == 0 <==> Active(session.members) == {};
      assert db.sessions == Protocol.CancelTicket(start, e).sessions;
    }

    /** Marks the player LEFT in every open session, and bumps the revision of the first changed one. */
    method LeaveSessions(p: PlayerId) returns (ghost first: SessionId)
      modifies this
      ensures db == LeaveAlone(old(db), p, first)
      ensures (exists s :: PlaysIn(old(db), s, p)) ==> PlaysIn(old(db), first, p)
    {
      var changed := set s | s in db.sessions && PlaysIn(db, s, p);
      db := db.(sessions := map s | s in db.sessions ::
        if s in changed then db.sessions[s].(members := MarkLeft(db.sessions[s].members, {p})) else db.sessions[s]);
      first := 0;
      if changed != {} {
        var s := Pick(changed);
        db := PutSession(db, s, Bump(db.sessions[s]));
        first := s;
      } else {
        assert forall s :: PlaysIn(old(db), s, p) ==> s in changed;
      }
      assert db.sessions == LeaveAlone(old(db), p, first).sessions;
    }

    method NetworkDisconnected(p: PlayerId) returns (ghost found: Option<EntryId>, ghost first: SessionId)
      requires RowsOk(db)
      modifies this
      ensures db == Disconnect(old(db), p, found, first)
      ensures found.None? ==> forall e | ActiveEntry(old(db), e) :: p !in old(db).entries[e].players
      ensures found.Some? ==> ActiveEntry(old(db), found.value) && p in old(db).entries[found.value].players
      ensures found.Some? && (exists e :: QueuedWith(old(db), e, p)) ==> QueuedWith(old(db), found.value, p)
    {
      var candidates := set e | e in db.entries && ActiveEntry(db, e) && p in db.entries[e].players;
      var entry := FindEntry(candidates);
      found, first := entry, 0;
      assert forall e :: QueuedWith(db, e, p) ==> e in candidates;
      if entry.None? {
        forall e | ActiveEntry(db, e) ensures p !in db.entries[e].players {
          assert p in db.entries[e].players ==> e in candidates;
        }
      }
      if entry.Some? && !db.entries[entry.value].transferStarted {
        CancelTicket(entry.value);
        return;
      }
      first := LeaveSessions(p);
    }
  }

  /** The active players of a selected ticket are busy in its session. */
  lemma TicketIsBusy(db: Db, e: EntryId, s: SessionId, players: seq<PlayerId>)
    requires s in db.sessions && !Terminal(db.sessions[s].state) && players != []
    requires Ticket(db.sessions[s].members, e) == Elements(players)
    ensures players[0] in Elements(players) && Busy(db, players[0])
  {
    assert players[0] in Ticket(db.sessions[s].members, e);
    assert PlaysIn(db, s, players[0]);
  }
}
