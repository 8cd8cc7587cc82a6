# EnderCloud orchestrator, verified

EnderCloud runs Minecraft servers: parties queue for minigames, a matchmaker puts
whole parties into sessions, instances are created on execution hosts, and proxies
move players between servers. The orchestrator is written as a set of dense
algorithms over plain values and a set of durable protocols, each a guarded
database transaction. This project models both and proves what they are for.

The algorithms keep their loops. Each protocol transaction is one atomic step over
maps of rows, written twice: as a function of the rows, over which the run theorems
are proved, and as the statements of the service, proved to make that step.
What a query, a clock, a random number or an id generator would supply is a
parameter, so a theorem holds for every value of it.

| file | part of the orchestrator |
|---|---|
| `Basics.dfy` | optional values, sums, sorting |
| `Assignments.dfy` | whole tickets assigned to teams: the specification of the profile search |
| `Matchmaking.dfy` | the search for feasible team profiles |
| `ProfileRanking.dfy` | quality of a profile, eligibility, ranking of sessions |
| `Tables.dfy`, `Protocol.dfy` | lifecycle, rows, steps and invariants of matchmaking |
| `MatchmakingSteps.dfy` | what each step does to players and revisions |
| `ReservationSafety.dfy`, `MatchmakingSafety.dfy` | theorems over all runs, each under exactly the condition it needs |
| `MatchmakingLimits.dfy`, `MatchmakingRuns.dfy` | where these conditions fail, and runs from empty tables that get there |
| `PluginEvents.dfy` | the events of the game servers: which are refused, what the others do, repeated and late ones; the life of a session |
| `MatchmakingEffects.dfy` | what sequences of steps achieve, undo, or make final |
| `Matchmaker.dfy`, `QueueService.dfy`, `SessionController.dfy` | the services statement by statement |
| `HubRouting.dfy`, `HubTransfers.dfy` | balancing players over hubs, and repeated routing |
| `VariantStart.dfy`, `VariantStartController.dfy`, `InstanceStartWorker.dfy` | startup retries, probes, blocking, and the worker |
| `VariantSelection.dfy` | weighted choice of a variant |
| `TransferService.dfy` | delivery of transfer commands |
| `Capacity.dfy`, `HostPlacement.dfy`, `Fleet.dfy` | scaling decisions, host choice, group limits and reservations |
| `IncidentController.dfy` | incidents and the cache of healthy loops |
| `VariantFlow.dfy` | trie and layout of the variant graph |

Seven results say where the code differs from what one would expect:

* With a minimum per team, the eligibility of the recommended profile does not decide
  whether the tickets can be balanced: it does for all tickets and limits exactly with
  at most two teams (`ProfileRanking.BalanceIsDecidedForTwoTeams`), for any number of
  teams with a minimum of at most two players, and for no larger number of teams with
  any minimum of ten or more (`ProfileRanking.MinimumIsDecided`).
* A player marked LEFT is accepted again by a join or a heartbeat. Everything that
  matchmaking promises survives such a return exactly when the player is not queued or
  expected anywhere, the session has a free place, its tickets still fit into the teams
  with the returning player's ticket grown by one, and that ticket was not cancelled
  (`MatchmakingLimits.ReturnIsSafeExactlyWhen`; runs from empty tables to an overfull
  session and to one without a team are `MatchmakingRuns.ReplacedPlayerIsReached` and
  `MatchmakingRuns.SplitPairIsReached`). Each promise is kept over runs under its own
  part of this condition, and a run stays within the whole invariant exactly when every
  return in it is safe (`MatchmakingSafety.RunKeeps`).
* A disconnect takes a player out of every open session but advances the revision of
  one: the revision is a version number exactly as long as no disconnect finds the
  player in two sessions (`MatchmakingSafety.ActionIsFaithful`), which nothing but the
  return of a busy player brings about (`MatchmakingSafety.FreeReturnsKeepTheRevision`)
  and which does come about (`MatchmakingRuns.RevisionFails`).
* A tick of the matchmaker is rolled back, with everything it did for others, exactly
  when the session it chooses for some ticket expects one of its players already
  (`Matchmaker.Service.ProcessGroup`). Only a busy player who came back gets there, and
  one does (`MatchmakingRuns.TickIsRolledBack`).
* Configuration does not compare the team size with the player limit
  (`orchestrator/src/configuration/sync.ts:250-257`). The limit holds in every run
  exactly when one full team fits (`MatchmakingLimits.LimitNeedsTeamToFit`).
* A startup probe whose failure is not counted can leave its revision probing for good:
  when its host goes offline (`VariantStart.StrandingHappens`), or when the process ends
  between the two transactions that write the failure of its create
  (`VariantStart.LostReportStrands`). In every reachable state a revision is in this
  situation exactly when none of its servers is starting, has a create that is carried
  out or can be claimed, or was ready a moment ago, and the failure of the probe cannot be
  counted any more; exactly then no further run, short of a new revision of the
  variant, lets it be attempted again (`VariantStart.StrandedExactlyWhenNothingHelps`).
  A server of the revision that already runs does not help
  (`VariantStart.LosingTheProbeStrands`), nor one whose create waits in the queue
  (`VariantStart.WaitingSiblingDoesNotHelp`).
* A stop of the startup worker is final exactly when, at its recovery, no tick that began
  before it has its claim still ahead: such a tick claims what is waiting by then
  (`InstanceStartWorker.StopIsFinalExactlyWhen`, `InstanceStartWorker.StopIsOvertaken`).

The tables of `orchestrator/src/domain/state-machines.ts:3-24` are not what the
services do (they recover a transferring session to waiting for an instance, finish
a starting one, and stop a creating instance); the model follows the services.

## Model

| member | source | states |
|---|---|---|
| Matchmaking.CompareNumbersLaws | orchestrator/src/domain/matchmaking.ts:29-35 | the number-list comparison is a total order: antisymmetric, transitive, zero only on equal lists |
| Matchmaking.PlaceTicket | orchestrator/src/domain/matchmaking.ts:48-56 | one profile is extended by exactly the sorted results of putting the ticket into a team with room |
| Matchmaking.ExtendProfiles | orchestrator/src/domain/matchmaking.ts:45-58 | one ticket extends the whole list, without duplicates and in strict order |
| Matchmaking.ComputeFeasibleProfiles | orchestrator/src/domain/matchmaking.ts:38-61 | the result lists, once each and in strict order, exactly the sorted load vectors of the assignments of whole tickets to teams within the team size; empty for invalid tickets or team numbers |
| Assignments.AchievableShape | orchestrator/src/domain/matchmaking.ts:38-61 | every feasible profile is sorted, has one load per team between zero and the team size, and adds up to the players |
| Assignments.AssignableHasProfile | orchestrator/src/domain/matchmaking.ts:38-61 | some assignment of the tickets exists exactly when some profile is feasible |
| Assignments.LoadsConserveSize | orchestrator/src/domain/matchmaking.ts:45-58 | the loads of an assignment add up to the ticket sizes |
| Assignments.ProfilesIgnoreTicketOrder | orchestrator/src/domain/matchmaking.ts:45-60 | the feasible profiles do not depend on the order of the tickets |
| Assignments.RemovingTicketKeepsFeasibility | orchestrator/src/services/queue-service.ts:311-330 | tickets stay assignable when one of them leaves |
| Assignments.ShrinkingTicketsKeepsFeasibility | orchestrator/src/services/queue-service.ts:231-260 | tickets stay assignable when members leave them |
| ProfileRanking.QualityIsStrictTotalOrder | orchestrator/src/domain/matchmaking.ts:64-99 | profiles of one length are strictly and totally ordered by quality: equal only when they are the same profile |
| ProfileRanking.SelectRecommendedProfile | orchestrator/src/domain/matchmaking.ts:101-111 | nothing from nothing, otherwise a member that no other member beats |
| ProfileRanking.Recommend | orchestrator/src/services/matchmaker.ts:427-437 | search and selection yield the one best of all achievable profiles, or nothing if there is none |
| ProfileRanking.RecommendationIsUnique | orchestrator/src/domain/matchmaking.ts:89-111 | the recommendation depends on the tickets and not on their order |
| ProfileRanking.RecommendationMinimisesSpread | orchestrator/src/domain/matchmaking.ts:89-111 | no achievable profile has a smaller spread |
| ProfileRanking.EligibilityIsSound | orchestrator/src/domain/matchmaking.ts:113-123 | an eligible recommendation is backed by an assignment within the spread and the minimum per team |
| ProfileRanking.SpreadRefusalIsFinal | orchestrator/src/domain/matchmaking.ts:113-123 | a refusal because of the spread means that no assignment is balanced |
| ProfileRanking.TicketsAreSettled | orchestrator/src/domain/matchmaking.ts:64-111 | no ticket of the recommended profile could move to another team and leave that team smaller than the one it came from |
| ProfileRanking.SmallMinimumIsMet | orchestrator/src/domain/matchmaking.ts:101-123 | if any assignment has one player, or two, in every team, so has the recommendation |
| ProfileRanking.EligibilityIsExact | orchestrator/src/domain/matchmaking.ts:113-123 | with at most two teams, or a minimum of at most two players per team, the recommendation is eligible exactly when some assignment is balanced |
| ProfileRanking.EligibilityIsIncomplete | orchestrator/src/domain/matchmaking.ts:113-123 | for every team count from three and every minimum from ten on, concrete tickets are refused for a spread of three although an assignment meets both |
| ProfileRanking.BalanceIsDecidedForTwoTeams | orchestrator/src/domain/matchmaking.ts:113-123 | for all tickets and all limits, eligibility of the recommendation decides whether balance is possible exactly if there are at most two teams |
| ProfileRanking.MinimumIsDecided | orchestrator/src/domain/matchmaking.ts:113-123 | a minimum of at most two is decided for every number of teams, and one of ten or more exactly for at most two teams |
| ProfileRanking.SinglesAreSplitEvenly | orchestrator/src/domain/matchmaking.ts:101-111 | with single players only, the recommendation is the even split, and exists exactly when they fit |
| ProfileRanking.RankSessionCandidates | orchestrator/src/domain/matchmaking.ts:145-177 | exactly the sessions that can take the ticket whole within the player limit are ranked, each as often as it is given, by the public policy, in order |
| ProfileRanking.RankSession | orchestrator/src/domain/matchmaking.ts:151-168 | a session is ranked exactly when the ticket fits, with its profiles, recommendation and free places |
| ProfileRanking.RankingIsTotalPreorder | orchestrator/src/domain/matchmaking.ts:169-176 | the ranking comparator is total and transitive, so sorting by it is well defined |
| ProfileRanking.FirstIsBestFit | orchestrator/src/domain/matchmaking.ts:169-176 | the first session leaves the fewest free places, and the best profile among those; among these it is the oldest, then the one with the most profiles, then the smallest id |
| ProfileRanking.TiesAreBroken | orchestrator/src/domain/matchmaking.ts:169-176 | of two sessions that fit equally well the older one comes first, then the one with more profiles, then the smaller id |
| Tables.PlanIffAssignable | orchestrator/src/services/matchmaker.ts:277-315 | the counted ticket sizes of a session are assignable exactly when its players can be put into teams, tickets whole |
| Tables.SizesCountPlayers | orchestrator/src/services/matchmaker.ts:277-315 | the ticket sizes of a session add up to its players that have not left |
| Tables.SameTicketsSameSizes | orchestrator/src/services/matchmaker.ts:277-315 | the counted sizes do not depend on the order of the grouped rows, as a multiset |
| MatchmakingSteps.CancelTicketIsCalm | orchestrator/src/services/queue-service.ts:267-347 | a leaving ticket only removes players, reopens nothing, and the revision advances if anyone left |
| MatchmakingSteps.LeavingAloneIsFaithfulExactlyWhen | orchestrator/src/services/queue-service.ts:240-264 | a player who leaves every open session at once changes a session without a new revision exactly when there was a second one |
| MatchmakingSteps.DisconnectIsCalm | orchestrator/src/services/queue-service.ts:201-264 | a disconnect only removes players, and every session whose players changed has a new revision exactly if the player leaves no second session |
| MatchmakingSteps.ExpireTransfersIsCalm | orchestrator/src/services/session-controller.ts:70-94 | expired transfers only remove players, with a new revision for every changed session |
| MatchmakingSafety.ActionKeepsRows | orchestrator/src/services/matchmaker.ts:362-421 | whatever happens, every session member, also one marked LEFT, came with an entry of this session that names the player, sessions have a known group, and acknowledgements are current |
| MatchmakingSafety.ActionKeepsPlaces | orchestrator/src/services/queue-service.ts:120-142 | a step keeps players in one place exactly when nobody it brings back is queued or expected elsewhere |
| MatchmakingSafety.AttachKeepsLimits | orchestrator/src/services/matchmaker.ts:362-421 | a ticket that was given room, or the first one of a new session, stays within the player limit |
| MatchmakingSafety.ActionKeepsLimits | orchestrator/src/services/matchmaker.ts:155-206 | where a team fits, a step keeps the player limit exactly when there is a place for everybody it brings back |
| MatchmakingSafety.AttachKeepsTeams | orchestrator/src/services/matchmaker.ts:362-421 | a ticket that was given room, or the first one of a new session, finds a team with everybody else's tickets whole |
| MatchmakingSafety.ActionKeepsTeams | orchestrator/src/services/matchmaker.ts:155-206 | a step keeps a team for every whole ticket exactly when the tickets it lets grow still fit |
| MatchmakingSafety.ActionKeepsSelections | orchestrator/src/services/queue-service.ts:267-347 | the tickets of expected players stay selected exactly when nobody is brought back to a cancelled one |
| MatchmakingSafety.ActionIsFaithful | orchestrator/src/services/instance-controller.ts:989-1006 | a step gives every session whose players change a new revision exactly when it takes nobody out of two sessions at once |
| ReservationSafety.ReserveKeepsReservations | orchestrator/src/services/matchmaker.ts:480-586 | the reserved instance was free, and afterwards session and instance name each other and nothing else changed hands |
| ReservationSafety.RecoverKeepsReservations | orchestrator/src/services/session-controller.ts:200-280 | a session that gives up its failed instance leaves the reservations consistent |
| MatchmakingSteps.HeartbeatBringsBack | orchestrator/src/services/instance-controller.ts:1170-1234 | a heartbeat adds exactly the reported players marked LEFT to the expected ones, and touches nothing else |
| MatchmakingSteps.HeartbeatIsCalm | orchestrator/src/services/instance-controller.ts:1170-1234 | it leaves everybody's place alone exactly when nobody marked LEFT is reported |
| MatchmakingSteps.GameEventIsCalm | orchestrator/src/services/instance-controller.ts:1255-1477 | starting, finishing and cancelling a game add nobody, reopen nothing, and give changed sessions a new revision |
| PluginEvents.Handler.Handle | orchestrator/src/services/instance-controller.ts:535-575 | an event is accepted exactly when its instance and session belong together and the session is in a state that the event leads out of or leads to; an accepted one does exactly what it means and would be accepted again without doing anything, and one that is refused does nothing |
| PluginEvents.Handler.HeartbeatReported | orchestrator/src/services/instance-controller.ts:1170-1234 | marking the reported players one by one is one step: all of them are marked, and the revision advances once if any row changed |
| PluginEvents.Handler.PlayerEliminated | orchestrator/src/services/instance-controller.ts:1124-1167 | exactly the members of a running game can be eliminated, and they are then no longer expected |
| PluginEvents.Handler.SetSessionState | orchestrator/src/services/instance-controller.ts:1255-1330 | a game starts from the lobby with the connected players only and then runs; a step that is skipped is refused, and one that was made already is accepted without effect |
| PluginEvents.Handler.CancelSession | orchestrator/src/services/instance-controller.ts:1360-1429 | a game is cancelled from its transfer on, and a repeated cancellation tries again to drain the instance |
| PluginEvents.Handler.FinishSession | orchestrator/src/services/instance-controller.ts:1432-1477 | a game that started can finish; then its instance drains |
| PluginEvents.Handler.AcknowledgeAssignment | orchestrator/src/services/instance-controller.ts:989-1006 | an acknowledgement is recorded exactly when it is for the revision the session has |
| PluginEvents.OutcomeMeans | orchestrator/src/services/instance-controller.ts:1009-1234 | what an event does in terms of the expected and the connected players: only the row of its session changes, and a change of either set gives a new revision that nobody acknowledged |
| PluginEvents.RepeatedEvent | orchestrator/src/services/instance-controller.ts:1327-1328 | every accepted event, delivered twice in a row, is accepted twice and happens once |
| PluginEvents.LateGameEvent | orchestrator/src/services/instance-controller.ts:1254-1328 | a game event that was accepted once changes no session when it is delivered again, whatever all services did in between |
| PluginEvents.LateDeparture | orchestrator/src/services/instance-controller.ts:1082-1121 | not so a departure: delivered again after the player came back, it takes the player out once more |
| PluginEvents.StateTurns | orchestrator/src/services/instance-controller.ts:1254-1328 | over all steps of all services a session changes its state only as a table of steps and states says |
| PluginEvents.LifeIsForward | orchestrator/src/services/instance-controller.ts:1254-1477 | through any run a game that began never goes back to its lobby, and a session that is over stays as it ended |
| ReservationSafety.ActionKeepsReservations | orchestrator/src/services/instance-controller.ts:706-843 | so does every other step, whatever the policies are and whoever comes back |
| MatchmakingSafety.ActionKeeps | orchestrator/src/services/session-controller.ts:39-67 | a step of any service keeps the whole invariant exactly when everybody it brings back is brought back safely; the revisions keep their meaning either way |
| MatchmakingSafety.RunKeeps | orchestrator/src/services/matchmaker.ts:120-208 | all states of a run satisfy the invariant exactly when every return in it is safe |
| MatchmakingSafety.OpenSessionsRespectTheLimit | orchestrator/src/services/matchmaker.ts:155-206 | over every run whose returns find a place, and where a team fits, an open session is within its player limit and its ticket sizes add up to its players |
| MatchmakingSafety.OpenSessionsAreFeasible | orchestrator/src/services/matchmaker.ts:155-206 | over every run whose returning tickets fit, whatever the player limit, the tickets of an open session have a team assignment in any order |
| MatchmakingSafety.OnePlacePerPlayer | orchestrator/src/services/queue-service.ts:120-142 | under any policies, no state of a run has a player in two queued entries or open sessions exactly if nobody comes back busy |
| ReservationSafety.ReservationsAreExclusive | orchestrator/src/services/matchmaker.ts:480-544 | after every run at most one live instance names a session, a session's instance names it back and is of its group, and no session that looks for an instance is named by a live one |
| ReservationSafety.SessionIsWrittenOnce | orchestrator/src/services/session-controller.ts:200-280 | the session of an instance, once written, is never changed by any run |
| MatchmakingSafety.RevisionIsAVersion | orchestrator/src/services/instance-controller.ts:989-1006 | between two states of a run the same revision means the same expected and connected players, and revisions never decrease, as long as no disconnect finds a player in two sessions |
| MatchmakingSafety.FreeReturnsKeepTheRevision | orchestrator/src/services/queue-service.ts:201-264 | no disconnect does, as long as nobody comes back busy |
| MatchmakingRuns.RevisionFails | orchestrator/src/services/queue-service.ts:201-264 | a run from empty tables after which any disconnect of the player, whichever entry it finds and session it bumps, changes a session at an unchanged revision |
| MatchmakingSafety.AcknowledgementsAreCurrent | orchestrator/src/services/instance-controller.ts:989-1006 | after every run an acknowledgement is of the current revision |
| MatchmakingEffects.LeavingUndoesSeating | orchestrator/src/services/queue-service.ts:166-198 | a ticket that is seated and leaves before its transfer leaves every ticket, place and row as before, two revisions later, and the session is cancelled exactly if nobody else was in it |
| MatchmakingEffects.LeavingUndoesQueueing | orchestrator/src/services/queue-service.ts:166-198 | leaving after queueing restores everything but the entry itself, and nobody is busy who was not |
| MatchmakingEffects.NoWayBack | orchestrator/src/services/queue-service.ts:194-195 | once its transfer started a ticket can never again leave as a party, through any run |
| MatchmakingEffects.PlayersTravelToInstances | orchestrator/src/services/matchmaker.ts:521-626 | over every run nobody is transferring to, or connected in, a session that still looks for an instance |
| MatchmakingEffects.ReservedForGood | orchestrator/src/services/matchmaker.ts:521-586 | after a reservation, through any run, no ticket of the session can leave as a party |
| MatchmakingEffects.RecoveryUndoesReserving | orchestrator/src/services/session-controller.ts:225-264 | losing a reserved instance before anybody connected and recovering gives back the sessions as they were before the reservation, waiting for the next instance |
| MatchmakingEffects.RecoveryCanStartAgain | orchestrator/src/services/session-controller.ts:225-264 | a recovered session keeps its tickets and can reserve any other open instance, with all its players |
| MatchmakingEffects.SeatedInOneSession | orchestrator/src/services/matchmaker.ts:362-421 | the players of a seated ticket are in no other open session and in no queue |
| MatchmakingEffects.PromotionLosesNobody | orchestrator/src/services/session-controller.ts:131-144 | everybody expected has arrived exactly when the game could start now without dropping anybody, and a promotion changes nothing about that start: one written for arrivals counted before loses nobody exactly if they still hold |
| MatchmakingEffects.LateJoinerIsPromoted | orchestrator/src/services/session-controller.ts:97-146 | a ticket that joins between the count and the write is promoted unarrived, and a start drops its players and nobody else |
| MatchmakingEffects.GameStartsWithTheConnected | orchestrator/src/services/instance-controller.ts:1255-1330 | a starting game expects the connected players, and the revision changes exactly if somebody was dropped |
| MatchmakingLimits.LimitNeedsTeamToFit | orchestrator/src/configuration/sync.ts:250-257 | the player limit holds in every run whose returns find a place exactly when a full team fits into a session |
| MatchmakingLimits.ReturnIsSafeExactlyWhen | orchestrator/src/services/instance-controller.ts:1052-1074 | after the return of a player marked LEFT the whole invariant holds exactly when the player is nowhere else, there is a free place, the grown tickets fit into the teams, and the ticket is still selected |
| MatchmakingLimits.ReturnOverfills | orchestrator/src/services/instance-controller.ts:1212-1222 | a concrete state that satisfies the invariant and is overfilled by a heartbeat |
| MatchmakingRuns.ReplacedPlayerIsReached | orchestrator/src/services/instance-controller.ts:1212-1222 | a run from empty tables ends in that state: a player times out and another one takes the place |
| MatchmakingLimits.ReturnSplitsTeams | orchestrator/src/services/instance-controller.ts:1212-1222 | a concrete state in which the returning player is free and finds a place, and the whole tickets of the session no longer fit into the teams |
| MatchmakingRuns.SplitPairIsReached | orchestrator/src/services/instance-controller.ts:1212-1222 | a run from empty tables ends in that one: two pairs travel, one player times out, a third pair takes the room |
| Matchmaker.LoadTicketSizes | orchestrator/src/services/matchmaker.ts:277-297 | the sizes are those of the tickets with players that have not left, each once |
| Matchmaker.EligibleMatches | orchestrator/src/services/matchmaker.ts:423-439 | eligibility of a session does not depend on how its tickets are listed |
| Matchmaker.IsExpectedStartEligible | orchestrator/src/services/matchmaker.ts:423-439 | the computed answer is the eligibility of the players in the rows |
| Matchmaker.RoomInAnyOrder | orchestrator/src/services/matchmaker.ts:342-360 | whether a ticket fits does not depend on how the tickets are listed |
| Matchmaker.SeatsKept | orchestrator/src/services/matchmaker.ts:172-206 | a seated ticket stays seated, whole, through the rest of a tick |
| Matchmaker.BestFitIsFullest | orchestrator/src/services/matchmaker.ts:342-360 | the first-ranked session has at least as many players as any other that fits |
| Matchmaker.OpenThenSeat | orchestrator/src/services/matchmaker.ts:172-199 | a session is opened only for a ticket that fits nowhere, which then goes into it |
| Matchmaker.Service.LoadSessions | orchestrator/src/services/matchmaker.ts:251-325 | every accepting session of the group that is not stale is in the view once, with its row's state and sizes |
| Matchmaker.Service.ChooseSession | orchestrator/src/services/matchmaker.ts:342-360 | a session with room is chosen if there is one: one that no other session with room precedes in the ranking, and so a fullest |
| Matchmaker.Service.ReserveInstance | orchestrator/src/services/matchmaker.ts:480-519 | the open instance of the group that has run longest is claimed, or there is none |
| Matchmaker.Service.StartSessionTransfers | orchestrator/src/services/matchmaker.ts:521-586 | nobody of the session stays selected, its expected players and its revision are unchanged, and none of its tickets can leave as a party any more |
| Matchmaker.Service.TryAssignInstance | orchestrator/src/services/matchmaker.ts:466-478 | nothing, or the reservation step |
| Matchmaker.Service.AttachParty | orchestrator/src/services/matchmaker.ts:362-421 | the statements of the transaction are the attach step, and fail exactly when the session expects one of the players already |
| Matchmaker.Service.StartTicketTransfer | orchestrator/src/services/matchmaker.ts:588-626 | the statements are the step of a ticket that joins a session with an instance |
| Matchmaker.Service.ResumeWaiting | orchestrator/src/services/matchmaker.ts:131-152 | before the queue, every session that waits for an instance forms again if it cannot start, else gets one unless none is open; afterwards none waits while one is open; every other row and the queue are untouched |
| Matchmaker.Service.DispatchSession | orchestrator/src/services/matchmaker.ts:441-464 | an eligible session gets the open instance that has run longest, or waits because there is none, and the view follows |
| Matchmaker.Service.PlaceParty | orchestrator/src/services/matchmaker.ts:172-206 | one ticket is seated whole in a session with room, or in a new one if none has room; it is refused only by the session chosen for it, which has room, is a fullest one, and expects one of its players |
| Matchmaker.Service.ProcessGroup | orchestrator/src/services/matchmaker.ts:120-208 | a tick seats every ticket of the window whole and in order, each in the session chosen for it, and opens a session only for a ticket that no accepting session could take; it reserves an instance, or waits for one, only for sessions that can start, and lets only those form again that cannot; afterwards no session that got a ticket goes on forming if it can start, tickets of sessions with an instance are on their way, nobody waits while an instance is open, and sessions without a new ticket were at most resumed; it changes nothing if the session chosen for a ticket expects one of its players, and this never happens while everybody is in one place |
| Matchmaker.NoneWaitsAlong | orchestrator/src/services/matchmaker.ts:131-206 | no run of justified steps leaves a session waiting while an instance is open |
| Matchmaker.BegunAlong | orchestrator/src/services/matchmaker.ts:198-206 | a ticket that is on its way stays so, and one that waits is on its way once its session has an instance |
| MatchmakingRuns.TickIsRolledBack | orchestrator/src/services/matchmaker.ts:409-411 | a run from empty tables after which the session chosen for the only queued ticket, the only one that accepts tickets, expects its player already |
| MatchmakingSafety.PartiesAreQueuedOnce | orchestrator/src/services/queue-service.ts:57-100 | in every reachable state a party waits in the queue of a group once |
| QueueService.Service.Enqueue | orchestrator/src/services/queue-service.ts:21-163 | a party is queued exactly when it is valid, not queued and nobody in it is busy; otherwise nothing changes; a retry with the queued members gets their entry, one with other members is refused; if none is queued, a retry with the members of the youngest selected ticket that have not left gets its entry; what is out of order is refused for its reason |
| QueueService.Service.LeaveParty | orchestrator/src/services/queue-service.ts:166-198 | a party leaves whole until its first transfer and is refused afterwards; leaving twice is harmless |
| QueueService.Service.CancelTicket | orchestrator/src/services/queue-service.ts:267-347 | the statements are the cancel step: members leave, an empty session is cancelled, one that is no longer eligible forms again |
| QueueService.Service.NetworkDisconnected | orchestrator/src/services/queue-service.ts:201-264 | the statements are the disconnect step for the entry found, a queued one if there is any |
| SessionController.Controller.ExpireTransfers | orchestrator/src/services/session-controller.ts:70-94 | the statements are the expiry step: exactly the members whose transfer is due leave, and nothing but revisions changes besides |
| SessionController.Controller.ExpirePlayerPresence | orchestrator/src/services/session-controller.ts:149-197 | exactly the connected players whose presence is stale leave the session of the instance, and nothing but revisions changes besides |
| SessionController.Controller.AdvanceWaitingSessions | orchestrator/src/services/session-controller.ts:97-146 | exactly the sessions past their deadline are cancelled, exactly the complete lobbies among the others wait for their game, every other row is unchanged, and only instances of cancelled sessions start to drain |
| SessionController.Controller.Cancel | orchestrator/src/services/session-controller.ts:352-378 | only a session before its start is cancelled, and its instance drains, and no other one |
| SessionController.Controller.RecoverFailedInstances | orchestrator/src/services/session-controller.ts:200-280 | exactly the open sessions that lost their instance wait again, if nobody had connected before the start, or fail; no other row changes |
| SessionController.Controller.ReleaseTerminalReservations | orchestrator/src/services/session-controller.ts:283-301 | exactly the running instances that are reserved for a session that is over start to drain |
| SessionController.Controller.FinishDrainingInstances | orchestrator/src/services/session-controller.ts:304-344 | a run of stops after which every drain that is due is stopped, or stopping if its host failed, and nothing else is touched |
| SessionController.Controller.Tick | orchestrator/src/services/session-controller.ts:39-67 | what each of the six stages makes of the rows before it; over the whole tick a session is cancelled exactly if it is due, and a member leaves exactly if a transfer or a presence of it is; reservations, the invariant and the meaning of revisions are kept |
| SessionController.StagesMean | orchestrator/src/services/session-controller.ts:39-67 | through all stages cancellations and departures are exactly those that were due before the tick |
| HubRouting.AllocateHubPlayers | orchestrator/src/domain/hub-routing.ts:19-52 | every player is recorded once, sent or rejected; each goes to the target with room that has the least load then, and of those to the least id; the seats are levelled and as many as players and free seats allow |
| HubRouting.GreedyIsDetermined | orchestrator/src/domain/hub-routing.ts:28-38 | with different target ids the allocation is determined |
| HubRouting.GreedyIsOptimal | orchestrator/src/domain/hub-routing.ts:19-52 | no allocation seats more players, and none that seats as many has a smaller sum of squared loads |
| HubRouting.LevelledIsOptimal | orchestrator/src/domain/hub-routing.ts:33-41 | a levelled allocation minimises the sum of squares among those that seat as many |
| HubRouting.PlayersAreConserved | orchestrator/src/domain/hub-routing.ts:43-51 | the requested players are exactly those sent and those rejected |
| HubTransfers.HubRouter.TransferPlayers | orchestrator/src/services/hub-router.ts:46-221 | every player is accepted or rejected once; routed are exactly those connected at the source who are neither on a routable hub nor on the way to one, in the order of the request, by the greedy choice over the other hubs and with one receipt each as that choice says; one of them is rejected only when every other hub is full; no hub is promised more players than it holds |
| HubTransfers.HubRouter.Arrive | orchestrator/src/services/instance-controller.ts:1009-1051 | a report keeps the promise exactly when the player was awaited, was there, or a seat is left |
| HubTransfers.HubRouter.Release | orchestrator/src/services/transfer-service.ts:147-241 | departures and settled receipts keep the promise |
| StartupPolicy.DecisionIsExact | orchestrator/src/domain/startup-policy.ts:6-25 | exactly a positive count, a limit and a positive base are decided, and the error names the first one that is not; the n-th failure blocks above the limit and waits base * 2^(n-1) within it |
| StartupPolicy.DelayIsPower | orchestrator/src/domain/startup-policy.ts:21-24 | the delay is the base times a power of two |
| StartupPolicy.DelaysAddUp | orchestrator/src/domain/startup-policy.ts:21-24 | the delays before attempt n + 1 add up to base * (2^n - 1) |
| VariantStart.RunKeeps | orchestrator/src/services/variant-start-controller.ts:56-207 | every run of creates, claims, failures, resets and waiting keeps the policy invariant |
| VariantStart.FailuresAreCountedExactly | orchestrator/src/services/variant-start-controller.ts:90-160 | the failure count is one plus the probes reserved minus one if a probe is out, and a revision that is not being reset is blocked exactly at the limit plus one |
| VariantStart.BlockedNotBefore | orchestrator/src/services/variant-start-controller.ts:122-131 | a revision is blocked no earlier than base * (2^limit - 1) after its first counted failure |
| VariantStart.BlockedAtTheBound | orchestrator/src/services/variant-start-controller.ts:122-131 | a run of claimed creates that all fail blocks a revision exactly then, so the bound is attained |
| VariantStart.OnlyTheProbeStarts | orchestrator/src/services/instance-start-worker.ts:98-139 | while a policy row exists, a waiting create of a creating instance is the probe or was claimed before, and only the probe can be claimed |
| VariantStart.CreateEnds | orchestrator/src/services/instance-controller.ts:375-515 | a create that is carried out ends once, as succeeded, cancelled, returned to the queue or failed; only the second last can be claimed again, only the last is reported, and the instance changes exactly if it still was in creation |
| VariantStart.ReadyForGood | orchestrator/src/services/instance-controller.ts:577-616 | exactly a starting server gets ready; it runs then, and through any run it never starts again and none of its failures is recorded as a failed start |
| VariantStart.BurstCountsOnce | orchestrator/src/services/variant-start-controller.ts:100-120 | without a new probe, any number of failures in flight advance the count once at most |
| VariantStart.QuietAfterFailure | orchestrator/src/services/variant-start-controller.ts:162-192 | after a counted failure no create of the revision waits for a creating instance |
| VariantStart.StrandedForever | orchestrator/src/services/instance-controller.ts:140-148 | a probing revision of which nothing can get ready, as no create of it is carried out or can be claimed, and whose probe cannot be counted as failed, is never attempted again until it is taken off its variant |
| VariantStart.StrandedExactlyWhenNothingHelps | orchestrator/src/services/variant-start-controller.ts:56-88 | in every reachable state that is the case exactly when no further run, short of a new revision, lets the revision be attempted; otherwise a run does in which every create is claimed before it starts or fails its server, and every reset has stopped all servers before it deletes the row |
| VariantStart.StrandingHappens | orchestrator/src/services/instance-controller.ts:109-158 | a run from empty tables gets there: a server that fails to start, and a probe that loses its host |
| VariantStart.LostReportStrands | orchestrator/src/services/instance-controller.ts:492-514 | so does one in which the create of the probe fails and the process ends before the instance is failed; until then the revision was not stranded |
| VariantStart.RestartStrands | orchestrator/src/services/instance-start-worker.ts:28-43 | a restart strands a probing revision exactly when none of its servers is starting and the create of the probe is neither waiting nor claimed |
| VariantStart.WaitingSiblingDoesNotHelp | orchestrator/src/services/instance-start-worker.ts:98-139 | a run from empty tables to a stranded revision with a creating server whose create waits in the queue |
| VariantStart.FailureCountsExactlyWhen | orchestrator/src/domain/startup-policy.ts:27-33 | in every reachable state a failure changes the policy exactly if the create failed, the start took too long or the container was gone before the server was ready, and it is the first failure or the probe's; then the count advances by one, the revision may not be attempted now, and no other revision is affected |
| VariantStart.RowIsWritten | orchestrator/src/services/variant-start-controller.ts:126-164 | after its n-th counted failure a revision waits base * 2^(n-1), or is blocked once the retries are used up |
| VariantStart.LosingTheProbeStrands | orchestrator/src/services/instance-controller.ts:109-158 | a probe that is failed, for whatever reason and in whatever state, strands its revision exactly when it had been ready, or no create failed, no start took too long and no container was gone, and nothing else of the revision is starting, was just ready, or has a create that is carried out |
| VariantStart.ForgettingReadinessStrands | orchestrator/src/services/instance-controller.ts:576-616 | a crash after the probe got ready and before its row is cleared strands the revision, unless something else of it is starting, was just ready, or has a create that is carried out |
| VariantStartController.Controller.ReserveAttempt | orchestrator/src/services/variant-start-controller.ts:56-88 | allowed exactly without a row or when the waiting time is over, and then the instance is the probe |
| VariantStartController.Controller.RecordFailure | orchestrator/src/services/variant-start-controller.ts:90-207 | the statements are the failure step; a failure counts exactly if it is the first or the probe's |
| VariantStartController.Controller.MarkReady | orchestrator/src/services/variant-start-controller.ts:247-266 | after a server got ready its revision may be attempted at once, and no other revision is affected |
| VariantStartController.Controller.RequestReset | orchestrator/src/services/variant-start-controller.ts:268-319 | accepted exactly when the revision exists and is blocked or being reset |
| VariantStartController.Controller.CleanupReset | orchestrator/src/services/variant-start-controller.ts:405-504 | a reset completes exactly when no create is in flight and no host fails to answer, and then no server of the revision is left; in any case exactly the waiting creates concerned are cancelled, and no other server is stopped |
| VariantStartController.Controller.Reconcile | orchestrator/src/services/variant-start-controller.ts:331-357 | rows of superseded revisions are reset or gone, others are untouched or gone |
| InstanceStartWorker.ClaimsOneByOne | orchestrator/src/services/instance-start-worker.ts:98-139 | claiming a batch is a run of single claims |
| InstanceStartWorker.Worker.BeginTick | orchestrator/src/services/instance-start-worker.ts:45-56 | a tick asks for the free slots, and for none while another one claims |
| InstanceStartWorker.Worker.ClaimCreates | orchestrator/src/services/instance-start-worker.ts:98-139 | as many eligible creates as asked for are claimed, the oldest first, each with one more attempt |
| InstanceStartWorker.Worker.EndTick | orchestrator/src/services/instance-start-worker.ts:57-68 | launching what was claimed never exceeds the concurrency, whatever finished meanwhile |
| InstanceStartWorker.StopIsFinalExactlyWhen | orchestrator/src/services/instance-start-worker.ts:71-96 | in every interleaving of the worker's calls with the steps of all other services, no create is in progress after the recovery of a stop exactly when no tick had its claim still ahead then |
| InstanceStartWorker.StopIsOvertaken | orchestrator/src/services/instance-start-worker.ts:45-96 | a tick begins, the worker stops and recovers, a create is inserted, and the tick claims it |
| InstanceStartWorker.Worker.EndStop | orchestrator/src/services/instance-start-worker.ts:71-96 | after a stop no create is in progress, and for good exactly if no tick is still to claim |
| VariantSelection.RatioOrder | orchestrator/src/domain/variant-selection.ts:14-20 | comparing ratios of servers to weights is comparing cross products |
| VariantSelection.SelectVariant | orchestrator/src/domain/variant-selection.ts:8-30 | nothing without candidates, otherwise the candidate of the least ratio that owns the drawn point |
| VariantSelection.Walk | orchestrator/src/domain/variant-selection.ts:22-29 | the walk ends at the candidate whose interval contains the point |
| VariantSelection.OwnerIsUnique | orchestrator/src/domain/variant-selection.ts:22-29 | a point has one owner only |
| VariantSelection.ChoiceIsDetermined | orchestrator/src/domain/variant-selection.ts:8-30 | the choice is determined by the draw, and no candidate is less represented |
| VariantSelection.ChoiceIsLeast | orchestrator/src/services/variant-selector.ts:86-92 | selecting by the warm counts is picking a least represented variant |
| VariantSelection.PairwiseFair | orchestrator/src/domain/variant-selection.ts:14-20 | no variant is more than one server ahead of its share against another |
| VariantSelection.SharesAreFair | orchestrator/src/domain/variant-selection.ts:8-30 | after n picks with total weight W and k variants, c * W is between (n - k + 1) * w and (n - 1) * w + W, whatever the random numbers |
| VariantSelection.ChooseAll | orchestrator/src/domain/variant-selection.ts:8-30 | choosing again and again from no servers at all, with the counts kept, gives every variant its share within these bounds, whatever the random numbers |
| TransferService.AttemptsAreBounded | orchestrator/src/services/transfer-service.ts:244-285 | attempts are at most the timeout in seconds rounded up, and about half of that |
| TransferService.AttemptBoundIsReached | orchestrator/src/services/transfer-service.ts:244-285 | the sharper bound is attained |
| TransferService.BoundIsReachedByARun | orchestrator/src/services/transfer-service.ts:95-144 | a run of ticks over a command from empty tables makes exactly as many attempts as the bound allows |
| TransferService.HistoryIsLater | orchestrator/src/services/transfer-service.ts:147-285 | however the statements of a tick, cancellations and arrivals of all services interleave, settled receipts and final commands never change and the attempts stay bounded |
| TransferService.ObservedInSteps | orchestrator/src/services/transfer-service.ts:147-217 | the three observation updates are one: arrivals win over departures, and a command completes exactly when every player is observed |
| TransferService.BackoffDoubles | orchestrator/src/services/transfer-service.ts:266-276 | the first failed publication waits one second, each further one twice as long as the one before, never more than thirty |
| TransferService.Service.Enqueue | orchestrator/src/services/transfer-service.ts:39-79 | one pending receipt per distinct player, due at once |
| TransferService.CancelledForSession | orchestrator/src/services/session-controller.ts:366-371 | cancelling a session takes exactly its pending commands |
| TransferService.Service.CancelForInstance | orchestrator/src/services/transfer-service.ts:82-92 | exactly the pending commands to the instance are cancelled |
| TransferService.Service.CompleteObservedTransfers | orchestrator/src/services/transfer-service.ts:147-217 | afterwards a pending command awaits someone |
| TransferService.Service.ExpireTransfers | orchestrator/src/services/transfer-service.ts:220-241 | exactly the pending commands past their deadline expire |
| TransferService.Service.SelectDue | orchestrator/src/services/transfer-service.ts:103-118 | at most the limit, all due, oldest first, and no due command left out is older |
| TransferService.Service.Publish | orchestrator/src/services/transfer-service.ts:244-285 | a publication counts as an attempt of a pending command; the next one is due two seconds after an accepted one, and 2^(n-1) seconds after the n-th attempt if it failed, thirty from the sixth on; the bound is kept |
| TransferService.Service.Tick | orchestrator/src/services/transfer-service.ts:95-144 | a tick is a run of those statements; observed commands complete even past the deadline, none stays pending past its deadline at the start, and at most one hundred oldest due ones are tried, one after the other, each with the waiting time that its outcome and number of attempts call for |
| Capacity.DecideCapacity | orchestrator/src/domain/capacity.ts:18-73 | the number to create is the least that meets every deficit, cut off at the maximum; the number to drain is the most that keeps the floor; never both |
| Capacity.DecisionCounts | orchestrator/src/domain/capacity.ts:24-39 | what is counted: open running servers, open ones on their way, and all that are not over |
| Capacity.CountsAreCounts | orchestrator/src/domain/capacity.ts:24-40 | terminal instances play no role, and ready and booting ones are counted apart |
| Capacity.CreatedOnce | orchestrator/src/domain/capacity.ts:45-59 | once the decided servers are created, the next decision creates none |
| Capacity.ServingFloorKeptExactlyWhen | orchestrator/src/domain/capacity.ts:60-70 | servers that are not draining stay at the floor exactly when enough exist and, if any drains already, the warm excess is within their margin |
| Capacity.RepeatedDrainsPassTheFloor | orchestrator/src/domain/capacity.ts:25-31 | three ready servers over a floor of two are drained to one by two decisions |
| HostPlacement.SelectExecutionHost | orchestrator/src/domain/host-placement.ts:15-35 | nothing exactly when no host fits, otherwise the fitting host of the least dominant share, by id on ties |
| HostPlacement.DominantShareIsLargest | orchestrator/src/domain/host-placement.ts:22-33 | neither resource of a host is reserved to more than its dominant share, and one of them to exactly that |
| HostPlacement.SelectionIgnoresOrder | orchestrator/src/domain/host-placement.ts:23-34 | the choice does not depend on the order of the candidates |
| HostPlacement.ClassifyPlacementBlock | orchestrator/src/services/host-service.ts:26-41 | the cause names the resource that no host has |
| Fleet.CreationIsExact | orchestrator/src/services/instance-controller.ts:161-313 | a server is created exactly in an enabled group below its limit, with at most one replacement under way and only of a server that has reason to go, if some host is available, has room, is not the one under maintenance, and has an address for a proxy; and on such a host |
| Fleet.PlacementIsExact | orchestrator/src/services/host-service.ts:242-338 | a server is placed exactly when the group is below its maximum and an eligible host has room, on such a host; a conflict is never reported |
| Fleet.AllocationIsSafe | orchestrator/src/services/instance-controller.ts:161-313 | over every run no host is overbooked, a group exceeds its maximum by at most one and only with maintenance replacements, and at most one live replacement of a group has a running source |
| Fleet.StepKeeps | orchestrator/src/services/instance-controller.ts:176-313 | creation, lifecycle updates, reservations and host changes keep these limits |
| Fleet.InstanceController.CreateWarm | orchestrator/src/services/instance-controller.ts:161-313 | the statements are the creation step, which happens exactly under its conditions |
| IncidentController.ObservationKeeps | orchestrator/src/services/incident-controller.ts:505-562 | an observation leaves one unresolved incident of its fingerprint and touches no other |
| IncidentController.ResolvingKeeps | orchestrator/src/services/incident-controller.ts:565-586 | resolving removes exactly the fingerprint from the unresolved ones |
| IncidentController.Controller.Observe | orchestrator/src/services/incident-controller.ts:505-562 | the statements are the observation, and opened incidents have an opening time |
| IncidentController.Controller.Resolve | orchestrator/src/services/incident-controller.ts:565-586 | a pending incident is deleted, an active one resolved |
| IncidentController.Controller.RecordLoopFailure | orchestrator/src/services/incident-controller.ts:135-148 | the loop leaves the cache and its failure is observed |
| IncidentController.LoopFailuresOpen | orchestrator/src/services/incident-controller.ts:135-148 | a loop that fails n times in a row has one incident with n occurrences, open exactly from the threshold on |
| IncidentController.Controller.RecordLoopSuccess | orchestrator/src/services/incident-controller.ts:150-154 | the table is as if every success resolved the incident of the loop |
| IncidentController.Controller.Reconcile | orchestrator/src/services/incident-controller.ts:491-503 | the observations are made one after the other; then exactly the detector incidents that were not observed are forgotten if they wait and resolved if they are open; so the unresolved detector incidents are exactly the observed fingerprints, one each; resolved ones and those of loops are untouched |
| VariantFlow.InsertFinds | dashboard/src/lib/variant-flow.ts:57-79 | one variant adds its weight to every prefix of its layers, creates the missing ones, and changes nothing else |
| VariantFlow.BuildTrie | dashboard/src/lib/variant-flow.ts:43-80 | the trie holds exactly the prefixes of the visible variants with the sums of their enabled weights |
| VariantFlow.EnablingAddsWeight | dashboard/src/lib/variant-flow.ts:57-79 | enabling a variant adds its weight to every prefix of its layers, and to nothing else |
| VariantFlow.DisabledWeighNothing | dashboard/src/lib/variant-flow.ts:57-79 | disabled variants weigh nothing |
| VariantFlow.YInside | dashboard/src/lib/variant-flow.ts:83-92 | a node lies within the rows of its leaves |
| VariantFlow.NoOverlap | dashboard/src/lib/variant-flow.ts:83-93 | no two nodes overlap; in a column they are a height and a gap apart |
| VariantFlow.NodesShowThePrefixes | dashboard/src/lib/variant-flow.ts:97-121 | no path is drawn twice, and every node has the weight and the variant of its path |
| VariantFlow.EveryPrefixIsDrawn | dashboard/src/lib/variant-flow.ts:97-121 | every prefix of known layers of a visible variant is drawn |
| VariantFlow.Layout.Position | dashboard/src/lib/variant-flow.ts:83-92 | the recursion with the shared counter computes the layout |
| VariantFlow.Layout.Visit | dashboard/src/lib/variant-flow.ts:97-150 | the visit pushes the node and what is below it, in order |
| VariantFlow.BuildVariantFlow | dashboard/src/lib/variant-flow.ts:34-150 | the whole drawing: the trie of the visible variants, nodes apart and drawn once |

## Left out

- SessionController.Controller.RecoverFailedInstances: reading the failures and writing a session are one atomic step, because the source writes without a guard on the state.
- SessionController.Controller.AdvanceWaitingSessions: a session is read and written in one call, and what the tick leaves is stated for one that nothing interleaves with; the source reads all sessions first. In the runs the promotion is a write of its own, guarded by the state only.
- PluginEvents.Handler.Handle: the rows of connected players and the transfer receipts that some events also write are modelled apart, in `HubTransfers.HubRouter.Arrive` and `TransferService.HistoryIsLater`.
- SessionController.Controller.ExpireTransfers: marking the players and advancing the revisions are one atomic step, although they are separate statements outside a transaction.
- VariantStartController.Controller.CleanupReset: a host that does not answer is noticed before any server is stopped, while the source may have stopped some.
- TransferService.Service.Tick: what one tick achieves is stated for a tick that runs alone; what its statements keep when other services interleave is `TransferService.HistoryIsLater`.
- IncidentController.Controller.RecordLoopSuccess: one call completes before the next call for the same loop, as the scheduler runs a loop once at a time.
- VariantFlow.BuildTrie: the trie is a value with children in insertion order instead of mutable nodes, and a node is identified by its path instead of the joined key.
- The `running` flags of the ticks, which skip a tick that would overlap: a tick is one call.
- Group policies are fixed during a run; the theorems on limits and teams name what they need of them.
- Deadlines and clocks of matchmaking: which rows are due is an arbitrary parameter of a step.
- Isolation, locks and SQL text: a transaction is atomic.
- Order of ids by `localeCompare`: ids are integers with their order.
- Number precision: weights, shares, coordinates and delays are exact, and delays and CPU are whole numbers.
- Keys of profiles: profiles are compared as lists and not by a joined string.
- Rows of older versions: commands without receipts, members without a queue entry, creates without a payload.
- `isSessionLockEligible`: a full session may be locked without balance, any other one by the eligibility that is modelled.
- Edges of the variant graph and the percentage of a variant: display only.
- Loading variant candidates, the detection queries of incidents, host heartbeats and proxies: they copy columns between tables without a decision.
- Evacuating players while an instance drains: that is the routing of `HubTransfers.HubRouter.TransferPlayers`.
- Eligibility with three or more teams and a minimum from three to nine players: whether wrongly refused tickets exist depends on the number of teams, and is not decided here.
- HTTP, Redis, Docker and the agents: publishing and creating succeed or fail by a parameter.
- Whether a server ever becomes ready: it depends on the environment.
