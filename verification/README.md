# MALIGN AI: verified models of the game engine and its delivery protocols

This project models, in Dafny, the deterministic game engine and the protocols around it, and proves properties
of the model. `dafny verify dfyconfig.toml` checks all of it.

What updates fields in place in the repository is a class here, with methods whose postconditions equate the new
state with a function of the old one; the theorems are lemmas about those functions and about whole runs.

| part | files |
|---|---|
| campaign adjudication, its replay, its ledgers | `CampaignTypes`, `Adjudication`, `Replay`, `ReplaySegments`, `ReplayRuns`, `Choices`, `Scheduler`, `Ledgers`, `Accounts`, `Conservation`, `Transparency`, `TraceReplay`, `EngineObjects`, `CampaignCards`, `CampaignEvents`, `RollRecords`, `CampaignOutcomes`, `SlotOutcomes`, `InputRequests` |
| cards: zones, shuffle, refill, initiative, deals | `Shuffle`, `CardZones`, `CardMoves`, `Refilling`, `RefillLoops`, `CardRuns`, `CardOutcomes`, `Initiative`, `CardObjects`, `Treasury` |
| outbox lease protocol | `Outbox`, `OutboxRuns`, `OutboxPublisher` |
| exactly-once dispatch | `JsonText`, `Json`, `Fingerprints`, `Dispatch`, `AtomicStore` |
| realtime cursors | `RealtimeFeed`, `RealtimeConsumer`, `RealtimeServer`, `RealtimeObjects` |
| turn cleanup: aging, viral spread, direct influence | `DirectInfluence`, `CampaignAging`, `ViralSnapshot`, `ViralTies`, `ViralCleanup`, `ViralRuns`, `ViralObjects` |
| per-game writer, random provider, durable operations | `WriterQueue`, `RandomBuffer`, `DurableOperation`, `ServerObjects` |

## How the model stands for the code

- Adjudication. `Adjudication` gives every engine method as a function from a game and an input to a verdict;
  `Replay` gives the event reducer. `Config` holds what does not change while actions are resolved, among it the
  campaign value, the effect roll table and the state hash as functions nothing is known about. Event, ledger and
  activation ids are kept as the numbers they are built from. A command carries the answer of the random
  provider, absent when the provider throws. Locked slots are CONSTRUCT_CAMPAIGN, PLAY_BOOST and
  ACTIVATE_CAMPAIGN.
- Cards. A random provider is a list of answers still to come. It may answer badly or run out; a refill that runs
  out of answers fails as the source does when the provider throws. Runs start where seating leaves the cards;
  after all decks are locked maintenance, deals, building and spending may come in any order, which is more than
  the phases allow. A command works on a copy that is kept only if the command is accepted.
- Outbox. Rows, the attempt log and the workers' program counters form one state; every SQL transaction is one
  step, and claiming, sending, failing, acknowledging, lease expiry and recovery interleave freely. The attempt
  log refuses a second entry for the same message, attempt and stage, as its table does. Claim tokens are numbers
  that are never issued twice. A failed send is always due at once. A pump is one worker, because it runs one
  claim at a time.
- Dispatch. Strings are sequences of UTF-16 code units. A finite number other than negative zero stands for its
  shortest decimal token, over the number alphabet of section 6 of RFC 8259; strings are escaped as in section 7.
  The validation and preparation callbacks are functions of what they are handed.
- Realtime. One game and one viewer at a time; the projection of an event is there or not. A cursor's key
  decides its position. A commit appends one event or more: `CampaignEvents.EveryCommitAppends` proves it of the
  adjudication engine, and every accepted command of the setup dispatcher appends one too.
- Cleanup. Dice are part of a submission. Population ids are ordered as the source sorts them.
- Durable operations. The database, the engine's outcome and the publication answer as they like; the application
  clock is checkpointed, restored and committed together with the random provider and is not shown.

## Where the code does not do what its documentation or names suggest

- `replayAdvanceCursor` and the engine's scheduler agree only when the cursor points at an existing slot
  (`ReplayRuns.CursorsAgreeIffAtSlot`).
- The rebuilt trace misses the narrative request and the ledger lines of component and core-modifier costs, so the
  comparison of traces accepts only some activations (`TraceReplay.TraceMatchesIff` gives the exact condition).
- The refill loop need not end when Leaks and Security Protocols can keep the hand below the limit for good
  (`RefillLoops.RefillEndsIff` gives the exact condition, `RefillLoops.TenCardsNeedNotEnd` ten such cards);
  otherwise it reshuffles at most twice, and with enough cards it fills the hand (`Refilling.RefillReachesLimit`).
- The identity under which a result is stored is ambiguous exactly for names with a colon
  (`Fingerprints.UnambiguousIff`, `Fingerprints.TwoNamesOneIdentity`).
- A rejected command is not remembered, so a repeat of it may be carried out later. Repeats can be left out of a
  sequence exactly when that does not happen (`Dispatch.RepeatsCanBeLeftOutIff`, `Dispatch.EarlyThenCarriedOut`).
- A subscription may be opened with a cursor that does not validate; no wake-up ever sends anything to it
  (`RealtimeServer.UnvalidatedSubscriptionWaits`).
- A send whose return was committed but reported as an error cannot record its failure; its row stays claimed until
  the lease runs out (`OutboxRuns.FailureRecordedIff`).
- The consumer's recovery does not compare cursors and can leave a gap behind
  (`RealtimeConsumer.RecoverKeepsSyncIff` says exactly when, `RealtimeConsumer.RecoveryLeavesGap` is such a case).
- The loop in the server's acknowledgement that would forget old cursors is never reached, so they are all kept.
- After a restore the random provider refuses a range that does not hold the buffered value
  (`RandomBuffer.ChangedEngineMismatches`).

## Model

| member | source | states |
|---|---|---|
| ReplayRuns.ReplayRefinesRun | packages/game-engine/src/m1-adjudication.ts:332-629 | for every run of CONSTRUCT, PLAY_BOOST and ACTIVATE slots with their interactions, accepted or rejected, events are only appended, and replaying the new ones over the starting state gives the whole live state |
| ReplayRuns.RunStaysSteady | packages/game-engine/src/m1-adjudication.ts:763-1034 | every state a run reaches is again one from which a run may start: replay and further play can go on from there |
| ReplayRuns.StepStaysSteady | packages/game-engine/src/m1-adjudication.ts:692-717 | one command, accepted or rejected, keeps the engine invariant: cursor at a slot, suspended resolution grounded, activation payable |
| ReplayRuns.StepTracks | packages/game-engine/src/m1-adjudication.ts:665-717 | one command of the live engine is matched by replaying exactly the events it emitted |
| ReplayRuns.CursorsAgreeIffAtSlot | packages/game-engine/src/m1-adjudication.ts:211-226 | after closing a slot the two cursor loops agree exactly when the cursor pointed at an existing slot |
| ReplayRuns.PendingSlotIsCurrent | packages/game-engine/src/m1-adjudication.ts:1628-1716 | a suspended resolution always belongs to the slot under the cursor |
| ReplaySegments.ReceiptReplays | packages/game-engine/src/m1-adjudication.ts:463-492 | replaying the one cost event rebuilds the ledger lines of the tier cost, of every component and of the core modifier |
| ReplaySegments.PlaceCubesTracks | packages/game-engine/src/m1-adjudication.ts:512-528 | placing cubes, on an existing or a new stack, is replayed |
| ReplaySegments.CloseTracks | packages/game-engine/src/m1-adjudication.ts:583-591 | closing a slot is replayed whatever the status of the replica's cursor |
| TraceReplay.TraceMatchesIff | packages/game-engine/src/m1-adjudication.ts:243-330 | the references recorded with a completed activation equal those the replay rebuilds exactly when it started with its narrative known and paid no component or core-modifier cost |
| Choices.RemovalsExact | packages/game-engine/src/m1-adjudication.ts:1965-1996 | a selection can be carried out exactly when no country is asked for more cubes than it has; the board then depends on how many of each were named, not on the order |
| Choices.TakeableIsEnough | packages/game-engine/src/m1-adjudication.ts:1874-1880 | checking the selections one after the other comes to the same as counting them |
| Choices.AutomaticIsEnough | packages/game-engine/src/m1-adjudication.ts:1548-1554 | the cubes that cancellation removes are found without asking, and can be taken |
| Choices.CubesConserved | packages/rules/src/cubes.ts:14-20 | generated cubes are the placed ones and two for each opposing cube removed; while an opposing cube survives at most one is placed; other populations keep their cubes |
| Choices.CompletesIff | packages/game-engine/src/m1-adjudication.ts:1949-1996 | an activation completes exactly with as many selections as cancellation removes, each of them there to take |
| Choices.ResolveNeverFails | packages/game-engine/src/m1-adjudication.ts:1446-1545 | once the die is known the activation goes on to its end or to a question |
| Choices.ValidChoiceCompletes | packages/game-engine/src/m1-adjudication.ts:1882-1928 | a choice that passed the checks completes the activation |
| Choices.AnswerExists | packages/game-engine/src/m1-adjudication.ts:1479-1541 | whoever is asked to choose has an acceptable answer |
| Choices.OptionsCoverTakeable | packages/game-engine/src/m1-adjudication.ts:1480-1491 | every country that can lose a cube is among the options |
| Choices.CompletionBoard | packages/game-engine/src/m1-adjudication.ts:1959-2034 | the board after a completion depends on the multiset of selections only |
| Choices.RollAndResolveIff | packages/game-engine/src/m1-adjudication.ts:1319-1546 | paying, rolling and resolving a started activation is stopped only by a planned boost that is gone or a die that is none, never by cost, modifier or cubes |
| Choices.NarrativeNeverFailsForCost | packages/game-engine/src/m1-adjudication.ts:1718-1819 | telling the narrative never fails for cost, whatever happened while it was waited for |
| Choices.DieNeverFailsForCost | packages/game-engine/src/m1-adjudication.ts:1628-1716 | entering the die never fails for cost |
| Choices.AnswerNeverFailsForCost | packages/game-engine/src/m1-adjudication.ts:1556-1626 | an allowed coalition answer never fails for cost |
| Scheduler.StepProgress | packages/game-engine/src/m1-adjudication.ts:763-1059 | slots are settled in initiative and slot order, at most one a command, and no outcome is revised; a command that leaves nothing suspended settles exactly one |
| Scheduler.RunProgress | packages/game-engine/src/m1-adjudication.ts:674-690 | every state a run reaches still settles its slots in order and keeps every recorded outcome |
| Scheduler.AtMostFifteen | packages/game-engine/src/m1-adjudication.ts:674-690 | with at most three slots for each of five players at most fifteen remain, far from the guard of a hundred rounds |
| Scheduler.LocateSkipsNothing | packages/game-engine/src/m1-adjudication.ts:1036-1051 | looking for the next slot passes over players without one and loses no open slot |
| Ledgers.LastLineIsTotal | packages/game-engine/src/m1-adjudication.ts:1339-1368 | the balance shown by the last line of a key is the opening value and the sum of its deltas |
| Accounts.RunKeeps | packages/game-engine/src/m1-adjudication.ts:763-2206 | a property that survives every booking holds in every state of every run that starts with it |
| Conservation.RunConserves | packages/game-engine/src/m1-adjudication.ts:1319-1368 | in every state of every run each country's resources, each player's points and each stack are the opening value plus the ledger deltas, no balance is negative, and hands and discards agree with the cards' zones |
| Conservation.LastBalanceIsCurrent | packages/game-engine/src/m1-adjudication.ts:2174-2206 | after every run the balance in the last ledger line of a country, a player or an influence stack is its current one |
| Conservation.CostReconciles | packages/game-engine/src/m1-adjudication.ts:1334-1368 | the lines booked for one cost add up to what the country lost |
| Conservation.StackBookingReconciles | packages/game-engine/src/m1-adjudication.ts:1972-2034 | every cube taken or placed is booked under the stack that changed |
| Conservation.BookingKeepsZones | packages/game-engine/src/m1-adjudication.ts:1385-1397 | constructing and boosting keep hand and discard lists duplicate-free and in agreement with the zones |
| CampaignEvents.EveryCommitAppends | packages/game-engine/src/m1-adjudication.ts:2242-2276 | every accepted command of the engine appends at least one event, numbered on from the log, and all it appends carry the version it commits |
| CampaignCards.BookingShown | packages/game-engine/src/m1-adjudication.ts:1109-1115 | every booking of the engine is building or spending cards on the tabletop, or leaves the cards alone; no deck and no position changes |
| CampaignCards.ResolutionKeepsAgreement | packages/game-engine/src/m1-adjudication.ts:763-2206 | in every state of every run of the engine the tabletop is one that building and spending reach, in agreement with all lists, places and positions; the decks are those it started with |
| Transparency.SuspensionIsTransparent | packages/game-engine/src/m1-adjudication.ts:1176-1819 | the gameplay state at the end of an activation is a function of the start, the set of contributors, the roll and the multiset of attributions, whatever suspensions occurred and in whatever order answers came |
| Transparency.SameInputsSameEnding | packages/game-engine/src/m1-adjudication.ts:1176-1819 | two activations from the same position, with the narrative stored or still to be asked for, manual or automatic dice and other partners to ask, end in the same position when contributors, roll and cancelled cubes are the same |
| Transparency.SameCourse | packages/game-engine/src/m1-adjudication.ts:1176-1253 | what an activation works out at its start does not depend on records, stored narratives or the way inputs are obtained |
| Transparency.BonusIsHeadcount | packages/game-engine/src/m1-adjudication.ts:1556-1626 | the coalition bonus counts the contributors, in whatever order they answered |
| Transparency.ChargeOneMore | packages/game-engine/src/m1-adjudication.ts:1574-1584 | each contribution takes one resource from the contributor's own country |
| CampaignOutcomes.ResultMovesCubes | packages/game-engine/src/m1-adjudication.ts:1434-1454 | in every activation that ends, straight through or after any suspensions: with r the result on record and a the alignment of the activated campaign, a result r >= 0 makes the target's count of a grow by placed and of its opposite fall by removed, placed + 2*removed = r, removed as many as r and the board allow; below zero the kinds are exchanged; the placed cubes are the player's country's and no other stack changes |
| CampaignOutcomes.ResultFollowsRoll | packages/game-engine/src/m1-adjudication.ts:1399-1434 | that result is the table's for the campaign's alignment, the tier of its value and the number of contributors, and the value rolled with one point each for legitimacy held, a boost planned for the slot and the core modifier, kept within 1 to 10 |
| CampaignOutcomes.ResultRewards | packages/game-engine/src/m1-adjudication.ts:2048-2105 | cubes placed by a positive result earn a point each and one for a change of legitimacy, established where nobody holds it and lost by another holder; those of a negative result cost a point each, down to none; nobody else is touched |
| CampaignOutcomes.ActivationSettles | packages/game-engine/src/m1-adjudication.ts:1319-1397 | an activation that ends has cost its country the whole price once and each contributor's country one resource, has used up core modifier and boost exactly if asked for, and leaves its slot resolved and its campaign activated once more |
| RollRecords.CompletionKeepsResult | packages/game-engine/src/m1-adjudication.ts:1435-1444 | nothing an activation does after its roll records another result |
| SlotOutcomes.ConstructionBuilds | packages/game-engine/src/m1-adjudication.ts:1061-1126 | a campaign is built exactly if the player has none in the first row, the cards are different ones of the hand that fill their roles, the intent decides the alignment and the others agree, and the target exists; then it stands with these components, its cards have left the hand, and nothing else changes |
| SlotOutcomes.BoostPlans | packages/game-engine/src/m1-adjudication.ts:829-847 | a boost is planned exactly if its card is in the hand, the campaign is an own one that the plan activates in the named slot, and none is planned yet; only the plan changes |
| SlotOutcomes.UnpaidActivationFails | packages/game-engine/src/m1-adjudication.ts:1128-1178 | only an own campaign, not activated before, on a population of its target is activated; one that cannot be paid for is settled as failed for its cost and changes nothing else |
| InputRequests.StartWaits | packages/game-engine/src/m1-adjudication.ts:1204-1253 | an activation that starts asks for a narrative exactly if none is stored, and otherwise goes on to what it waits for next |
| InputRequests.EveryInputGoesOn | packages/game-engine/src/m1-adjudication.ts:1255-1317 | after every accepted input the partners are asked exactly if the campaign has the coalition card and there are others, and every one of them; a die exactly with manual dice; an attribution exactly if two countries have cubes to lose and the result cancels one; otherwise the activation ends |
| InputRequests.InputAcceptedIff | packages/game-engine/src/m1-adjudication.ts:1556-1928 | an input is accepted only from the one it is asked of, for the request that is open, with an allowed value; one that meets this is refused only because a planned boost is gone or the random provider gives no die, a choice never |
| InputRequests.EveryInputIsKept | packages/game-engine/src/m1-adjudication.ts:1718-1819 | what an accepted input leaves on record is what was given: the text and its author, the value and its submitter, the countries selected; at most one die is rolled |
| EngineObjects.Working.AppendEvent | packages/game-engine/src/m1-adjudication.ts:2242-2276 | appends one event with the next number and nothing else |
| EngineObjects.Working.LocateNextSlot | packages/game-engine/src/m1-adjudication.ts:1036-1051 | the loop moves the cursor to the next player with a slot, or marks the turn complete |
| EngineObjects.Working.AdvanceScheduler | packages/game-engine/src/m1-adjudication.ts:1053-1059 | moves past the slot under the cursor |
| EngineObjects.Working.BookCosts | packages/game-engine/src/m1-adjudication.ts:1334-1368 | deducts the whole cost and books tier, components and modifier with running balances |
| EngineObjects.Working.UseBoost | packages/game-engine/src/m1-adjudication.ts:1385-1397 | applies or refuses a planned boost |
| EngineObjects.Working.RollForImpact | packages/game-engine/src/m1-adjudication.ts:1399-1451 | rolls, records the roll and works out which cubes it brings |
| EngineObjects.Working.Automatic | packages/game-engine/src/m1-adjudication.ts:1548-1554 | lists the cubes to remove country by country |
| EngineObjects.Working.RemoveSelected | packages/game-engine/src/m1-adjudication.ts:1965-1996 | takes the selected cubes one by one |
| EngineObjects.Working.Place | packages/game-engine/src/m1-adjudication.ts:1997-2034 | places cubes on the own stack, adding it if missing |
| EngineObjects.Working.AwardPoints | packages/game-engine/src/m1-adjudication.ts:2048-2105 | awards points, legitimacy and backlash |
| EngineObjects.Working.CompleteImpact | packages/game-engine/src/m1-adjudication.ts:1949-2172 | completes an activation with the given selections |
| EngineObjects.Working.ResolveImpact | packages/game-engine/src/m1-adjudication.ts:1446-1546 | completes, or suspends for an attribution choice |
| EngineObjects.Working.PayRollResolve | packages/game-engine/src/m1-adjudication.ts:1319-1546 | pays, applies the boost, rolls and resolves |
| EngineObjects.Working.ContinueAfterNarrative | packages/game-engine/src/m1-adjudication.ts:1255-1317 | suspends for a coalition or a manual die, or goes on |
| EngineObjects.Working.Start | packages/game-engine/src/m1-adjudication.ts:1128-1253 | checks an activation, fails it for cost, or starts it |
| EngineObjects.Working.Construct | packages/game-engine/src/m1-adjudication.ts:1061-1126 | checks and constructs a campaign |
| EngineObjects.Working.Boost | packages/game-engine/src/m1-adjudication.ts:829-847 | checks and plans a boost |
| EngineObjects.Working.RunScheduled | packages/game-engine/src/m1-adjudication.ts:763-1034 | runs the slot under the cursor |
| EngineObjects.Working.Tell | packages/game-engine/src/m1-adjudication.ts:1718-1852 | accepts a narrative and resumes the activation |
| EngineObjects.Working.Answer | packages/game-engine/src/m1-adjudication.ts:1556-1626 | accepts a coalition answer and resumes once all have answered |
| EngineObjects.Working.SubmitRoll | packages/game-engine/src/m1-adjudication.ts:1628-1716 | accepts a manual die and resumes |
| EngineObjects.Working.CheckChoice | packages/game-engine/src/m1-adjudication.ts:1864-1880 | the checks an attribution choice has to pass, in their order |
| EngineObjects.Working.MakeChoice | packages/game-engine/src/m1-adjudication.ts:1854-1928 | accepts an attribution choice and completes the activation |
| EngineObjects.Store.Dispatch | packages/game-engine/src/m1-adjudication.ts:663-717 | a rejected command leaves the stored game as it was; an accepted one replaces it and raises its version by one |
| EngineObjects.Store.RunUntilBlocked | packages/game-engine/src/m1-adjudication.ts:674-690 | runs slots until an input is needed, a command is rejected or the turn is complete; the guard of a hundred rounds is never hit |
| EngineObjects.Replayer.AdvanceCursor | packages/game-engine/src/m1-adjudication.ts:211-226 | the replay's cursor loop |
| EngineObjects.Replayer.Apply | packages/game-engine/src/m1-adjudication.ts:332-629 | applies one event to the replica, or reports that replay throws |
| EngineObjects.Replayer.ReplayAllEvents | packages/game-engine/src/m1-adjudication.ts:332-629 | folds all events, stopping where replay throws |
| Shuffle.ShuffleInjective | packages/game-engine/src/setup-dispatcher.ts:2714-2725 | for distinct cards every answer vector gives a permutation, and different vectors give different ones |
| Shuffle.ShuffleSurjective | packages/game-engine/src/setup-dispatcher.ts:2714-2725 | every permutation comes from an answer vector with answer i in [0, i] |
| Shuffle.ShuffleInPlace | packages/game-engine/src/setup-dispatcher.ts:2714-2725 | the in-place swap loop computes the shuffle of the answers drawn |
| CardZones.ListsAreDisjoint | packages/game-engine/src/setup-dispatcher.ts:2361-2462 | in an agreeing state no card is in two of a player's lists or in two players' lists |
| CardZones.DrawTopAgrees | packages/game-engine/src/setup-dispatcher.ts:2449-2458 | drawing the top card, intercepted or not, keeps lists, zones, controllers and deck positions in agreement |
| CardZones.ReshuffledAgrees | packages/game-engine/src/setup-dispatcher.ts:2429-2448 | turning the discard pile into the deck keeps agreement |
| CardZones.DrawAgrees | packages/game-engine/src/setup-dispatcher.ts:2730-2776 | resolving a drawn card keeps agreement: into the hand, or to the discard together with the protocol that stops it |
| CardMoves.LockAgrees | packages/game-engine/src/setup-dispatcher.ts:2169-2223 | locking a strategy leaves starters and the opening draw in hand and the rest in a numbered deck, in agreement |
| CardMoves.DiscardAgrees | packages/game-engine/src/setup-dispatcher.ts:2402-2425 | discarding one card of the hand keeps agreement, also when it goes home to its owner |
| CardMoves.DiscardAllAgrees | packages/game-engine/src/setup-dispatcher.ts:2392-2425 | discarding a selection card by card keeps agreement and touches no other card |
| CardMoves.DealAgrees | packages/game-engine/src/setup-dispatcher.ts:2011-2027 | handing a card to another player keeps agreement |
| CardOutcomes.LockDeals | packages/game-engine/src/setup-dispatcher.ts:2169-2223 | a lock leaves starters and submitted cards, each once, in the player's lists; the deck is the shuffle from its sixth card on, and without Leaks among the first five the hand is the starters and those five, in order |
| CardOutcomes.DrawGoes | packages/game-engine/src/setup-dispatcher.ts:2730-2776 | the top card goes to the hand; Leaks drawn with Security Protocols in hand goes to the discard pile, with the first such card; nobody else's lists change |
| CardOutcomes.DiscardGoes | packages/game-engine/src/setup-dispatcher.ts:2402-2425 | a card on loan is discarded into its lender's hand and is on loan no longer, any other into the own pile |
| CardOutcomes.SelectionGoes | packages/game-engine/src/setup-dispatcher.ts:2392-2425 | a maintenance selection is discarded card by card, each to where it goes; the rest of the hand stays |
| CardOutcomes.DealIsKept | packages/game-engine/src/setup-dispatcher.ts:2011-2027 | a dealt card leaves one hand for another and is kept: discarded later it goes to the pile of whoever was given it |
| Refilling.TurnIsSound | packages/game-engine/src/setup-dispatcher.ts:2428-2459 | each turn of the refill loop makes progress: fewer answers, or fewer odd discards, or a smaller deck |
| Refilling.RefillConserves | packages/game-engine/src/setup-dispatcher.ts:2427-2462 | a refill only permutes cards among hand, deck and discard |
| Refilling.RefillReachesLimit | packages/game-engine/src/setup-dispatcher.ts:2427-2462 | with N >= limit + 2*min(p, l) the refill ends with the hand exactly at the limit when it started at or below it |
| Refilling.ReshuffleReachesLimit | packages/game-engine/src/setup-dispatcher.ts:2427-2462 | and after at most one reshuffle |
| RefillLoops.RefillEndsIff | packages/game-engine/src/setup-dispatcher.ts:2427-2462 | with N cards, P protocols and, once the deck is drawn out, L leaks outside the hand, k = min(P, L): for any number of rounds there are answers that make that many reshuffles exactly when the hand is below the limit then, k >= 1, N - 2k < limit, P > k or N - 2k <= limit - 2, and the hand holds a protocol or has room for two; otherwise no provider gets more than two reshuffles |
| RefillLoops.TenCardsNeedNotEnd | packages/game-engine/src/setup-dispatcher.ts:1436 | with the hand limit of ten: eight cards in hand, Security Protocols and Leaks discarded, and the refill need not end |
| RefillLoops.DrawTally | packages/game-engine/src/setup-dispatcher.ts:2730-2776 | what one draw does to the sizes of hand and discard pile and to the protocols and leaks in them |
| RefillLoops.NotViciousEnds | packages/game-engine/src/setup-dispatcher.ts:2427-2462 | with an empty deck and without that condition no answers of the provider get the loop to reshuffle more than twice |
| CardRuns.EveryStateAgrees | packages/game-engine/src/setup-dispatcher.ts:2011-2462 | from the tabletop that seating leaves, under every sequence of locks, maintenance, deals, built and spent cards, refused or not, all lists are duplicate-free, match places and controllers, number the decks, and no card is lost or made |
| CardRuns.StepStaysReady | packages/game-engine/src/setup-dispatcher.ts:2011-2462 | each command keeps the agreement and leaves whoever has not locked untouched |
| CardRuns.LockLeavesOthers | packages/game-engine/src/setup-dispatcher.ts:2196-2223 | a lock and its opening draw leave the lists and starters of players who have not locked alone |
| Initiative.RoundsFollowLeaders | packages/game-engine/src/setup-dispatcher.ts:2225-2314 | each tie-break round is rolled by exactly the tied leaders of the round before, and a round without a successor has one leader, the winner |
| Initiative.WinnerIsHighest | packages/game-engine/src/setup-dispatcher.ts:2225-2314 | the winner's rolls are lexicographically above every other player's |
| Initiative.ConsumptionOrder | packages/game-engine/src/setup-dispatcher.ts:2243-2255 | rolls are numbered without gaps in the order in which they were drawn |
| Initiative.OrderIsRotation | packages/game-engine/src/setup-dispatcher.ts:2264-2275 | the order is the seats rotated to start at the winner |
| Initiative.ResolveInitiative | packages/game-engine/src/setup-dispatcher.ts:2225-2314 | the loop computes the contest and the rotated order, or fails when the provider does |
| CardObjects.CardTable.ResolveDrawnCard | packages/game-engine/src/setup-dispatcher.ts:2730-2776 | resolves one drawn card in place |
| CardObjects.CardTable.DrawCard | packages/game-engine/src/setup-dispatcher.ts:2449-2458 | takes the top card, renumbers the deck and resolves the card |
| CardObjects.CardTable.ReshuffleDiscard | packages/game-engine/src/setup-dispatcher.ts:2429-2448 | shuffles the discard pile into a new numbered deck |
| CardObjects.CardTable.RefillHand | packages/game-engine/src/setup-dispatcher.ts:2427-2462 | the refill loop computes the refill function |
| CardObjects.CardTable.LockDeck | packages/game-engine/src/setup-dispatcher.ts:2196-2223 | locks an eligible deck in place; when the provider fails nothing has changed |
| CardObjects.CardStore.CheckDeck | packages/game-engine/src/setup-dispatcher.ts:2702-2712 | the checks on a submitted deck, in their order, pass exactly the eligible ones |
| CardObjects.CardStore.LockStrategy | packages/game-engine/src/setup-dispatcher.ts:2169-2223 | checks and locks a strategy; a refusal or a provider failure leaves the state as it was |
| CardObjects.CardStore.MaintainHand | packages/game-engine/src/setup-dispatcher.ts:2361-2462 | checks a selection, discards it and refills on a copy, which is kept only if all of it succeeds |
| CardObjects.CardStore.TransferCard | packages/game-engine/src/setup-dispatcher.ts:2011-2027 | carries a deal out or leaves the state as it was |
| CardObjects.CardTable.Maintain | packages/game-engine/src/setup-dispatcher.ts:2392-2462 | refuses an invalid selection; otherwise the discards and the refill as specified, or a provider failure exactly when the refill has one |
| CardObjects.CardTable.DealCard | packages/game-engine/src/setup-dispatcher.ts:2011-2027 | accepts a deal exactly when both are players, the card is in the hand and there is room; the hand stays within the limit |
| Treasury.Treasury.Transfer | packages/game-engine/src/setup-dispatcher.ts:1990-2009 | a transfer is accepted exactly when the source can pay; balances and ledger move together and the total is conserved |
| Treasury.Treasury.ApplyIncome | packages/game-engine/src/setup-dispatcher.ts:2464-2476 | income is booked with its running balance |
| Outbox.ClaimKeeps | packages/persistence/src/outbox.ts:75-147 | claiming keeps the protocol invariant, and its log entry is never refused |
| Outbox.LogKeeps | packages/persistence/src/outbox.ts:46-73 | logging a stage of one's own attempt keeps the invariant |
| Outbox.WorkerKeeps | apps/server/src/realtime-postgres.ts:191-217 | sending keeps the invariant: a message is sent only after all earlier ones of its game |
| Outbox.FailKeeps | packages/persistence/src/outbox.ts:158-191 | recording a failure, although it matches the row by token alone, keeps the invariant |
| Outbox.AckedRows | packages/persistence/src/outbox.ts:194-220 | an acknowledgement succeeds exactly for the current token of a claimed row; its log entry is never refused |
| Outbox.RecoverKeeps | packages/persistence/src/outbox.ts:222-264 | recovering any expired leases keeps the invariant |
| OutboxRuns.StepKeepsInv | packages/persistence/src/outbox.ts:75-264 | every step of every worker, delivered or lost, keeps the invariant |
| OutboxRuns.OutboxIsSafe | packages/persistence/src/outbox.ts:75-264 | over all interleavings: acknowledged messages are a prefix per game, at most one is claimed, at most one worker holds the current token, everything acknowledged was sent, and nothing is sent before everything earlier |
| OutboxRuns.OnlyTheCurrentTokenAcknowledges | packages/persistence/src/outbox.ts:194-220 | a row becomes acknowledged exactly by the worker that sent it and still holds its current token, and stays so in every step |
| OutboxRuns.AcknowledgedIsTerminal | packages/persistence/src/outbox.ts:158-264 | an acknowledged message stays acknowledged through any further steps |
| OutboxRuns.FailureIsStale | packages/persistence/src/outbox.ts:171-176 | a failure report never meets an acknowledged row that still carries its token |
| OutboxRuns.FirstMessageCanAlwaysBeDelivered | packages/persistence/src/outbox.ts:75-220 | from every reachable state the first unacknowledged message can be delivered and acknowledged by an idle worker |
| OutboxRuns.FailureMakesRetryable | packages/persistence/src/outbox.ts:158-191 | in every reachable state: once the holder of the current token has recorded a failure, no earlier message of the game is open, the message may be claimed at once, and the next claim of any idle worker takes it under the next attempt number; no other row changes |
| OutboxRuns.FailureRecordedIff | packages/persistence/src/outbox.ts:158-170 | such a failure is recorded exactly if the attempt's third stage is not logged yet; otherwise nothing changes |
| OutboxRuns.OutdatedFailureChangesNoRow | packages/persistence/src/outbox.ts:171-176 | a failure under an outdated token leaves every row as it was |
| OutboxRuns.LogExplainsRows | packages/persistence/src/outbox.ts:46-264 | in every reachable state the attempt log explains the rows: whatever has left PENDING has its claim, whatever is acknowledged its acknowledgement, whatever waits for a retry has one scheduled |
| OutboxPublisher.PostgresOutboxPublisher.ClaimOne | packages/persistence/src/outbox.ts:75-147 | claims what the query selected, or nothing |
| OutboxPublisher.PostgresOutboxPublisher.Deliver | packages/persistence/src/outbox.ts:149-192 | logs, sends, logs again or records the failure |
| OutboxPublisher.PostgresOutboxPublisher.Acknowledge | packages/persistence/src/outbox.ts:194-220 | acknowledges under the current token or throws and rolls back |
| OutboxPublisher.PostgresOutboxPublisher.RecoverExpiredLeases | packages/persistence/src/outbox.ts:222-264 | one update and a log loop equal recovering the leases one by one, and no expired lease is left |
| OutboxPublisher.RealtimeOutboxPump.PublishOne | apps/server/src/realtime-postgres.ts:180-200 | claim, deliver, acknowledge in sequence are the worker's steps, and true means acknowledged |
| JsonText.QuotedEnds | packages/game-engine/src/atomic-dispatch.ts:106 | a quoted string, with any units including lone surrogates, is recovered whatever follows it |
| JsonText.TokensEnd | packages/game-engine/src/atomic-dispatch.ts:107-110 | a number token is recovered whatever non-number unit follows it |
| Json.Ends | packages/game-engine/src/atomic-dispatch.ts:104-120 | a printed value ends where it ends and its text decides the value up to equivalence |
| Json.MembersOrder | packages/game-engine/src/atomic-dispatch.ts:114-117 | sorting the keys gives every member once, in strict order |
| Json.SerializesAlikeIff | packages/game-engine/src/atomic-dispatch.ts:104-120 | two supported values serialise alike exactly when they are equal up to key order, with -0 as 0 and non-finite as null; other values throw |
| Json.PlainEquivalence | packages/game-engine/src/atomic-dispatch.ts:104-120 | on finite trees without -0 that equivalence is rearranging keys |
| Fingerprints.FingerprintsAgreeIff | packages/game-engine/src/atomic-dispatch.ts:136-140 | fingerprints agree exactly when command type, schema version and payload do |
| Fingerprints.ColonFreeNamesAreIdentified | packages/game-engine/src/atomic-dispatch.ts:135 | identities of colon-free games and actors agree exactly for the same game, actor and key |
| Fingerprints.TwoNamesOneIdentity | packages/game-engine/src/atomic-dispatch.ts:135 | the failing case: game a with actor b:c has the identity of game a:b with actor c |
| Fingerprints.UnambiguousIff | packages/game-engine/src/atomic-dispatch.ts:135 | an identity belongs to one name only exactly when no part contains a colon |
| Dispatch.ChangesIffCarriedOut | packages/game-engine/src/atomic-dispatch.ts:122-170 | the store changes exactly when the command is carried out, then the version grows by one, one result is stored and one notice sent; other games are untouched |
| Dispatch.StoresWhatWasPrepared | packages/game-engine/src/atomic-dispatch.ts:147-160 | a command that is carried out was prepared ready for the state stored before; the body answered then is stored under the next version and is the one the notice carries |
| Dispatch.RefusalSaysWhy | packages/game-engine/src/atomic-dispatch.ts:122-145 | a command that is not carried out changes nothing; it is answered with its validation error, a throw exactly where its fingerprint fails, or, under a new key, the version and code with which preparation refused it |
| Dispatch.StateIsTheFold | packages/game-engine/src/atomic-dispatch.ts:122-171 | over any sequence a game's body is the fold of what preparation answered for its carried-out submissions, in order |
| Dispatch.NeverStale | packages/game-engine/src/atomic-dispatch.ts:45-51 | a synchronous load and commit never meet another version |
| Dispatch.ResubmissionReturnsTheOriginal | packages/game-engine/src/atomic-dispatch.ts:141-145 | a resubmission at any later time changes nothing and returns the original result when type, schema and payload are the same; exactly otherwise the key is refused as reused |
| Dispatch.OnlyEffectiveSubmissionsCount | packages/game-engine/src/atomic-dispatch.ts:122-170 | a sequence with repeats and rejections leaves the store its carried-out submissions leave; a game's version and the notices count them |
| Dispatch.CarriedOutOnce | packages/game-engine/src/atomic-dispatch.ts:122-170 | no identity is carried out twice |
| Dispatch.RepeatsCanBeLeftOutIff | packages/game-engine/src/atomic-dispatch.ts:122-171 | the final store is that of the sequence with repeats removed exactly when no repeat is carried out, that is when every identity is carried out at its first submission or never |
| Dispatch.LeaveOut | packages/game-engine/src/atomic-dispatch.ts:141-145 | any one submission that is not carried out can be left out of any sequence |
| Dispatch.EarlyThenCarriedOut | packages/game-engine/src/setup-dispatcher.ts:1323 | the failing case: a command sent one version early is refused as stale, and its repeat is carried out once another has brought the game to that version |
| AtomicStore.InMemoryAtomicStateStore.DispatchAtomicCommand | packages/game-engine/src/atomic-dispatch.ts:122-171 | the steps of a dispatch, in their order, compute the specified store and reply |
| AtomicStore.InMemoryAtomicStateStore.CommitState | packages/game-engine/src/atomic-dispatch.ts:45-51 | commits exactly under the expected version, or version 0 for a new game |
| RealtimeFeed.ValidatesIff | apps/server/src/m1-realtime.ts:227-260 | a cursor validates exactly when its scope is the viewer's and it stands at the start or at an event with that event's version |
| RealtimeFeed.ValidStaysValid | apps/server/src/m1-realtime.ts:227-260 | a valid cursor stays valid as the game grows |
| RealtimeFeed.PlayedIsCurrent | packages/game-engine/src/setup-dispatcher.ts:2786-2830 | every state of a game as it is played has a well-numbered log whose last event carries its version, because every accepted command appends an event |
| RealtimeFeed.OwnCursorValidatesIff | apps/server/src/m1-realtime.ts:250-260 | the cursor issued for a state validates then and later exactly when the last event carries the version |
| RealtimeFeed.FeedIsComplete | apps/server/src/m1-realtime.ts:275-287 | a feed holds exactly the visible events after the cursor, in order, and passes the consumer's range check |
| RealtimeFeed.SliceIsSound | apps/server/src/realtime-server.ts:547-575 | a batch holds every visible event between its cursors and passes the consumer's range check |
| RealtimeFeed.BatchingIsLossless | apps/server/src/realtime-server.ts:540-578 | the batches joined are the feed, each starts at the cursor the one before ended at, and only the last is final |
| RealtimeFeed.IssuedCursorsStayValid | apps/server/src/realtime-server.ts:555-575 | every cursor a batch ends at validates against every later state, the last exactly when the game was current |
| RealtimeConsumer.RecordKeepsMirror | apps/server/src/m1-realtime.ts:400-419 | whatever is recorded, the id and sequence maps stay inverse and nothing recorded changes |
| RealtimeConsumer.ReceiveKeepsSync | apps/server/src/m1-realtime.ts:345-368 | a genuine delivery is never refused; it is reported as a gap, changing nothing, exactly when it starts beyond the cursor, and otherwise recorded completely, moving the cursor to the later of the two |
| RealtimeConsumer.RecoveryLeavesGap | apps/server/src/m1-realtime.ts:314-327 | the failing case: a consumer that has neither of two events and recovers from the first one's cursor never gets the first |
| RealtimeConsumer.RecoverKeepsSyncIff | apps/server/src/m1-realtime.ts:314-327 | recovery keeps the consumer complete exactly when no unrecorded visible event lies before the feed |
| RealtimeConsumer.ConsumerStaysInSync | apps/server/src/m1-realtime.ts:297-419 | under any drops, repeats and reorderings the consumer has every visible event up to its cursor and nothing else |
| RealtimeConsumer.OneRecoveryCatchesUp | apps/server/src/m1-realtime.ts:314-327 | one recovery to the end of the log leaves exactly the visible events recorded |
| RealtimeConsumer.ArrivalShows | apps/server/src/m1-realtime.ts:314-368 | with projections that belong to their cursors the consumer shows, after any delivery or recovery, the projection of its own cursor |
| RealtimeConsumer.ConsumerShowsItsCursor | apps/server/src/m1-realtime.ts:297-368 | under any drops, repeats, reorderings and recoveries the projection shown is that of the current cursor; no late delivery brings an older one back |
| RealtimeConsumer.RecoveryShowsTheNewest | apps/server/src/m1-realtime.ts:314-327 | after one recovery to the end of the log it is the newest |
| RealtimeConsumer.SoundBatchIsGenuine | apps/server/src/realtime-server.ts:540-578 | a batch the server sends is a genuine delivery, then and against every later log |
| RealtimeServer.CatchUpKeeps | apps/server/src/realtime-server.ts:518-578 | on a state of a game as it is played, a catch-up from a valid cursor sends every visible event not yet issued and moves the issued cursor to the game's |
| RealtimeServer.ResyncIsValid | apps/server/src/realtime-server.ts:489-499 | a cursor from which a client may resynchronise is one the feed accepts |
| RealtimeServer.AckKeeps | apps/server/src/realtime-server.ts:466-487 | an acknowledgement is accepted exactly for an issued cursor not before the last, which becomes the acknowledged one, or for a repeated one, which changes nothing |
| RealtimeServer.SentCanBeAcknowledged | apps/server/src/realtime-server.ts:466-487 | whatever frame a client has received, it may acknowledge it as long as it has acknowledged none after it |
| RealtimeServer.StepKeeps | apps/server/src/realtime-server.ts:289-300 | on states of a game as it is played, wake-ups and resynchronisations are never refused for their cursor and leave nothing unsent; neither cursor goes back |
| RealtimeServer.RunKeeps | apps/server/src/realtime-server.ts:422-578 | and so over every run of a subscription while the game grows |
| RealtimeServer.SubscriptionStaysSound | apps/server/src/realtime-server.ts:422-578 | a subscription opened at any state of a game keeps all of that through every run, whatever commands are accepted in between |
| RealtimeServer.RunNeverGoesBack | apps/server/src/realtime-server.ts:540-578 | for every subscription, every game and every run, valid or not: neither the issued nor the acknowledged cursor ever goes back, and no frame is unsent |
| RealtimeServer.OpenedIsSound | apps/server/src/realtime-server.ts:422-464 | a new subscription from a valid cursor, or from none, starts with every visible event since that cursor sent and the game's own cursor issued |
| RealtimeServer.UnvalidatedSubscriptionWaits | apps/server/src/realtime-server.ts:432-464 | a cursor of the right scope at or before the game's opens a subscription even if it does not validate; nothing is sent to it, then or at any later wake-up |
| RealtimeObjects.InMemoryProjectedEventConsumer.AssertRange | apps/server/src/m1-realtime.ts:379-398 | the range check loop decides the range predicate |
| RealtimeObjects.InMemoryProjectedEventConsumer.RecordEvents | apps/server/src/m1-realtime.ts:400-419 | records event by event and keeps what came before a conflict |
| RealtimeObjects.InMemoryProjectedEventConsumer.Receive | apps/server/src/m1-realtime.ts:345-368 | applies a live delivery, or reports a gap or throws, as specified |
| RealtimeObjects.InMemoryProjectedEventConsumer.Recover | apps/server/src/m1-realtime.ts:314-327 | applies a recovery feed, or throws, as specified |
| RealtimeObjects.ProductiveSubscription.SendFeed | apps/server/src/realtime-server.ts:540-578 | the batch loop sends the specified batches and remembers each cursor |
| RealtimeObjects.ProductiveSubscription.Acknowledge | apps/server/src/realtime-server.ts:466-487 | accepts or refuses an acknowledgement |
| RealtimeObjects.ProductiveSubscription.Resync | apps/server/src/realtime-server.ts:489-509 | checks the cursor and catches up |
| DirectInfluence.InfluenceIsConserved | packages/game-engine/src/m2b.ts:74-94 | generated = placed + 2*removed; the opposing kind falls by the removed, the own kind grows by the placed, nothing else moves, and at most one is placed while an opposing cube survives |
| DirectInfluence.FirstStacksFirst | packages/game-engine/src/m2b.ts:83-89 | a stack is touched only when every earlier opposing one is empty |
| DirectInfluence.InfluenceBelongs | packages/game-engine/src/m2b.ts:74-94 | the placed cubes are the named country's; no other country's cubes of that kind and no other population change |
| DirectInfluence.SpendsTrigger | packages/game-engine/src/m2b.ts:107-132 | every unit due places two cubes on the next target and every spend due is marked once |
| DirectInfluence.SpendsTriggerOnce | packages/game-engine/src/m2b.ts:107-132 | resolving again finds nothing due: each spend triggers once, and the cubes add up |
| DirectInfluence.SpendsAreMalicious | packages/game-engine/src/m2b.ts:96-132 | the regime ability places malign cubes of Fluma: those grow by what the triggers placed, every other country's malign cubes stay, and resiliency cubes fall by what was removed |
| CampaignAging.AgingIsExact | packages/game-engine/src/m2b-lifecycle.ts:4-14 | exactly the campaigns of the first row are left, all in the second row now; the reported lists are the two rows |
| CampaignAging.AgingMovesCards | packages/game-engine/src/m2b-lifecycle.ts:4-14 | each card of a discarded campaign leaves play once and no other card moves |
| CampaignAging.TwoCleanupsClearTheTable | packages/game-engine/src/m2b-lifecycle.ts:4-14 | no campaign outlives two cleanups |
| ViralSnapshot.SnapshotIsExact | packages/game-engine/src/m2b-lifecycle.ts:28-47 | the snapshot holds exactly the eligible populations, once each, with all their destinations, in initiative order |
| ViralSnapshot.SharingIsExact | packages/game-engine/src/m2b-lifecycle.ts:42 | destinations are exactly the other populations sharing a trait, sorted |
| ViralTies.TiesAreExact | packages/game-engine/src/setup-dispatcher.ts:590-605 | the ties asked are exactly the undecided populations, in initiative order |
| ViralTies.AnswerTakesItsTie | packages/game-engine/src/setup-dispatcher.ts:590-605 | an answer takes its own tie away and no other |
| ViralTies.AutomaticSettles | packages/game-engine/src/setup-dispatcher.ts:607-622 | deciding what decides itself leaves nothing to decide by itself and asks nobody less or more |
| ViralTies.OriginsAreTheCandidates | packages/game-engine/src/m2b-lifecycle.ts:28-47 | however ties are decided the number of origins is the number of candidates |
| ViralCleanup.AcceptedIff | packages/game-engine/src/setup-dispatcher.ts:1548-1593 | while the cleanup waits a submission is accepted exactly when the chooser answers the open choice with an option, and the dice are dice |
| ViralCleanup.ResolveOriginSucceeds | packages/game-engine/src/m2b-lifecycle.ts:49-67 | an origin with a valid destination and dice is resolved: success from six on, two cubes exactly in the baseline variant with an even second die and one otherwise, none without success; a second die is used exactly for a success in the baseline variant; the cubes are placed for the owner's country |
| ViralCleanup.TieAnswerMoves | packages/game-engine/src/setup-dispatcher.ts:1568-1581 | an answered tie leaves one submission less |
| ViralCleanup.DestinationMoves | packages/game-engine/src/setup-dispatcher.ts:1583-1621 | a resolved origin leaves one submission less and does not change the snapshot |
| ViralRuns.CleanupEndsExactly | packages/game-engine/src/setup-dispatcher.ts:548-664 | a cleanup ends after exactly ties + origins accepted submissions; each tie and each origin is asked once and in order, each tied population spreads the kind its owner answered, each origin to the destination submitted for it; the total generated is the number of successful submissions and of those among them with an even second die in the baseline variant, and it equals placed + 2*removed |
| ViralRuns.BoardFollowsAttempts | packages/game-engine/src/m2b-lifecycle.ts:49-67 | whatever is submitted, the board is the one at the start and what the attempts report |
| ViralObjects.M2BState.ApplyDirectInfluence | packages/game-engine/src/m2b.ts:74-94 | the loops over the stacks compute the specified influence |
| ViralObjects.M2BState.ResolveFlumaRegimeSpends | packages/game-engine/src/m2b.ts:107-132 | the loops over spends and units compute the specified result, or change nothing |
| ViralObjects.M2BState.CleanupCampaignAging | packages/game-engine/src/m2b-lifecycle.ts:4-14 | the two loops compute the specified aging |
| ViralObjects.ViralCoordinator.AdvanceViralCleanup | packages/game-engine/src/setup-dispatcher.ts:624-664 | asks for a tie, takes the snapshot, asks for a destination or ends |
| ViralObjects.ViralCoordinator.RunM2Cleanup | packages/game-engine/src/setup-dispatcher.ts:548-584 | opens the viral part of the cleanup |
| ViralObjects.ViralCoordinator.SubmitViralChoice | packages/game-engine/src/setup-dispatcher.ts:1548-1621 | accepts a choice and advances, or refuses and changes nothing |
| WriterQueue.OneWriterPerGame | apps/server/src/game-session-application.ts:1000-1011 | at most one operation of a game runs, all earlier ones having finished; the entry is there exactly while one has not finished, and is the latest |
| WriterQueue.BeginInArrivalOrder | apps/server/src/game-session-application.ts:1000-1011 | operations of a game begin in the order in which they arrived |
| WriterQueue.NeverStuck | apps/server/src/game-session-application.ts:1000-1011 | while one has not finished, one runs or the earliest may begin |
| WriterQueue.AllEarlierFinished | apps/server/src/game-session-application.ts:1000-1011 | an operation may begin exactly when everything of its game before it has finished |
| RandomBuffer.TryGrows | apps/server/src/runtime-random.ts:25-39 | drawing only adds to the buffer and moves the cursor by one a draw |
| RandomBuffer.ReplaySucceedsIff | apps/server/src/runtime-random.ts:25-35 | replaying succeeds exactly when each buffered value is in the range asked for, and then draws the buffered values |
| RandomBuffer.RetryDrawsTheSame | apps/server/src/runtime-random.ts:10-39 | after a restore the same engine draws the same values, whatever new entropy would be |
| RandomBuffer.ChangedEngineMismatches | apps/server/src/runtime-random.ts:29-32 | a different engine throws exactly at a buffered value outside its range |
| DurableOperation.CursorMovesIffCommitted | apps/server/src/game-session-application.ts:902-981 | the cursor moves exactly for a fresh durable commit, by the draws made; in every other outcome it is restored |
| DurableOperation.RetriesDrawTheSame | apps/server/src/game-session-application.ts:902-981 | once an attempt executed without committing, every later attempt draws the same values, through any further failures |
| DurableOperation.RepliesFollowThePorts | apps/server/src/game-session-application.ts:902-981 | the reply follows from the answers of the ports: the original result for a replay, a stale version for a conflict of versions, not authorised for a reference to another game, the engine's outcome for a fresh commit |
| ServerObjects.BufferedTransactionalRandomProvider.Integer | apps/server/src/runtime-random.ts:25-39 | draws from the buffer, or adds to it |
| ServerObjects.BufferedTransactionalRandomProvider.Restore | apps/server/src/runtime-random.ts:12-17 | restores exactly a valid checkpoint |
| ServerObjects.CoordinateDurableOperation | apps/server/src/game-session-application.ts:902-981 | the steps of a durable operation, with its restore on every path that did not commit |
| ServerObjects.GameWriter.Enter | apps/server/src/game-session-application.ts:1001-1003 | takes the game's tail as predecessor and becomes the tail |
| ServerObjects.GameWriter.Release | apps/server/src/game-session-application.ts:1006-1009 | releases and removes the entry exactly when it is still its own |

## Left out

- PLAY_DOUBLE_ACTION and USE_REGIME_ABILITY slots, activations negated by a veto and the Fluma continuation of the scheduler (m1-adjudication.ts:771-795, 849-997): replay does not follow them.
- Individual M2 card effects, reactions, veto voting, objectives and final scoring: many branches with shallow claims.
- Phase, pause and payload-shape checks, permissions other than the actor's seat claims, and event visibility.
- Campaign value, effect roll table and state hashes: functions nothing is known about.
- Digests, canonical JSON of persisted artifacts and the integrity check of replay bundles: values are compared directly.
- The contents of adjudication traces other than their event and ledger references.
- Setup before decks are locked, the order in which players maintain their hands, phases, and the locking of action plans.
- The mapping between the canonical state and the state of the M2 effects (m2-integrated-state.ts), which moves cards between zones, and M2 paths that change resources without a ledger entry.
- `resetTurnFlags` and the unused steps of the cleanup continuation; a second turn after a cleanup.
- Termination of the initiative tie-break and of drawing, other than by the answers of the provider.
- SQL text, migrations, roles, connection handling and the query by which a row is claimed: its answer is a parameter.
- Sockets, timers, TLS, authentication, sessions, metrics, logging and the wake-up listener; frames that a closed or overfull connection drops.
- The in-memory realtime adapter used in tests, and the deduplicating test consumer of the outbox.
- Sparse arrays and cyclic values in the serialiser.
- The application clock, which is treated like the random provider.
- OutboxPublisher.PostgresOutboxPublisher.ClaimOne: takes the candidate row that the query answers, under the query's contract, because the query runs in the database.
- CardObjects.CardStore.MaintainHand: leaves the turn's income to Treasury.Treasury.ApplyIncome.
- Treasury.Treasury.Transfer: takes two different countries of the scenario, because the negotiation check before it refuses everyone else.
- Dispatch.OnlyEffectiveSubmissionsCount: takes a preparation that is a function of state and command, because what an engine draws at random is the subject of the durable operation.
- RealtimeServer.RunKeeps: takes states whose last event carries the version, because every state of a game as it is played is one, which RealtimeFeed.PlayedIsCurrent shows.
