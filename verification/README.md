# Verified model of the card-game server

This project models the parts of an authoritative one-against-one card-game server
in which state matters: the battle rules, the room that runs one battle for two
connected players, the action log and its replay, the matchmaking queue, the token
buckets and the bot's move generator. It proves properties of whole runs: of every
battle, every life of a room, every interleaving of matchmaking calls and every
history of login attempts.

Check it with `dafny verify dfyconfig.toml` (Dafny 4.11).

## How it is organised

| file | what it holds |
|---|---|
| `Deck.dfy` | the card catalog, what loading it guarantees, deck legality |
| `Battle.dfy` | a position (`Game`) and the pure step function `Step` |
| `BattleEngine.dfy` | the battle as objects updated in place (`Player`, `State`), proved against `Step` |
| `BattleRuns.dfy` | sequences of intents and the invariant of every reachable position |
| `BattleBounds.dfy`, `BattleLedgers.dfy`, `BattleInstances.dfy` | termination, conservation, the life of a minion |
| `BattleRules.dfy` | which rule refuses an intent, and whose turn it is |
| `BattleMinions.dfy`, `BattleHands.dfy` | who stands on the boards and who holds which cards, worked out from the intents |
| `BattleReplay.dfy`, `BattleView.dfy` | replaying accepted actions, what a player is shown and what is hidden |
| `Checksum.dfy`, `ChecksumFormat.dfy`, `ChecksumRuns.dfy` | the text behind a checksum and its format: when it determines the position, and what that means for whole battles |
| `ChecksumClash.dfy`, `ChecksumBattle.dfy` | the exact condition on card ids, and two battles with one text |
| `ChecksumWinner.dfy`, `ChecksumDuel.dfy` | what bars in player ids can do: one battle with two ends of one text |
| `Bot.dfy` | the bot's candidate moves |
| `RoomLog.dfy`, `RoomMail.dfy`, `RoomEvents.dfy` | the action log and report, what a room sends, and what a sequence of events asks for |
| `RoomActor.dfy` | the room's event loop |
| `ReplayBuild.dfy`, `EndToEnd.dfy` | from a stored report to frames; a room's report is always accepted |
| `MatchQueue.dfy` | one uninterrupted matching pass |
| `MatchRace.dfy`, `MatchAlone.dfy` | all interleavings of single calls; a pass that is not interrupted gives the result of `MatchQueue` |
| `MatchLeave.dfy`, `MatchStep.dfy` | when leaving is final; when the two sets fall out of step |
| `RateLimit.dfy`, `LoginLimit.dfy` | one token bucket; the per-address limiter that forgets idle addresses |

Code that updates objects or loops over them is a class or a method with loop
invariants, tied by its contract to a function on values; the properties are proved
about those functions and about runs of them.

What the model does not compute itself enters as a parameter, and every property
holds for every choice of it: the swaps the seeded generator asks for (`Rng`), JSON
decoding and the checksum (`Codec`), the hash of a position's text, the clock, the
random index of the bot, and which calls of the room's `Out` callback panic
(`panics(n)` for call number `n`). JSON decoding is only assumed to refuse empty
input.

## Results that differ from what the code says about itself

* The comment at `internal/auth/loginlimit.go:21` says that addresses are dropped
  when they are idle and their bucket has refilled. The code looks at idleness only.
  `LoginLimit.SweepingInvisibleIff` proves that forgetting is invisible exactly when
  `burst < 1` or `rate * ipIdle >= burst`; otherwise a concrete sequence of requests
  gets a different answer.
* `Leave` removes a player from both sorted sets, but a call that was half done may
  bring them back: a join between its two insertions, a pass that has taken the
  player out, or a pass between the two insertions that put them back.
  `MatchLeave.LeaveFinalIff` proves that leaving is final, for both sets and all later
  pairs, exactly when nothing of the kind is pending for the player at that moment.
  `MatchLeave.PairedAfterLeaving` is a run from the empty queue in which a player
  leaves and is paired afterwards.
* The rating set and the time set can fall out of step with nothing under way to mend it. `MatchStep.OrphanedIff`
  gives the two races that cause it, `MatchStep.RaceFreeIff` proves that a run is in step
  throughout exactly when it is free of them, and `MatchStep.TimeOnly` and `MatchStep.RatingOnly` are runs from the empty
  queue that end in each. A player left in the time set alone is skipped by every pass
  (`internal/match/match.go:96-98`) and keeps a place in the batch.
* The comment at `internal/battle/checksum.go:8` calls the checksum a fingerprint of
  the whole position. Ids are written without quotes, so the hashed text can be the
  same for two positions. `ChecksumClash.ReadableIff` proves the exact condition on a
  card id, over all positions: it must not contain the numbers of a minion
  (`,int,int,int,bool`) followed by a bar, or by `;m<number>` and then a comma or its end.
  Commas, semicolons and bars by themselves do no harm.
  `ChecksumBattle.OneTextTwoPositions` gives two battles between the same players, with
  legal decks over a catalog that loads, that reach different positions with one text.
* Player ids matter as well, because the winner's id is followed by a bar and may be
  taken for a shorter id. Between the same two players this needs a bar in a player id
  and a bar in a card id: `ChecksumRuns.SameTextSamePosition` proves that readable card
  ids rule every clash out if one of the two is missing, or more generally if the player
  ids can be told apart. With both, `ChecksumDuel.OneTextTwoWinners` is one battle, with
  legal decks of readable cards, in which two courses end with different winners and one
  text.
* `checkOver` has a branch for a draw (`internal/battle/state.go:151-152`).
  `BattleRuns.InvRun` proves that no battle reaches it.
* The room branch for a refused automatic `end_turn`
  (`internal/room/room.go:213-214`) is unreachable: `RoomActor.Room.AutoEndTurnAccepted`.

## Model

| member | source | states |
|---|---|---|
| Deck.ValidateCard | internal/deck/deck.go:36-66 | Accepts exactly the valid cards and otherwise reports the first of seven faults, each stated by itself |
| Deck.ValidIsFaultless | internal/deck/deck.go:36-66 | A card is valid exactly when it has none of the seven faults |
| Deck.Load | internal/deck/deck.go:78-92 | Succeeds exactly on a non-empty list of valid cards with distinct ids; a loaded catalog is sound (non-negative costs, live minions, one card per id, order as in the file); a failure names the first card at fault and the fault, invalid before duplicate |
| Deck.ValidateDeck | internal/deck/deck.go:108-128 | Accepts exactly the decks of 8 to 12 known cards with at most two copies of each; a wrong size is reported first, otherwise the first card that is unknown or one copy too many |
| Battle.InstNameInjective | internal/battle/state.go:77-80 | Different counter values give different instance ids, and no instance id is the word that targets the face |
| Battle.WithoutFirstIsSplice | internal/battle/apply.go:50-51 | Splicing the hand at the first position of a card removes exactly that copy and keeps the order of the rest |
| Battle.WithoutFirstCount | internal/battle/apply.go:50-51 | Playing a card takes one copy of it, and nothing else, out of the hand |
| Battle.ShuffledPermutes | internal/battle/state.go:61-63 | Whatever swaps the generator asks for, shuffling only permutes the deck |
| BattleHands.SwapExchanges | internal/battle/state.go:61-63 | A swap exchanges two cards and leaves every other card in its place |
| BattleHands.ShuffleIff | internal/battle/state.go:61-63 | The decks that shuffles can produce are exactly the orders of the deck |
| BattleHands.InitRules | internal/battle/state.go:15-33 | A battle is set up exactly for two distinct non-empty ids with more than three cards each; every other setup gets the error of the first requirement that fails |
| BattleHands.CardsInOrder | internal/battle/state.go:40-74 | In every battle the deck is the rest of the deck as shuffled for that player, and the hand is what has been drawn from its top, in order, less the first copy of each card played |
| BattleEngine.IndexOfString | internal/battle/state.go:108-115 | The first position of the id, or -1 exactly when it is absent |
| BattleEngine.Shuffle | internal/battle/state.go:61-63 | Swapping in place gives the permutation determined by the seed |
| BattleEngine.Player.Draw | internal/battle/state.go:65-74 | Moves the top card of the deck to the end of the hand; reports an empty deck and then changes nothing |
| BattleEngine.Player.Refresh | internal/battle/state.go:117-127 | Mana cap grows to at most ten and mana refills; either a card is drawn or fatigue grows by one and costs that much health |
| BattleEngine.Player.Spend | internal/battle/apply.go:50-51 | The in-place splice leaves the hand without its first copy of the card and the cost is paid |
| BattleEngine.Compact | internal/battle/state.go:164-171 | Two-index compaction of the board array equals the order-preserving filter of live minions |
| BattleEngine.Player.RemoveDead | internal/battle/state.go:163-172 | A player's board loses exactly its dead, and the others keep their order |
| BattleEngine.Player.WakeBoard | internal/battle/state.go:128-130 | Every minion on the board may attack; nothing else about them changes |
| BattleEngine.Player.FindMinion | internal/battle/state.go:176-183 | The slot of the first minion with that id, or -1 |
| BattleEngine.State.CheckOver | internal/battle/state.go:145-160 | In place, the same result as the pure check: who is dead, who wins, and no change once over |
| BattleEngine.State.BeginTurn | internal/battle/state.go:117-131 | In place, the whole new position of a turn start, with a fatigue death ending the battle before the board wakes |
| BattleEngine.State.Summon | internal/battle/state.go:83-106 | Unknown card, non-minion and full board are refused in that order and change nothing, the counter included; otherwise exactly one fresh copy of the catalog minion joins the board |
| BattleEngine.State.PlayCard | internal/battle/apply.go:33-53 | The in-place play agrees with the pure rule in result, error code and unchanged state on error |
| BattleEngine.State.RemoveDead | internal/battle/state.go:162-174 | Both boards lose exactly their dead |
| BattleEngine.State.Strike | internal/battle/apply.go:79-85 | Damage through board slots changes those slots, or the face, as the simultaneous exchange does, and spends the attacker |
| BattleEngine.State.Aim | internal/battle/apply.go:56-78 | Finds the slots of an attack, or the rule it breaks, without changing anything |
| BattleEngine.State.Attack | internal/battle/apply.go:55-90 | The complete in-place attack agrees with the pure rule, including every error code |
| BattleEngine.State.EndTurn | internal/battle/apply.go:3-8 | The turn passes, the round counter moves and the other player's turn begins |
| BattleEngine.State.IndexOf | internal/battle/state.go:134-141 | The seat of a player id, or -1 |
| BattleEngine.State.Apply | internal/battle/apply.go:10-31 | Refinement: objects updated in place follow the step function on every intent, and a refused intent leaves every field as it was |
| BattleEngine.Deal | internal/battle/state.go:53-56 | Alternating draws give each player the first three cards of their deck |
| BattleEngine.Seat | internal/battle/state.go:40-52 | Both decks are shuffled copies, the first player's first from the same generator; the given lists are kept as opening decks |
| BattleEngine.NewState | internal/battle/state.go:15-59 | Refuses missing catalog, empty or equal ids and short decks in that order; otherwise a fresh battle in the opening position |
| BattleRuns.ExchangeShape | internal/battle/apply.go:79-85 | An attack touches its attacker and its target and no other minion |
| BattleRuns.FatigueKills | internal/battle/state.go:123-126 | A player still alive has drawn from an empty deck at most five times |
| BattleRuns.InvStep | internal/battle/apply.go:10-90 | Every intent, accepted or not, keeps the invariant |
| BattleRuns.InvRun | internal/battle/apply.go:10-90 | In every position any sequence of intents reaches: boards hold at most five minions with 0 < HP <= MaxHP, 0 <= Mana <= MaxMana <= 10, deck size and fatigue follow the round, over holds exactly when one player (never both) is dead and the other is the winner, and instance ids are unique across both boards and were issued |
| BattleRules.FirstBrokenRule | internal/battle/apply.go:10-78 | Thirteen rules stated independently of one another: an intent is refused with the code of the first rule it breaks, and accepted exactly when it breaks none |
| BattleRules.OnlyTheActivePlayer | internal/battle/apply.go:11-20 | Whatever is accepted comes from the player whose turn it is in a battle that is not over; the other player always gets not_your_turn, a stranger not_in_game |
| BattleRules.TurnsAlternate | internal/battle/apply.go:3-8 | Turn, round and displayed round follow from the number of turns ended, and the players keep their seats |
| BattleRules.AcceptedInTurn | internal/battle/apply.go:11-20 | In every battle an accepted intent comes from the first player after an even number of ended turns and from the second after an odd one; the other player is refused for not being on turn |
| BattleMinions.AttackByName | internal/battle/apply.go:55-90 | Attacker and target, the minions the action names, each lose exactly the other's attack and leave the board exactly when that is all their health; the attacker is spent and no other minion changes |
| BattleMinions.FaceByName | internal/battle/apply.go:79-85 | An attack on the face spends the minion it names and changes no other minion |
| BattleMinions.RunTidy | internal/battle/state.go:162-174 | In every battle the boards list their minions in the order of their summons, all alive |
| BattleMinions.MinionLedger | internal/battle/apply.go:55-90 | At any time after its summons a minion is on its player's board exactly while the damage it has taken (the attacks of the minions it struck or was struck by, read off the moves by name) is less than its card's health, with the rest of that health and the card's attack, and it may attack exactly when it has not acted since that player's latest turn began |
| BattleMinions.StandingWasSummoned | internal/battle/state.go:83-106 | Every minion on a board was summoned there by an earlier intent, so the ledger covers all of them |
| BattleBounds.StepUsesPotential | internal/battle/apply.go:3-90 | Every accepted action strictly lowers a measure made of rounds left, cards left and ready minions |
| BattleBounds.BattleEnds | internal/battle/apply.go:3-90 | For opening decks of n0 and n1 cards the round never exceeds min(2*n0+5, 2*n1+6), the battle is over there, and the number of accepted actions is bounded by the deck sizes alone |
| BattleBounds.IdleBattle | internal/battle/state.go:117-131 | The round bound is attained: two players who only end their turns are alive until that very round |
| BattleBounds.OverIsFinal | internal/battle/apply.go:11-13 | Once over, no sequence of intents changes anything or is accepted |
| BattleLedgers.StepShape | internal/battle/apply.go:3-90 | What each kind of accepted action changes, and that it changes nothing else |
| BattleLedgers.CardLedger | internal/battle/apply.go:33-53 | Deck, hand and cards played are together always the opening deck, and each card played issued one instance id |
| BattleLedgers.HealthLedger | internal/battle/state.go:117-127 | HP is 20 less Fatigue*(Fatigue+1)/2 less all damage taken to the face |
| BattleLedgers.ManaLedger | internal/battle/apply.go:43-50 | Mana is the cap less what was paid in the player's latest own turn |
| BattleLedgers.ClosedForms | internal/battle/state.go:117-131 | Turn, mana caps, deck sizes and fatigue are functions of the round and the opening deck sizes |
| BattleInstances.RunMonotone | internal/battle/apply.go:3-8 | Round and instance counter never go back |
| BattleInstances.SummonedOnce | internal/battle/state.go:77-80 | An instance id is issued at most once in a battle, even after its minion has died |
| BattleInstances.ActedStaysTired | internal/battle/apply.go:62-85 | After being summoned or attacking, a minion cannot attack while the round lasts |
| BattleInstances.AttackNeedsNewRound | internal/battle/apply.go:55-90 | No accepted attack in the round of the summons, and at most one accepted attack per minion and round |
| BattleReplay.Replay | internal/battle/replay.go:27-44 | Completes exactly when every step is accepted, otherwise stops at the first refused index with its error code; the callback sees the opening and every position in between |
| BattleReplay.ReplayReproduces | internal/battle/replay.go:27-44 | Dropping the refused intents of any battle and replaying the rest is never refused and passes through the same positions |
| BattleReplay.LiveStatesOfAccepted | internal/battle/replay.go:32-42 | The k-th position seen is the one after the first k steps |
| BattleReplay.RefusalIsUnique | internal/battle/replay.go:35-38 | At most one index can be the first refused, with one error code, and then not all steps are accepted |
| BattleView.ViewShows | internal/battle/view.go:26-55 | A player sees id, health, mana, mana cap, fatigue, board, hand size and deck size of both, the own hand, no card of the opponent's hand, and whether it is the own turn |
| BattleView.GodViewShows | internal/battle/view.go:57-75 | The view of a replay shows both players' public fields and both hands |
| BattleView.ViewHidesIff | internal/battle/view.go:26-55 | Secrecy, exactly: two positions look the same to a player if and only if they differ at most in the cards in the opponent's hand, the cards in the decks and the instance counter |
| BattleView.OwnActionsHide | internal/battle/apply.go:10-90 | Nothing hidden leaks through a player's own actions: in two positions that look the same they are refused with the same code, or accepted with results that look the same again |
| BattleView.ViewDetermines | internal/battle/view.go:26-55 | Two reachable positions of one battle look the same to a player exactly when they differ at most in the opponent's hand and in what the decks hold, turn and issued instance ids being the same |
| Checksum.TextDetermines | internal/battle/checksum.go:11-21 | When the card ids on the boards are readable and the player ids can be told apart, the hashed text determines the whole position: order of hands, decks and boards, flags, winner and next instance id |
| ChecksumRuns.SameTextSamePosition | internal/battle/checksum.go:8-21 | In battles whose card ids are readable, two reachable positions have the same text exactly when they are equal, provided that the players are the same and no card id holds a bar, or that the player ids can be told apart (between the same players: neither id begins with the other and a bar) |
| ChecksumRuns.TextBars | internal/battle/checksum.go:11-21 | When no card id holds a bar, the text of any position holds six bars and those of the winner's and the two players' ids |
| ChecksumRuns.WinnersApart | internal/battle/checksum.go:13 | Between the same two players, with no bar in a card id, one text means that neither winner's id begins with the other and a bar |
| Checksum.CardReads | internal/battle/checksum.go:16-18 | The end of a readable card id is found in any text that continues as a minion's does, however many commas the id holds |
| ChecksumClash.ReadableIff | internal/battle/checksum.go:11-21 | For every card id: beside readable ids it keeps the texts of all positions apart exactly when it is readable itself |
| ChecksumClash.ReadAsReadable | internal/battle/checksum.go:16-18 | The text of a minion with any id, another minion following, is also the text of other minions whose ids are all readable, followed, when the id is broken at a bar, by a leftover text `w` that begins with that bar and stands before the end of the board |
| ChecksumBattle.OneTextTwoPositions | internal/battle/checksum.go:11-21 | Two reachable positions of two battles between the same players, with legal decks over one loaded catalog, that differ and have the same text |
| ChecksumBattle.CatalogLoads | internal/deck/deck.go:78-92 | The catalog of those battles is what loading its valid, distinct cards gives |
| ChecksumRuns.RunFrom | internal/battle/apply.go:33-53 | Every card id in a reachable position, in hands, decks and on boards, comes from the opening decks |
| ChecksumWinner.OneEndText | internal/battle/checksum.go:11-21 | Two finished positions of the same two players that name different winners and have one text |
| ChecksumWinner.QuietReadable | internal/battle/checksum.go:16-18 | A card id without the letters t and f is readable, bars, commas and semicolons included |
| ChecksumDuel.OneTextTwoWinners | internal/battle/checksum.go:8-21 | One battle with legal decks of readable cards over a sound catalog: two courses of it end with different winners and one text |
| Checksum.QuotedTailReads | internal/battle/checksum.go:15 | Quoted card ids with escapes can be read back from any text that follows them |
| Checksum.PlayerReads | internal/battle/checksum.go:14-19 | A player's section of the text can be read back, including where its board ends |
| Checksum.WritePlayer | internal/battle/checksum.go:14-19 | Writing the fields and then the board minion by minion produces that section |
| Checksum.ChecksumOf | internal/battle/checksum.go:11-21 | Writing field by field from the objects hashes exactly the text of the position |
| ChecksumFormat.TextFormat | internal/battle/checksum.go:11-21 | The hashed text field by field, in the order and with the separators of the format strings |
| ChecksumFormat.ListReads | internal/battle/checksum.go:15 | Hands and decks are written as their ids in quotes, quotes and backslashes escaped, separated by blanks, in brackets |
| Bot.PlayCandidates | scripts/bot/strategy.go:14-26 | One play per playable card, whatever the number of copies in hand |
| Bot.Candidates | scripts/bot/strategy.go:13-35 | The list holds exactly the moves the view shows to be possible |
| Bot.ChooseAction | scripts/bot/strategy.go:36-39 | For every random index, one of those moves, or end of turn exactly when there is none |
| Bot.FoundAlone | internal/battle/state.go:176-183 | Looking a minion up by id finds that minion, and nothing on the other board |
| Bot.OfferedIsLegal | scripts/bot/strategy.go:12-40 | In every position satisfying the invariant, the candidates computed from the active player's view are exactly the plays and attacks the rules accept |
| Bot.ChoiceIsLegal | scripts/bot/strategy.go:12-40 | In every reachable position that is not over, whatever the bot picks is accepted |
| Bot.AcceptedIsOffered | scripts/bot/strategy.go:12-40 | A play or attack of the active player is accepted exactly when the bot would offer it without the fields its kind does not use |
| RoomLog.Steps | internal/room/replay.go:13-26 | Turns a log into replay steps, kinds taken from the entries and never from the data, or names the first entry that does not decode |
| RoomLog.FaithfulReplays | internal/room/report.go:30-40 | A log recorded after each accepted action replays without refusal through exactly the positions it was recorded in |
| ReplayBuild.Compare | internal/replay/replay.go:75-89 | One frame for the opening and one per action, and the first entry whose recorded checksum differs, entries without one being passed over |
| ReplayBuild.Build | internal/replay/replay.go:47-101 | A report is accepted exactly when the cards are unchanged and it is consistent with replaying it; otherwise the error names the first undecodable, refused or diverging action, or a differing end; accepted frames are the positions before the first and after each action |
| ReplayBuild.FaithfulIsConsistent | internal/replay/replay.go:59-98 | A faithful log with the end it reached makes a report that replay accepts |
| ReplayBuild.EndIsPinned | internal/replay/replay.go:91-98 | No accepted report can be given another winner, another number of rounds or another claim to be finished |
| ReplayBuild.HashIsPinned | internal/replay/replay.go:80-89 | A recorded checksum in an accepted report can be left out but not replaced by another one |
| RoomMail.SendsDetermined | internal/room/room.go:184-191 | What is sent, and whether a panic cuts it short, is fixed by the mail and the calls that panic: everything up to and including the first such call |
| RoomEvents.StartedMore | internal/room/room.go:76-89 | With one more event a battle has started if it had before or if both players are now online together |
| RoomEvents.AskedMore | internal/room/room.go:94-104 | One more event adds the move it asks for: a seated player's action that decodes, under the kind of the command, or the end of the turn that timed out |
| RoomActor.CountTrue | internal/room/state.go:44-52 | The number of players online |
| RoomActor.Room.constructor | internal/room/room.go:39-53 | A new room waits, with nothing sent, logged or reported |
| RoomActor.Room.Broadcast | internal/room/state.go:33-41 | Both players get the message in order, or the sending ends with the first call that panics |
| RoomActor.Room.SendView | internal/room/room.go:241-259 | The named player gets their own view under the current number; others and rooms without a callback get nothing |
| RoomActor.Room.PushState | internal/room/room.go:261-269 | Takes the next number and shows both players the present position under it; earlier messages stay true to their numbers |
| RoomActor.Room.ApplyLogged | internal/room/room.go:105-109 | Applies an action; an accepted one is logged with the next number and the checksum of the position it led to, a refused one leaves log and position alone |
| RoomActor.Room.TakeAction | internal/room/room.go:94-109 | No battle, undecodable data and refused actions each give their error and change neither log nor number; an accepted action extends the log by one, even before both players have joined |
| RoomActor.Room.Answer | internal/room/room.go:95-117 | The sender alone hears of a refusal; both players hear of an acceptance, and of the end of the battle exactly when it is over |
| RoomActor.Room.HandleAction | internal/room/room.go:94-117 | Verdict, log and mail of one action command together, for every pattern of callback panics |
| RoomActor.Room.Enter | internal/room/room.go:77-80 | A join puts the player online and stops the grace timer |
| RoomActor.Room.Depart | internal/room/room.go:120-122 | A leave puts the player offline and keeps the grace timer running exactly when nobody is left |
| RoomActor.Room.HandleJoin | internal/room/room.go:76-93 | The first time both are online the battle starts and its opening position is published; a returning player gets the last published position under its old number |
| RoomActor.Room.SendSnapshot | internal/room/room.go:90-92 | The snapshot for a returning player repeats the last number and the position published under it |
| RoomActor.Room.HandleLeave | internal/room/room.go:119-125 | The one who stays is told to wait; nothing is sent when nobody stays |
| RoomActor.Room.RulingFollows | internal/battle/apply.go:3-8 | One action changes the turn exactly when it moves the round on, by one |
| RoomActor.Room.Handle | internal/room/room.go:70-130 | After any command: who is online, whether and when the battle has started, the position, the log with its new entry, and the mail, for every pattern of panics; strangers and unknown commands change nothing, and the loop is told to close exactly when the battle is over |
| RoomActor.Room.AutoEndTurnAccepted | internal/room/room.go:212-217 | The automatic end of a turn is never refused |
| RoomActor.Room.TimeOut | internal/room/room.go:210-226 | A turn that times out is ended for the active player, logged as automatic with its checksum and announced to both |
| RoomActor.Room.CheckTurn | internal/room/room.go:193-198 | The turn timer runs for the current turn exactly when the room is started, is armed once per round, and is left alone while the round lasts |
| RoomActor.Room.Finish | internal/room/report.go:41-66 | A started room with a battle and a receiver emits one report, with reason finished whenever the battle is over; otherwise none |
| RoomActor.Room.Crash | internal/room/room.go:184-191 | After a panic both players get the notice of the crash, unless telling the first panics as well, and the room closes as crashed |
| RoomActor.Room.OnCommand | internal/room/room.go:201-205 | The command has taken full effect on session, battle, log and mail as `Handle` states; the room waits again with its timers right, or has closed as finished, or as crashed with the notice sent; moves and rejoins do not restart the turn timer |
| RoomActor.Room.OnTimeOut | internal/room/room.go:210-227 | The turn that timed out has ended and is logged and announced; the round has moved on by one and the room waits again or has closed |
| RoomActor.Room.CommandAbreast | internal/room/room.go:70-130 | After a command without panic, both players' latest views are the present position under the latest number, and whoever is online has been told last whether the opponent is |
| RoomActor.Room.React | internal/room/room.go:199-233 | One iteration: the event leads to exactly the session, position and log it calls for and causes exactly its mail; the loop invariant holds again (among it: the message number is the length of the log, plus one once started, and log numbers strictly increase; the grace timer runs exactly while nobody is online after a leave; the players are abreast), or the room closed with the reason its event calls for: crashed exactly when a call has panicked, finished with both players told who has won, abandoned only when nobody is online and somebody had left |
| RoomActor.Room.Run | internal/room/room.go:132-234 | Any sequence of events and any pattern of callback panics: with the moves the handled events ask for (actions that decode and turns that time out), the position is where these moves lead and the logged moves are exactly the legal ones among them; the battle has started exactly when both players have been online together (up to a panic); the room crashes exactly when a call panics, and has closed with exactly one report if it was started (and has a receiver), none otherwise |
| RoomActor.Room.LifeIsRun | internal/room/room.go:132-234 | From the opening on, the positions a room lives through are those of the battle with the moves asked for, and its log holds the accepted ones |
| RoomActor.Room.LogNamesActive | internal/room/report.go:30-40 | Every log entry names the player whose turn it was, in a battle that was not over |
| RoomActor.Room.SecretsKept | internal/room/room.go:241-259 | Two rooms whose published positions differ at most in what a player must not know have sent that player the same views, number by number |
| RoomActor.Room.NumberDeterminesView | internal/room/room.go:241-269 | Two game_state messages to the same player with the same number show the same view |
| RoomActor.Room.ReportReplays | internal/room/report.go:41-66 | The report of a closed room is consistent with replaying it, and the replayed positions are those the room lived through |
| EndToEnd.PlayThenReplay | internal/replay/replay.go:47-101 | Any run of a room followed by replaying its report: a report exists exactly when the room was started and closed, it is accepted, and its frames show each logged action (number, player, kind and data, time, whether automatic) and the position after it, which from the opening on are the positions of the moves asked for; its winner and rounds are those of the battle, its reason is finished exactly when the battle was over |
| EndToEnd.DivergenceIsExact | internal/replay/replay.go:80-95 | A log replayed under another seed, deck or shuffle: an entry passes exactly when the position after it is the recorded one, so the first entry reported is the first true difference |
| MatchQueue.LongerWaitReaches | internal/match/match.go:90-94 | Whoever is within reach of a player also has that player within reach, if they have waited at least as long |
| MatchQueue.WindowIsReach | internal/match/match.go:90-111 | The range query covers exactly the ratings no further away than the base plus the widening per second times the milliseconds waited over 1000, and than the cap |
| MatchQueue.FirstOther | internal/match/match.go:114-120 | The first neighbour that is neither the player nor already paired in this pass, or none |
| MatchQueue.OpponentComesLater | internal/match/match.go:85-123 | An opponent chosen by rating has not waited longer than the player it is chosen for |
| MatchQueue.PairConserves | internal/match/match.go:124-137 | Taking a pair out keeps the queue a disjoint union of those waiting and those paired |
| MatchQueue.OpponentFound | internal/match/match.go:103-123 | Among the ten neighbours a range query returns, the one taken is the lowest rated of everybody in reach, and none is taken only if nobody is in reach |
| MatchQueue.GreedyIsGood | internal/match/match.go:85-123 | In a greedy pass every pair is within the reach of its first player in the original queue, who has waited at least as long as the second (for a non-negative widening rate) |
| MatchQueue.PairTaken | internal/match/match.go:124-137 | Taking out the next player of the batch with the best opponent in reach keeps the pass greedy, conserves the queue and leaves everybody dealt with so far without anyone in reach |
| MatchQueue.Queue.Join | internal/match/match.go:37-43 | A player already waiting keeps rating and time; a new one enters both sets |
| MatchQueue.Queue.Leave | internal/match/match.go:53-59 | The player is in neither set, everyone else is untouched |
| MatchQueue.Queue.Take | internal/match/match.go:61-71 | Succeeds exactly when the player was in the rating set, and only then also clears the time set |
| MatchQueue.Queue.TakeBoth | internal/match/match.go:124-135 | Either both players are taken, or the queue is exactly as before, the first player's rating and time restored |
| MatchQueue.Queue.FindOpponent | internal/match/match.go:103-123 | The lowest rated player in reach is found whenever there is anyone, although only ten neighbours are looked at |
| MatchQueue.Queue.MatchOne | internal/match/match.go:85-137 | One player of the batch: the greedy pair leaves the queue, or nobody within reach remains and nothing changes |
| MatchQueue.Queue.MatchOnce | internal/match/match.go:73-144 | One pass without interference, over the twenty (or as configured) longest waiting: each pair is, for the queue the earlier pairs have left, the first of the batch with anybody in reach together with the lowest rated player in reach; reach is the base plus the widening per second waited, and never more than the cap; the first of a pair has waited at least as long as the second; nobody scanned and still waiting has anyone in reach; the old queue is the new queue plus the pairs, each player once, with ratings and times kept |
| MatchRace.UninterruptedPair | internal/match/match.go:124-137 | With nothing in between, the four calls that take two waiting players remove both from both sets and make exactly their pair |
| MatchRace.UninterruptedRetreat | internal/match/match.go:128-135 | With nothing in between, a failed second take leaves both sets as they were |
| MatchRace.CallAccounted | internal/match/match.go:61-71 | Each take, put-back and pairing moves a player between the queue, a pass and the pairs and creates nobody |
| MatchRace.StepAccounted | internal/match/match.go:37-137 | Under any single call of any participant, players paired, held and waiting never exceed those inserted |
| MatchRace.StepPassesSound | internal/match/match.go:85-137 | Under any single call, the pairs of one pass stay disjoint and between distinct players |
| MatchRace.NeverPairedTwice | internal/match/match.go:37-137 | Over every interleaving of any number of passes, joins and leaves: a player is in no more pairs than the joins that inserted them, in at most one pair of any pass, and never paired with themselves |
| MatchRace.NeverLost | internal/match/match.go:37-137 | Over every interleaving: a player who has been inserted and has not left is in the queue, held by a pass, or in a pair |
| MatchAlone.AloneAsSpecified | internal/match/match.go:73-144 | A whole pass made of single calls, with nothing in between from its range query on, ends with the queue and the pairs that the uninterrupted pass is specified to give |
| MatchAlone.AloneCompletes | internal/match/match.go:73-144 | A pass left alone can always make its next call, works off its batch, and then has the result of the uninterrupted pass |
| MatchStep.OrphanedIff | internal/match/match.go:37-71 | One call leaves a player in one set only, with nothing half done to explain it, exactly when a second insertion comes after the rating has gone, or a second removal after the rating has come back |
| MatchStep.InStepUnlessRaced | internal/match/match.go:37-71 | In every run without these two races, a player with nothing half done is in both sets or in neither |
| MatchStep.RaceFreeIff | internal/match/match.go:37-71 | A run is free of these two races exactly when, at every moment of it, the player is in both sets, in neither, or has something half done |
| MatchStep.TimeOnly | internal/match/match.go:37-59 | A run in which a player who leaves between the two insertions of a join stays in the time set alone |
| MatchStep.RatingOnly | internal/match/match.go:37-71 | A run in which a player who joins again between the two removals of a pass stays in the rating set alone |
| MatchLeave.RunStaysOut | internal/match/match.go:53-59 | A player in neither set, with nothing pending for them and no new join, stays out of both sets and of every pair under every interleaving |
| MatchLeave.HolderGoesOn | internal/match/match.go:124-137 | A pass left to itself puts back or pairs the player it holds, or puts back their time |
| MatchLeave.LeaveFinalIff | internal/match/match.go:53-59 | After leaving, a player who begins no new join stays out of both sets and of every later pair, whatever the others do, exactly when no join of theirs was half done and no pass held them or was half done putting them back |
| MatchLeave.PairedAfterLeaving | internal/match/match.go:53-71 | A run from the empty queue in which a player leaves while a pass holds them and is paired afterwards |
| RateLimit.CounterDecides | internal/auth/ratelimit.go:26-37 | The counter admits a call exactly when every window from an earlier call, or from now, stays within burst plus rate times length |
| RateLimit.TracksAfterCall | internal/auth/ratelimit.go:26-37 | The counter remains the least slack of all windows of the history |
| RateLimit.Limiter.constructor | internal/auth/ratelimit.go:20-24 | A new bucket is full and has no history |
| RateLimit.Limiter.Allow | internal/auth/ratelimit.go:26-38 | In place, answers as the sliding-window rule over the whole history |
| RateLimit.EveryWindowBounded | internal/auth/ratelimit.go:12-38 | No window of any history admits more than burst plus rate times its length |
| LoginLimit.ServeAgrees | internal/auth/loginlimit.go:28-41 | One request gets the same answer with and without forgetting, and agreement continues |
| LoginLimit.SweepingIsInvisible | internal/auth/loginlimit.go:21-50 | On every history, forgetting idle addresses changes no answer when a bucket refills within the idle time |
| LoginLimit.SweepingInvisibleIff | internal/auth/loginlimit.go:21-50 | Forgetting is invisible on all histories exactly when nothing is ever admitted or a bucket refills within the idle time of 600 seconds |
| LoginLimit.OwnCallsDecide | internal/auth/loginlimit.go:28-41 | When a bucket refills within the idle time, a new limiter answers every request by the sliding-window rule over the earlier calls of its own address; other addresses have no influence |
| LoginLimit.KeptAreRecent | internal/auth/loginlimit.go:43-50 | After any requests, every address kept was used within the idle time plus the sweep interval |
| LoginLimit.IPLimiter.constructor | internal/auth/loginlimit.go:24-26 | A new limiter knows no address and sweeps on its first request |
| LoginLimit.IPLimiter.Sweep | internal/auth/loginlimit.go:43-50 | Exactly the addresses idle for longer than the limit are dropped |
| LoginLimit.IPLimiter.Lookup | internal/auth/loginlimit.go:35-39 | The address's own bucket, or a new full one; all others untouched |
| LoginLimit.IPLimiter.Allow | internal/auth/loginlimit.go:28-41 | The map of bucket objects answers and changes as the pure limiter does |

## Left out

- HTTP and WebSocket handling, login, tokens, the loops that read and write sockets, metrics, logging, the load tester, the command-line replay tool and deployment files: input and output with little state of their own.
- The room manager's map and the room's bounded inbox (`Send` dropping commands when it is full): the model starts from the commands the loop receives, in any order.
- MySQL: a stored report comes back unchanged; the deck lists and the log are decoded values, so the two decoding errors of `Build` before the log are not modelled, nor the end time of a report.
- JSON, YAML, the pseudo-random generator and the hash functions: parameters, as described above.
- Spell cards: the server refuses them as not implemented, and so does the model.
- Panics inside `Apply`: only the `Out` callback panics; a panic of `OnFinish` is swallowed by the code and has no effect on the room.
- Redis and network errors, and Redis's order among equal scores: any order is allowed.
- Floating-point rounding and integer overflow: reals and unbounded integers are used; tokens, ratings and times are reals, log times are integers.
- Clocks that go back: the token buckets assume a non-decreasing clock and a non-negative rate.
- The text of error messages and the exact fields of status messages.
- MatchQueue.Queue.MatchOnce: takes the empty string not to be a player id, because the code uses it for "nobody"; the room id of a pair is not modelled.
- MatchQueue.Queue.Join: makes both insertions at once, as the single-pass model has no interference; MatchRace splits them.
- Deck.ValidateDeck: a missing catalog is excluded by the parameter's type, where the code returns an error.
- BattleEngine.Compact: a board is an array of five slots with a size, where the code reslices a growing slice; memory shared between slices of one array is not modelled.
- BattleEngine.Player.Spend: the hand is a value sequence, where the code splices a slice in place; memory shared with other slices is not modelled.
- BattleReplay.Replay: the per-step callback is modelled by the list of positions it sees; `Build` compares that list afterwards, where the code compares as it goes.
- RoomActor.Room.React: an event of a timer that is not armed does nothing, where the code cannot select it; the durations of the two timers are not modelled.
- RoomActor.Room.constructor: the battle is given at creation and never replaced, where the code assigns it before the loop starts.
- RoomActor.Room.Run: each room has its own battle, not shared with anything else.
- Checksum.TextDetermines: card ids in hands and decks are written with quotes and backslashes escaped; Go also escapes control and other unprintable characters, which are written as they are here.
- ChecksumRuns.SameTextSamePosition: the conditions on player ids and on bars are sufficient only; `OneTextTwoWinners` shows what can happen between the same two players when both fail, and for different players the lemma asks that no id begins with another and its separator.
