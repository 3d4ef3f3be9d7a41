# A verified model of the game server's core

The project models four parts of the server and proves what they promise, or, where the code
falls short of its comments, exactly when it does.

1. **Winning hands.** `splitSets`, `Analyze`, `Tenpai`, the yaku and dora that price a result,
   `CheckWin`, fu and payments (`Tiles`, `Decomposition`, `Ordering`, `Search`, `Analysis`,
   `Coverage`, `Tenpai`, `Score`, `Yaku`, `Flush`, `RunYaku`, `Fans`, `Dora`, `WinCheck`,
   `Suuankou`, `Pricing`, `Amounts`, `YakuMeanings`, `YakuCounts`, `Examples`).
2. **Rounds.** The engine's `Round` object, the loop that drives it to an end, the built-in bots
   and the shuffled deal (`Table`, `Round`, `Ledger`, `TurnSpec`, `TurnLoop`, `TurnRuns`, `Calls`,
   `LoopHeads`, `TurnPanics`, `RoundResults`, `StepEffects`, `Settlement`, `Bots`, `Deal`,
   `RoundExamples`).
3. **The wire format.** Frames, the wrapper record, the action record with its XOR and base 64
   layers, and the simulation client's independent decoder (`Protobuf`, `Wrapper`, `XorCodec`,
   `Base64`, `Frames`, `SimClient`, `WireAnswers`).
4. **Friend rooms.** The room service (`Rooms`, `RoomRuns`, `RoomRules`, `RoomService`).

`KnownAnswers` holds the values that the repository's own unit tests expect.

`dafny verify dfyconfig.toml` checks the whole project.

## How it is laid out

What the program does by changing state is written that way here: classes (`Round`, `MeldList`,
`FanList`, `Room`, `Service`), arrays (`SortTiles`, `FilterInPlace`, `Shuffle`, `XORCodecInPlace`) and loops.
Each such method is proved equal to a function of its inputs or of the old state (`Table.CallStep`,
`TurnSpec.Play`, `Rooms.JoinStep`, `Wrapper.Parse`, ...). The properties are then lemmas about
these functions, over all inputs and all runs. What such a function computes is pinned down apart
from its body: payments as least hundreds, yaku as statements about the kinds of tiles, engine steps
by what they move and leave alone, bytes by known values and the laws that carry them everywhere.

A partition of counts is defined by arithmetic alone: a list of runs and triplets whose tiles add
up to the counts. A winning hand is defined from it. Neither mentions the search.

A run of the loop is driven by a script: what the acting seat decides and what each bot would
call, turn by turn. A human's input channel, a cancelled context and every kind of bot are covered
by letting the script be arbitrary. Results that speak about the built-in bots restrict it to what
bots of the given levels choose.

## Where the code and its comments differ

The model follows the code. Each difference is stated as a lemma with its exact condition, and
beside it a lemma with an input on which it shows. The rounds among these inputs are dealt ones, as
the loop receives them. Where a hand is given by its tally, in any order, such hands are written out in
`Examples.FourTripletsAndRuns`, `RoundExamples.OddAndSixPairs` and `RoundExamples.WaitingAndPonHand`.

- `internal/game/yaku/mentsu.go:17` says every decomposition is listed. `Analyze` lists one per
  pair kind, and a special shape hides the rest: `Coverage.ListsEveryExactly`. Inputs:
  111222333m 123p 77z (`Examples.ThreeEqualRunsHideTriplets`) and 112233445566m 77z
  (`Examples.SevenPairsHideStandardForm`).
- `internal/game/engine/win.go:46` scores the first decomposition. A closed hand of triplets is
  scored as four concealed triplets exactly when no three of them are consecutive in a suit
  (`Suuankou.SuuankouScored`). Input: 111222333m 555p 77z (`Examples.SuuankouMissed`).
- `internal/game/engine/win.go:70` prices every win, but the special shapes carry an empty pair and
  `Fu` reads its last byte (`internal/game/yaku/score.go:85`), and counting reads the first byte of
  every tile (`internal/game/yaku/tiles.go:29`). `CheckWin` panics exactly on hands of the right
  length that hold a tile which cannot be counted, on closed thirteen orphans and seven pairs, and
  on wins with a blank claimed tile (`WinCheck.CrashExactly`). Inputs: `Examples.OrphansPanic`,
  `Examples.SevenPairsHideStandardForm`, `Examples.BlankPanics`. When a turn panics is
  `TurnPanics.TurnPanicsExactly`. A round among built-in bots panics exactly when a thrown tile
  completes a special shape at the nearest seat that it completes (`RoundResults.DealtBotRound`,
  input `RoundExamples.BotRoundPanics`).
- `internal/game/loop.go:240` falls back to a discard when a tsumo is no win, but
  `internal/game/loop.go:86` still offers the tile that was named. A blank or unknown one panics
  exactly if some other seat is neither in riichi nor has claimed a pon
  (`TurnPanics.FailedTsumoPanics`, input `RoundExamples.BlankTsumoPanics`). Any other is not the
  freshly discarded tile of `internal/game/loop.go:98-99` exactly when it is not the first of the
  hand (`TurnPanics.OfferedIsThrown`), and can be won on although nobody threw it
  (`RoundExamples.RonOnUnthrownTile`).
- `internal/game/engine/win.go:48-54` passes double riichi on and never sets riichi, beside which
  alone it counts, so neither is worth a fan (`WinCheck.DoubleAddsNothing`).
- `internal/game/engine/win.go:19` reports wins, also those without a single fan. Such a win, and
  no other, settles nothing (`Pricing.TsumoMovesPoints`, `Pricing.RonMovesPoints`).
- `internal/game/loop.go:98-99` says each other seat is polled for a ron. A seat in riichi is
  passed over, and so is a human seat (`Calls.NearestWins`). Inputs:
  `RoundExamples.RiichiPassedOver`, `RoundExamples.HumanPassedOver`.
- `internal/game/engine/round.go:48` says `Winner` is the last winner. After a ron the loop ends
  the round a second time and the winner is overwritten (`RoundResults.RonIsForgotten`,
  `RoundResults.WinnerOnlyByTsumo`). Input: `RoundExamples.RonOverwritten`.
- `internal/game/loop.go:12-13` starts at the dealer, but `internal/game/loop.go:17` passes the
  human's seat. A turn ends in step with the engine exactly when it began so or another bot claimed
  the tile (`RoundResults.InStepExactly`). Input: `RoundExamples.OutOfStep`.
- `internal/game/loop.go:61-70` draws after a pon, so the claimer holds one tile too many for the
  rest of the round and can never win (`RoundResults.PonSeatsLocked`). Input:
  `RoundExamples.PonThenLocked`.
- `internal/game/ai/builtin.go:62-63` says pairs are kept. A pair is broken exactly when every
  unpaired tile is a terminal or honor (`Bots.BreaksPairExactly`). Input: 55m 1p 9s 1z
  (`Examples.PairBroken`).
- `internal/game/yaku/yaku.go:234-270` looks at the concealed tiles for one-suit hands: chinitsu
  never compares the suit of an open set (`Flush.ChinitsuExactly`), honitsu ignores open sets
  altogether (`Pricing.HonitsuScored`). Inputs: `Examples.ChinitsuTooMany`,
  `Examples.HonitsuTooMany`, `Examples.HonitsuTooFew`.
- `internal/game/yaku/yaku.go:83` gives pinfu for a non-valued pair. The test is inverted: honor and
  terminal pairs pass, simples do not (`Pricing.PinfuExactly`). Input: 123456789m 123p with 77z and
  with 55s (`Examples.PinfuInverted`).
- `internal/room/service.go:71` says where an account sits. Leaving any room clears the entry, even
  while the account sits in another (`Rooms.LeaveForgets`, input `Rooms.SeatedWithoutEntry`). Over
  whole runs every human in a room has an entry exactly when no leave did that
  (`RoomRuns.IndexedExactly`). Room ids wrap after 2^32 - 1 (`Rooms.CreateKeeps`, input
  `RoomRuns.RoomReplaced`).
- Ending a round before it is started loses the dealer's extra tile (`Ledger.TilesConservedExactly`,
  input `RoundExamples.ExtraLost`).

## Model

| member | source | states |
|---|---|---|
| Tiles.IndexOfTileAt | internal/game/yaku/tiles.go:65-89 | every slot's tile maps back to that slot; honors are the slots from 27, ranks follow the slot |
| Tiles.TileAtOfIndex | internal/game/yaku/tiles.go:28-89 | a documented tile's slot names the tile without its red mark, and lies inside the 34 slots |
| Tiles.CountTiles | internal/game/yaku/tiles.go:115-121 | slot k counts exactly the tiles of kind k, red fives as plain fives |
| Tiles.SumTally | internal/game/yaku/tiles.go:115-121 | the 34 counts add up to the number of tiles |
| Tiles.SortTiles | internal/game/yaku/tiles.go:125-139 | the same tiles, sorted: no tile is less than one before it |
| KnownAnswers.SlotOf | internal/game/yaku/tiles.go:64-75 | slots run through manzu, pinzu, souzu and honors, and within each through the ranks |
| KnownAnswers.SortedBy | internal/game/yaku/tiles.go:132-139 | the order sorted by: suit, then rank, a red five before the plain one |
| Decomposition.FirstSplitSound | internal/game/yaku/mentsu.go:139-182 | whatever the search finds is a partition of the counts into exactly `need` runs and triplets |
| Decomposition.FirstSplitComplete | internal/game/yaku/mentsu.go:139-182 | whenever any partition into `need` sets exists the search finds one: the lowest tile must start a set |
| Decomposition.FirstSplitDecides | internal/game/yaku/mentsu.go:139-182 | success if and only if the counts split into `need` sets, for every count vector and every `need` |
| Decomposition.TakeOut | internal/game/yaku/mentsu.go:159-175 | any set of a partition can be removed first, leaving a partition of the rest |
| Decomposition.LowestStartsBlock | internal/game/yaku/mentsu.go:151-158 | in every partition some set starts at the lowest remaining tile |
| Ordering.FirstSplitOrdered | internal/game/yaku/mentsu.go:139-141 | the sets come in order of their low tile, runs before triplets |
| Ordering.FirstSplitRunsFirst | internal/game/yaku/mentsu.go:139-141 | of all partitions the search returns the one that takes a run at the first place where they differ |
| Ordering.Arrange | internal/game/yaku/mentsu.go:139-141 | every partition can be listed in the search's order, with the same sets |
| Ordering.LeadingRuns | internal/game/yaku/mentsu.go:159-181 | where one partition starts with a run and another with a triplet, the first starts with that run three times |
| Ordering.UniqueUnlessSwappable | internal/game/yaku/mentsu.go:142-182 | counts have a single partition exactly unless three copies of one run can be set aside and the rest still splits |
| Search.SplitSets | internal/game/yaku/mentsu.go:142-182 | the backtracking search returns true exactly when a partition exists, appends its sets to the accumulator on success and leaves the accumulator as it was on failure; the triplet is tried on the counts put back |
| Search.TrySet | internal/game/yaku/mentsu.go:160-180 | one branch of the search: remove a set, push it, search on, and when that fails leave accumulator and counts as they were |
| Search.PutBack | internal/game/yaku/mentsu.go:168-179 | backtracking restores the counts exactly |
| Search.TakeLess | internal/game/yaku/mentsu.go:160-173 | every removed set takes three tiles, which bounds the recursion whatever `need` is |
| Analysis.IsKokushi | internal/game/yaku/mentsu.go:53-85 | true exactly for fourteen tiles that hold every terminal and honor and nothing else |
| Analysis.Chiitoitsu | internal/game/yaku/mentsu.go:87-102 | true exactly for fourteen tiles in pairs of different kinds |
| Analysis.Analyze | internal/game/yaku/mentsu.go:21-51 | the special result alone, or the first decomposition of every feasible pair kind in slot order; the scratch counts are restored |
| Analysis.AnalysisDecidesWinning | internal/game/yaku/mentsu.go:17-51 | a result is reported if and only if the length fits and the hand is thirteen orphans, seven pairs (both closed only) or a pair plus sets |
| Analysis.AnalysisSound | internal/game/yaku/mentsu.go:21-51 | every standard result has the open melds first, then concealed sets that use up the hand together with its pair, four sets in all |
| Analysis.FeasibleDecides | internal/game/yaku/mentsu.go:36-42 | a pair kind is accepted exactly when the hand without that pair splits into the remaining sets |
| Analysis.OneResultPerPair | internal/game/yaku/mentsu.go:36-49 | exactly one result per feasible pair kind, in slot order |
| Coverage.OrphansHaveNoSets | internal/game/yaku/mentsu.go:26-29 | no thirteen-orphans hand has a standard form or is seven pairs, so returning early hides nothing |
| Coverage.SevenPairsStandard | internal/game/yaku/mentsu.go:30-32 | a seven-pairs hand has a standard form exactly when it is two runs, each twice, and a pair |
| Coverage.ListedIsFirst | internal/game/yaku/mentsu.go:36-49 | a decomposition is listed exactly when it is the one the search finds for its pair |
| Coverage.ListsEveryExactly | internal/game/yaku/mentsu.go:17-51 | "every valid decomposition" is listed exactly when no pair leaves three copies of a run beside a splittable rest and the hand is not seven pairs made of doubled runs |
| Coverage.SpecialHides | internal/game/yaku/mentsu.go:26-33 | a special result stands for every decomposition exactly when there is no standard form |
| Examples.ThreeEqualRunsHideTriplets | internal/game/yaku/mentsu.go:17-51 | 111222333m 123p 77z with the sevens as pair splits into 123m three times and 123p, and into 111m 222m 333m 123p; the second is not listed |
| Examples.SevenPairsHideStandardForm | internal/game/yaku/mentsu.go:30-32 | 112233445566m 77z also splits into 123m twice and 456m twice; only the special result is listed, and checking the hand panics |
| Examples.OrphansPanic | internal/game/engine/win.go:42-72 | 19m 19p 19s 12345677z: checking the hand panics |
| Examples.BlankPanics | internal/game/engine/win.go:24-42 | thirteen tiles and a blank one: checking them panics |
| Tenpai.RecountRoundTrip | internal/game/yaku/mentsu.go:129-137 | counting the rebuilt hand gives the counts back |
| Tenpai.Recount | internal/game/yaku/mentsu.go:129-137 | one tile per count, lowest slots first |
| Tenpai.DrawnWins | internal/game/yaku/mentsu.go:112-124 | adding one tile and analysing decides whether that tile wins, by the declarative definition; beside open melds it never does |
| Tenpai.Tenpai | internal/game/yaku/mentsu.go:104-126 | for a closed hand of thirteen exactly the kinds held fewer than four times that make a winning hand, otherwise nothing; the scratch counts are restored on every iteration |
| Score.RoundUpMeans | internal/game/yaku/score.go:35-36 | the least multiple of a hundred from the payment up |
| Score.BasePointsMonotone | internal/game/yaku/score.go:21-33 | more han or more fu never lowers the base value, which stays within 2000; the values themselves are `Amounts.ValueIsBase` |
| Amounts.ValueIsBase | internal/game/yaku/score.go:24-33 | from one to four han the base value is fu times 8, 16, 32 or 64, at most 2000 |
| KnownAnswers.BaseValues | internal/game/yaku/score_test.go:5-22 | 240, 480, 960 and 1920 for one to four han at 30 fu, 2000 from 40 fu on |
| KnownAnswers.LimitPayments | internal/game/yaku/score_test.go:24-41 | 8000 and 12000 for five han, up to 32000 and 48000 for thirteen |
| Score.PaymentsInHundreds | internal/game/yaku/score.go:38-71 | every payment is a multiple of 100 |
| Score.PaymentsMonotone | internal/game/yaku/score.go:38-71 | ron and both tsumo payments grow with han and with fu, across the boundary from computed to limit hands |
| Score.TsumoAgainstRon | internal/game/yaku/score.go:38-71 | at four players a tsumo collects at least the ron payment and at most 200 more, exactly the same for limit hands |
| Score.DealerPaysMore | internal/game/yaku/score.go:58-71 | a dealer who loses to a tsumo pays no less than another loser |
| Amounts.RonAmount | internal/game/yaku/score.go:40-53 | a ron costs the least hundred from four times that value up, six times for a dealer; from five han on one of five tiers, half as much again for a dealer |
| Amounts.TsumoAmounts | internal/game/yaku/score.go:58-71 | a losing dealer, and everybody who loses to a dealer, pays the least hundred from twice the value up, others from the value itself; of a limit hand a half or a quarter |
| Amounts.RonReaches | internal/game/engine/round.go:146-157 | a ron moves that amount, or what the discarder has, from the discarder to the winner and changes no other score |
| Amounts.TsumoReaches | internal/game/engine/round.go:124-143 | a tsumo takes every other seat's share and gives the winner their sum, at any number of seats |
| KnownAnswers.Payments | internal/game/yaku/score_test.go:43-85 | 1000 and 1500 for one han at 30 fu, 5200 for three at 40, 500 and 300 on a tsumo, and the mangan amounts |
| Score.Fu | internal/game/yaku/score.go:73-108 | the least multiple of ten from the raw fu up, never below 20, for results whose pair and sets are tiles |
| YakuMeanings.SetFuByKind | internal/game/yaku/score.go:88-103 | a triplet is worth two fu, doubled for a terminal or honor kind, doubled when concealed, four times as much as a quad, and a run nothing |
| YakuMeanings.FuExactly | internal/game/engine/win.go:70 | the fu of every reported win: the least ten from twenty, two for a draw, ten for a closed ron, two for a pair of honors, and the triplets by kind and openness |
| Yaku.TanyaoMeansAllSimples | internal/game/yaku/yaku.go:162-175 | on every standard result tanyao holds exactly when every tile of the hand and of the open melds is a simple |
| Yaku.TanyaoSameForAll | internal/game/engine/win.go:46-47 | taking the first decomposition cannot change tanyao |
| Yaku.TanyaoExcludes | internal/game/yaku/yaku.go:162-232 | tanyao excludes chanta, junchan and every value tile |
| YakuMeanings.ChantaMeans | internal/game/yaku/yaku.go:210-232 | on every standard result chanta holds exactly when the pair and every set cover a terminal or honor kind, junchan exactly when each covers a terminal |
| Yaku.TripletsConcealed | internal/game/yaku/yaku.go:359-369 | on a closed decomposition the four-concealed-triplets test says that all concealed sets are triplets |
| Yaku.SearchFindsTriplets | internal/game/yaku/mentsu.go:159-181 | an all-triplet partition is the one the search returns exactly when no three triplets are consecutive |
| Yaku.TripletsListed | internal/game/yaku/mentsu.go:36-49 | an all-triplet decomposition is listed exactly when no three of its triplets are consecutive in a suit |
| Suuankou.SecondPairNeedsRow | internal/game/yaku/mentsu.go:36-49 | a hand that is triplets with one pair and splits with another pair too has three consecutive triplets: counts modulo three force the runs |
| Suuankou.FirstResultTriplets | internal/game/yaku/yaku.go:359-369 | the first result of a closed all-triplet hand is four concealed triplets exactly when no three of the triplets are consecutive in a suit |
| Suuankou.SuuankouScored | internal/game/engine/win.go:46-71 | such a hand is reported as a yakuman, with that name, exactly then |
| Examples.SuuankouMissed | internal/game/yaku/yaku.go:334-337 | 111222333m 555p 77z, dealt in any order, is four concealed triplets and is not scored as a yakuman |
| Flush.Honitsu | internal/game/yaku/yaku.go:234-253 | comparing the largest suit tally with the sum finds exactly the concealed tiles with an honor and number tiles of at most one suit |
| Flush.HonitsuExactly | internal/game/yaku/yaku.go:234-253 | honitsu agrees with the same test on the whole hand exactly unless an accepted hand has an open set of another suit or the only honors are in open sets |
| Examples.HonitsuTooMany | internal/game/yaku/yaku.go:234-253 | 123456789m 11z with a claimed 555p: a reported win that lists honitsu, with two suits |
| Examples.HonitsuTooFew | internal/game/yaku/yaku.go:234-253 | 12345678955m with a claimed 111z: a reported win that does not list honitsu, although the whole hand is one suit and honors |
| Flush.Chinitsu | internal/game/yaku/yaku.go:255-270 | the concealed tiles form one number suit and no set is of honors |
| Flush.ChinitsuExactly | internal/game/yaku/yaku.go:255-270 | on every standard result of Analyze chinitsu finds the full flushes, and exactly one family more: an open set of another number suit |
| Examples.ChinitsuTooMany | internal/game/yaku/yaku.go:255-270 | 12345678955m with a claimed 555p: a reported win that lists chinitsu, although the whole hand has two suits |
| RunYaku.SanshokuDoujun | internal/game/yaku/yaku.go:273-300 | grouping the runs by rank, each suit once, finds a rank with runs in exactly three suits |
| RunYaku.SanshokuMeans | internal/game/yaku/yaku.go:273-300 | for runs of the number suits that is a rank held as a run in all three |
| RunYaku.Ittsu | internal/game/yaku/yaku.go:302-319 | runs from one, four and seven, in whatever suits |
| Fans.Yakuhai | internal/game/yaku/yaku.go:177-208 | the value tiles of the triplets, all dragons before all winds, a double wind twice |
| Examples.PinfuInverted | internal/game/yaku/yaku.go:83-86 | a closed ron on 123456789m 123p lists pinfu with a pair of 77z and not with a pair of 55s |
| Fans.Calc | internal/game/yaku/yaku.go:30-151 | every fan that holds, in the listed order with its name and han, open or closed, their total, and the yakuman that replace them; what each name says of the tiles are the rows from `YakuMeanings.TanyaoListed` to `HanAddsUp` |
| YakuMeanings.LuckListed | internal/game/yaku/yaku.go:63-80 | whatever the result, riichi, double riichi, ippatsu, rinshan and chankan are listed exactly for their circumstance, and ippatsu only beside riichi |
| Pricing.YakuExactly | internal/game/yaku/yaku.go:40-151 | of a reported ordinary win each yaku is listed exactly when it holds of the first result: no name is listed for another |
| YakuMeanings.ReportedResult | internal/game/engine/win.go:42-72 | every reported ordinary win prices a result of one pair and four sets of tiles, the first decomposition; the rows below speak of it |
| YakuMeanings.TanyaoListed | internal/game/yaku/yaku.go:88-91 | a reported win lists tanyao exactly when every tile, concealed or claimed, is a simple |
| YakuMeanings.EdgesListed | internal/game/yaku/yaku.go:105-118 | it lists chanta exactly when its pair and all sets cover a terminal or honor, junchan exactly when all cover a terminal |
| YakuMeanings.SetsListed | internal/game/yaku/yaku.go:74-103 | it lists menzenTsumo exactly for a closed draw, toitoi exactly without a run, ittsu exactly with runs from one, four and seven |
| YakuMeanings.SanshokuListed | internal/game/yaku/yaku.go:135-141 | it lists sanshoku, closed or open by name, exactly with the same run in all three suits |
| YakuMeanings.ChinitsuListed | internal/game/yaku/yaku.go:127-133 | it lists chinitsu exactly for a full flush or for concealed tiles of one number suit beside open sets of others |
| YakuMeanings.ValuesListed | internal/game/yaku/yaku.go:177-208 | it lists haku, hatsu and chun for triplets of 5z, 6z and 7z, the seat for its own wind and the round for 1z |
| YakuMeanings.NeverListed | internal/game/engine/win.go:48-54 | it never lists riichi, double riichi, ippatsu, rinshan or chankan |
| YakuCounts.NamedOnce | internal/game/yaku/yaku.go:63-143 | a name is listed once when its yaku holds and not at all otherwise |
| YakuCounts.NamedPerTriplet | internal/game/yaku/yaku.go:93-98 | a value tile is named once for each of its triplets, a wind of seat and round under both names |
| YakuCounts.NamedInOrder | internal/game/yaku/yaku.go:63-143 | the names of a reported win come in one fixed order, dragons before winds and dora last |
| YakuMeanings.HanAddsUp | internal/game/engine/win.go:55-69 | the han of a reported win are what its listed names are worth, closed or open, and one for every dora |
| Pricing.PinfuExactly | internal/game/yaku/yaku.go:83-86 | a reported win lists pinfu exactly when it is a closed ron with four runs whose pair is no simple; that is "non-valued pair" exactly when the pair is a terminal |
| Pricing.HonitsuScored | internal/game/yaku/yaku.go:120-126 | a reported win lists honitsu exactly for concealed tiles with an honor and at most one number suit, and agrees with the whole hand exactly outside two families |
| Pricing.YakuTogether | internal/game/yaku/yaku.go:88-133 | no reported win lists honitsu with chinitsu or tanyao with chanta or junchan, and none lists junchan without chanta |
| Pricing.YakumanNames | internal/game/yaku/yaku.go:57-61 | a reported yakuman lists four concealed triplets and at most dora besides, for thirteen han or more |
| Pricing.WorthExactly | internal/game/engine/win.go:55-71 | a reported win has no han exactly when it lists no yaku and no dora; a closed tsumo always has some |
| Pricing.TsumoMovesPoints | internal/game/engine/round.go:124-143 | a reported tsumo leaves the scores alone exactly when it lists nothing, and a closed one never does |
| Pricing.RonMovesPoints | internal/game/engine/round.go:146-157 | a reported ron leaves the scores alone exactly when it lists nothing or the discarder stands at zero |
| Dora.NextCycles | internal/game/yaku/tiles.go:46-62 | the tile an indicator marks: one cycle a number suit, one cycle of the seven honors |
| Dora.CountDora | internal/game/yaku/dora.go:3-19 | counting by tiles gives one for every red five and, indicator by indicator, the tiles it marks |
| Dora.DoraByPairs | internal/game/yaku/dora.go:3-19 | that is the number of red fives and of pairs of a tile and an indicator that marks it |
| KnownAnswers.NextTiles | internal/game/yaku/yaku_test.go:147-169 | the marked tiles of nine indicators, last of each suit included |
| WinCheck.CheckWin | internal/game/engine/win.go:24-72 | fu, han with dora, yakuman flag and names of the first decomposition with the open melds put in front, no win when there is none, a panic where `Fu` panics, whatever is passed for double riichi |
| WinCheck.DoubleAddsNothing | internal/game/engine/win.go:48-54 | the price of a win does not depend on double riichi |
| WinCheck.WaitsWin | internal/game/engine/win.go:74-81 | the winning tile added to a closed hand of thirteen is not turned down exactly when Tenpai lists its kind, if the hand holds fewer than four of it |
| WinCheck.CrashExactly | internal/game/engine/win.go:24-72 | on every hand the check panics exactly on the right length with an uncountable tile, on closed thirteen orphans and seven pairs, and on a win with a blank claimed tile |
| WinCheck.WinsExactly | internal/game/engine/win.go:42-72 | on every hand a win is reported exactly for countable tiles in standard form that are not closed seven pairs and have no blank claimed tile |
| Round.Round.constructor | internal/game/engine/round.go:75-106 | hands and stack from the wall, equal scores, nobody in riichi, the dealer by kyoku, and the five dora indicators of the dead wall as far as it reaches |
| StepEffects.NewRoundShows | internal/game/engine/round.go:96-101 | a new round shows the tiles at 4, 6, 8, 10 and 12 of its fourteen tiles set aside |
| StepEffects.IndicatorsAt | internal/game/engine/wall.go:33-41 | of a wall of any length: every second tile from 4 on, as many as there are |
| Round.Round.Start | internal/game/engine/round.go:169-178 | the dealer receives the extra tile, once, before play |
| Round.Round.Draw | internal/game/engine/round.go:209-217 | the first tile of the live wall goes to the current hand; an empty wall changes nothing |
| Round.Round.Discard | internal/game/engine/round.go:221-240 | the first copy of the tile moves from the current hand to its pile and the turn passes; a tile not held, or a round not being played, changes nothing |
| StepEffects.DiscardEffect | internal/game/engine/round.go:221-240 | the first copy of the tile leaves the current hand for the end of its pile, the turn goes to the next seat around the table, and nothing else changes |
| Round.Round.DeclareRiichi | internal/game/engine/round.go:245-263 | a closed hand discards, banks a stick for 1000 points and is marked, doubly on a first discard before any meld; errors change nothing |
| StepEffects.RiichiEffect | internal/game/engine/round.go:245-263 | a riichi takes the first copy of the tile out of a closed hand, costs that seat 1000 points, adds one stick, marks it, doubly when it has no discard and nobody a meld, and passes the turn; nothing else changes, and on either error nothing at all |
| StepEffects.RiichiExactly | internal/game/engine/round.go:242-268 | after any engine steps a seat is in riichi exactly when it was or declared it on the way, and in double riichi exactly when it was or declared it before any meld and any discard of its own |
| StepEffects.SticksExactly | internal/game/engine/round.go:258-260 | over any engine steps there is one more stick for every accepted declaration |
| Round.Round.Candidates | internal/game/engine/round.go:274-293 | pon on two copies, kan on three, none under riichi |
| Round.Round.Call | internal/game/engine/round.go:297-319 | the claimer gives up `need-1` copies and takes the turn, the discard staying in its pile; too few copies change nothing |
| StepEffects.CallEffect | internal/game/engine/round.go:297-319 | the first two copies leave the claimer's hand, three for a kan, the meld is added last, the claimer is on turn, and nothing else changes |
| Round.Round.ResolveTsumo | internal/game/engine/round.go:124-143 | each loser pays its share and the winner collects the sum |
| Round.Round.ResolveRon | internal/game/engine/round.go:146-157 | the discarder pays the winner, at most what it has |
| Round.CutIsRemoval | internal/game/engine/round.go:226-236 | cutting the found index out of the hand removes one copy of the tile |
| Table.RemoveCopiesCount | internal/game/engine/round.go:303-315 | removing n copies takes exactly n copies of that tile and none of any other |
| Ledger.CallKeepsTiles | internal/game/engine/round.go:297-319 | a call only moves tiles from the hand into the meld |
| Ledger.RunKeepsTiles | internal/game/engine/round.go:116-319 | over any sequence of engine steps every tile keeps its number of copies in wall, hands, piles and melds, but for the extra tile of a round ended before its start |
| Ledger.TilesConservedExactly | internal/game/engine/round.go:116-178 | tiles are conserved exactly on the runs that do not end the round before starting it |
| RoundExamples.ExtraLost | internal/game/engine/round.go:116-119 | a new round that is ended at once is one copy short of its extra tile |
| Ledger.TsumoKeepsPoints | internal/game/engine/round.go:124-143 | a tsumo moves points without creating any, at any number of seats |
| Ledger.RonIsCapped | internal/game/engine/round.go:146-157 | a ron moves the payment or the discarder's score, whichever is less, and never drives a non-negative discarder below zero |
| Ledger.RunKeepsPoints | internal/game/engine/round.go:116-319 | over any sequence of engine steps scores plus 1000 per stick stay constant |
| Ledger.PointsOfEveryRun | internal/game/engine/round.go:75-319 | from a new round on that sum is players times the initial score |
| Ledger.RunKeepsDoubleRiichi | internal/game/engine/round.go:242-268 | double riichi always means riichi with a discard on record |
| Ledger.TsumoSettles | internal/game/engine/round.go:121-143 | at four seats the winner gains the ron price and at most 200 more, each loser pays whole hundreds, and a losing dealer pays no less than the others |
| TurnLoop.ApplyPlay | internal/game/loop.go:224-250 | riichi, tsumo, discard, and the discard that a failed tsumo falls back to, with the next seat or the end, as the function `Played`; what that changes is `StepEffects.PlayedEffect` and `Settlement.TsumoTurn` |
| StepEffects.PlayedEffect | internal/game/loop.go:224-250 | a play that goes on has thrown the named tile, or the first of the hand after a failed tsumo; a riichi is paid for and marked, and nothing else changes |
| StepEffects.BotIsHuman | internal/game/loop.go:191-217 | what a bot chooses is the same play as a human's riichi, tsumo or discard of that tile |
| Settlement.TsumoTurn | internal/game/loop.go:232-239 | a turn ends in a tsumo exactly when the seat answers tsumo and its own hand wins; then it is recorded, the round is over and every other seat has paid its share |
| Settlement.TsumoPaid | internal/game/loop.go:54-96 | a run that ends in a tsumo: since its last decision every other seat has paid the deciding seat what its own verdict costs, at four seats the ron price and at most 200 more, something whenever a name is listed or the hand is closed, and nothing else has moved |
| Settlement.RonPaid | internal/game/loop.go:104-121 | a turn that ends the round without a tsumo: another seat, a bot outside riichi, wins on the tile and the acting seat has paid it the price of its own verdict or all it had; the final scores are these |
| TurnLoop.AskRon | internal/game/loop.go:103-124 | the first pass over the other seats: a winning bot ends the round and is paid |
| TurnLoop.AskMelds | internal/game/loop.go:125-147 | the second pass: the first bot whose claim the engine accepts takes the turn |
| TurnLoop.OneTurn | internal/game/loop.go:61-92 | draw unless first, decide, play, and offer the tile that was named |
| TurnLoop.PlayTurns | internal/game/loop.go:54-96 | the loop over the mutable round leaves it as the function `Play` says, for every script |
| TurnSpec.WallShrinks | internal/game/loop.go:57-70 | each turn but the first takes exactly one tile off the live wall |
| Calls.NearestWins | internal/game/loop.go:98-124 | the tile goes to the nearest seat after the discarder that can win on it, among all other seats and not in riichi; nobody wins exactly when there is none |
| RoundExamples.HumanPassedOver | internal/game/loop.go:111-114 | seat 1 waits for the 7z that the dealer throws and would win; being no bot it does not, and the round goes on |
| RoundExamples.RiichiPassedOver | internal/game/loop.go:107-109 | the dealer declares riichi waiting for 7z, seat 1 draws and throws it: the dealer, a bot, would win and is not asked |
| Calls.NearestClaims | internal/game/loop.go:98-148 | claims come after wins; the nearest bot that wants and holds the rest of a set takes the turn, which passes on exactly when there is none |
| Calls.OfferedExactly | internal/game/engine/round.go:270-319 | what is offered is exactly what `Call` accepts of pon and kan from a seat without riichi |
| TurnRuns.RonPassCases | internal/game/loop.go:104-124 | only a bot outside riichi can win on a discard, and it is paid by the discarder |
| TurnPanics.PassBreaksExactly | internal/game/loop.go:104-124 | on every tile polling the other seats panics exactly when, of the seats outside riichi that it completes or whose check panics, the nearest one panics |
| TurnPanics.TurnPanicsExactly | internal/game/loop.go:57-124 | a turn panics exactly on a tsumo whose own hand panics, or when the tile it names breaks the pass after the play |
| TurnPanics.FailedTsumoPanics | internal/game/loop.go:240-248 | a tsumo that is no win and names no real tile panics exactly if some other seat is neither in riichi nor has claimed a pon |
| TurnPanics.OfferedIsThrown | internal/game/loop.go:86-99 | the tile offered to the other seats is the one just thrown exactly unless a failed tsumo named another than the first tile of the hand |
| RoundExamples.BlankTsumoPanics | internal/game/loop.go:240-248 | a human dealer with 123456789p 1234s 7z claims a tsumo and names no tile: the round panics |
| RoundExamples.RonOnUnthrownTile | internal/game/loop.go:240-248 | it names 7z, which it does not hold: its first tile is thrown and seat 1 wins on 7z |
| TurnRuns.PlayIsRun | internal/game/loop.go:54-148 | whatever the loop does is a sequence of engine steps |
| TurnRuns.PlayConserves | internal/game/loop.go:54-148 | every started round keeps all tiles and points to its end, whatever anybody answers |
| LoopHeads.DrawReachesDecision | internal/game/loop.go:57-73 | at a decision the engine's seat holds fourteen tiles and every other thirteen, tiles given up for melds included |
| LoopHeads.PlayedOk | internal/game/loop.go:224-250 | after a play every seat holds thirteen, and engine and loop have both moved one seat on |
| LoopHeads.ClaimedOk | internal/game/loop.go:102-148 | winning, claiming or passing keeps the invariants of the loop head |
| LoopHeads.EveryHeadOk | internal/game/loop.go:54-96 | wherever the loop starts, every loop head finds the right hand sizes, closed riichi hands and double riichi with a discard; started at the engine's seat, loop and engine name the same seat throughout |
| LoopHeads.RiichiAlwaysSound | internal/game/loop.go:54-168 | in every run from every seat, whatever the hands, a seat in riichi has no melds and double riichi is a riichi with its discard on record, at every loop head and at the end |
| RoundResults.DealtRiichi | internal/game/loop.go:14-17 | this holds from every deal and every seat the loop starts at |
| RoundResults.TurnsBounded | internal/game/loop.go:57-93 | at most one turn per live tile and one more |
| RoundResults.NeverLeftWaiting | internal/game/loop.go:57-93 | with that many answers the loop ends by itself |
| RoundResults.WinnerOnlyByTsumo | internal/game/loop.go:79-96 | every normal return leaves the round ended, with a winner on record exactly after a tsumo |
| RoundResults.RonIsForgotten | internal/game/loop.go:114-121 | wherever the loop started, after a ron the round ends as if drawn: the recorded winner is overwritten with -1 |
| RoundExamples.RonOverwritten | internal/game/loop.go:94-121 | dealt 111222333m 123p 7z, seat 1 rons the 7z that the dealer throws, is recorded, and is overwritten |
| RoundResults.RefusedExactly | internal/game/loop.go:224-250 | a decision stops the round exactly when the engine's seat does not hold the tile to be thrown or declares riichi on an open hand, with the matching error |
| RoundResults.EngineRefusesExactly | internal/game/loop.go:57-93 | a turn of a started round stops on an engine error exactly when its decision is refused; a draw or a call never stops it |
| RoundResults.OnlyAnswersFail | internal/game/loop.go:61-80 | over whole runs from any seat the only engine errors are a tile not held and a riichi on an open hand |
| RoundResults.InStepExactly | internal/game/loop.go:14-17 | a turn ends in step with the engine exactly when it began in step or a bot other than the acting seat wants the named tile and holds the rest of a set |
| RoundExamples.OutOfStep | internal/game/loop.go:14-17 | dealer at seat 0, loop at seat 1: the 7z that seat 1 names leaves the hand of seat 0, and loop and engine stay one seat apart |
| RoundResults.PonNeverWins | internal/game/loop.go:61-89 | a seat with a pon never has a winning length again |
| RoundResults.PonSeatsLocked | internal/game/loop.go:61-89 | at every later loop head of a run from any seat such a seat can neither ron nor tsumo |
| RoundExamples.PonThenLocked | internal/game/loop.go:61-89 | dealt 11m and odd tiles, seat 1 claims a pon of the dealer's 1m, and at the next head wins with no tile |
| RoundResults.BotTurn | internal/game/loop.go:191-250 | a turn of a built-in bot goes on, or panics, and panics exactly when its tile breaks the round, a condition on the state before the discard |
| RoundResults.BotsCanPlay | internal/game/ai/builtin.go:26-60 | from every state and for all levels there is a script of any length in which the bots pass and throw what their level chooses |
| RoundResults.BotsPlayOut | internal/game/loop.go:54-250 | a round among built-in bots never stops on an error; it panics exactly when some turn throws a breaking tile, and otherwise plays out |
| RoundResults.DealtRound | internal/deal/random.go:25-51 | from any shuffled deal on, whatever the players do, every tile of the mode shows exactly four times in wall, hands, piles and melds, dead wall included, and points are conserved |
| RoundResults.DealtBotRound | internal/game/loop.go:14-96 | a dealt round among built-in bots, started at its dealer, plays out, and panics exactly when some turn throws a breaking tile |
| RoundExamples.BotRoundPanics | internal/game/loop.go:104-124 | dealt 112233445566m 7z, seat 1 waits for its seventh pair; a novice dealer throws it and the round panics |
| Bots.DiscardByIsolation | internal/game/ai/builtin.go:64-86 | the first tile of greatest worth, which is what the normal and expert levels choose |
| Bots.NoviceDiscard | internal/game/ai/builtin.go:38-44 | a choice of the novice, whatever the random number |
| Bots.ChoosesHeld | internal/game/ai/builtin.go:38-97 | at every level the chosen tile is held |
| Bots.CanChoose | internal/game/ai/builtin.go:38-97 | every level has a choice for every hand, and all but the novice exactly one |
| Bots.BreaksPairExactly | internal/game/ai/builtin.go:62-97 | over plain tiles a pair is broken exactly when one is held and every unpaired tile is a terminal or honor |
| Bots.OrderOfDiscards | internal/game/ai/builtin.go:62-97 | over documented tiles: the highest unpaired 2 to 8, else the first tile of a pair or red five, else the first terminal, else the first tile, of equals the earliest |
| Examples.PairBroken | internal/game/ai/builtin.go:62-97 | of 55m 1p 9s 1z the normal and expert bots throw a five |
| Deal.FilterInPlace | internal/deal/random.go:71-77 | filtering a slice onto its own front keeps exactly the tiles to keep, in order, although reads and writes share the array |
| Deal.BuildDeck | internal/deal/random.go:57-89 | each tile of the mode four times and no other: 136 tiles, or 108 for three players |
| Deal.Shuffle | internal/deal/random.go:27 | any sequence of swaps keeps the number of each tile |
| Deal.BuildShuffledWall | internal/deal/random.go:22-51 | for every shuffle thirteen tiles a seat, one extra, fourteen set aside and the rest to draw, each tile of the mode four times in all |
| Deal.DealtInOrder | internal/deal/random.go:28-50 | thirteen tiles a seat from the front of the deck, then the extra tile, the last fourteen set aside, what is between them to draw |
| Protobuf.VarintRoundTrip | internal/protocol/wrapper.go:34-35 | reading a written varint gives the value and stops at its end, for all 64-bit values (section "Base 128 Varints") |
| WireAnswers.VarintBytes | internal/protocol/wrapper.go:34-35 | a varint holds the seven-bit groups of its number, lowest first, all marked but the last, which is not zero |
| WireAnswers.ReadsSevens | internal/protocol/wrapper.go:45-63 | whatever is read as a varint is marked bytes up to one that is not, in such groups |
| WireAnswers.ReadableExactly | internal/protocol/wrapper.go:45-63 | a varint is read exactly when it ends within ten bytes and the tenth adds at most one bit |
| Protobuf.TagRoundTrip | internal/protocol/wrapper.go:45-48 | a written tag reads back as its field number and wire type (section "Message Structure") |
| Protobuf.BytesRoundTrip | internal/protocol/wrapper.go:53-56 | a length-delimited value reads back and stops at its end |
| Wrapper.AppendFramePart | internal/protocol/wrapper.go:14-24 | appends the two fields, empty ones left out, behind what was there |
| Wrapper.DecodeWrapper | internal/protocol/wrapper.go:43-75 | the loop terminates on every byte string, fails exactly on malformed records, and otherwise gives the last value of each field |
| Wrapper.LastOneWins | internal/protocol/wrapper.go:43-75 | a record followed by another decodes to the first overridden field by field by the second (section "Last One Wins") |
| WireAnswers.SkipsOthers | internal/protocol/wrapper.go:52-63 | a length-delimited field of another number changes nothing |
| WireAnswers.SkipsNumbers | internal/protocol/wrapper.go:64-69 | a varint field of any number changes nothing |
| WireAnswers.RefusesTypes | internal/protocol/wrapper.go:70-72 | a field of any other wire type makes the record malformed |
| WireAnswers.RefusesNumbers | internal/protocol/wrapper.go:45-48 | so does a field number of zero or past 2^31 - 1 |
| WireAnswers.RefusesCutText | internal/protocol/wrapper.go:52-56 | so does a text that is cut short |
| Wrapper.FramePartRoundTrip | internal/protocol/wrapper.go:14-75 | decoding an encoded wrapper gives both fields back, absent ones as empty |
| XorCodec.XORCodec | internal/protocol/xor.go:7-15 | the codec into a fresh slice; its bytes are `KnownAnswers.MixedNine` and the key laws below |
| XorCodec.XORCodecInPlace | internal/protocol/xor.go:19-26 | the same codec over the buffer itself |
| XorCodec.CodecTwice | internal/protocol/xor.go:5-26 | applying it twice gives the payload back |
| XorCodec.XorAt | internal/protocol/xor.go:11 | bit by bit the exclusive or is set where exactly one side is |
| XorCodec.CodecByBits | internal/protocol/xor.go:5-26 | a byte changes in exactly the bits of its key |
| KnownAnswers.MixedShort | internal/protocol/wire_test.go:11-34 | 0a 03 61 is mixed to 92 74 0d |
| KnownAnswers.MixedNine | internal/protocol/wire_test.go:11-34 | 0a 01 31 12 01 37 18 01 01 is mixed to a8 80 47 7d 6a ee 43 a0 63 |
| KnownAnswers.NineKeys | internal/protocol/xor.go:3-15 | the first nine key bytes of a payload of nine |
| XorCodec.KeyRepeats | internal/protocol/xor.go:3-15 | nine positions on, the key is 45 further, modulo 256 |
| XorCodec.KeyMoves | internal/protocol/xor.go:7-15 | between two lengths the key moves by the difference of 23 xor the length, at every position; with the two above this fixes every key byte |
| Base64.DecodeEncode | internal/protocol/wrapper.go:31 | decoding what was encoded gives the bytes back, for every length (section 4 of RFC 4648) |
| WireAnswers.Alphabet | internal/protocol/wrapper.go:31 | the 64 digits in order (section 4 of RFC 4648) |
| WireAnswers.GroupDigits | internal/protocol/wrapper.go:31 | three bytes are one number of 24 bits, spelled in four digits |
| WireAnswers.EncodesInGroups | internal/protocol/wrapper.go:31 | groups of three bytes are encoded one by one |
| WireAnswers.PadsRest | internal/protocol/wrapper.go:31 | one or two bytes left over are encoded as with zeros behind them, the digits of those replaced by padding |
| Frames.EncodeActionPrototype | internal/protocol/wrapper.go:28-41 | step, name and base 64 of the mixed payload as fields 1, 2 and 3 |
| WireAnswers.ActionA | internal/protocol/wrapper.go:28-41 | the record of action A at step 3 with payload 0a 03 61, byte by byte |
| Frames.DecodeFrame | internal/protocol/wire.go:64-86 | type, message id where there is one, wrapper; too short and malformed frames are told apart |
| WireAnswers.ErrorsExactly | internal/protocol/wire.go:64-86 | too short exactly below two bytes, three with a message id; malformed exactly when what follows the header is no record |
| WireAnswers.Heartbeat | internal/protocol/wire_test.go:36-63 | the heartbeat request with id 1, byte by byte, and what it decodes to |
| Frames.RequestRoundTrip | internal/protocol/wire.go:33-86 | a request decodes to its id, method and payload |
| Frames.ResponseRoundTrip | internal/protocol/wire.go:42-86 | a response decodes to its id and payload |
| Frames.NotifyRoundTrip | internal/protocol/wire.go:51-86 | a notify decodes to its name and payload exactly when they are not both empty; that one is too short |
| SimClient.ReadWordLoop | cmd/simclient/main.go:357-381 | the client's varint loop, or-ing shifted bytes into a 64-bit word, on every byte string |
| SimClient.OrAdds | cmd/simclient/main.go:361 | no two bytes of a varint share a bit, so the or of the shifted bytes is their sum |
| SimClient.WordRoundTrip | cmd/simclient/main.go:357-381 | the client reads every varint the library writes |
| WireAnswers.SameNumber | cmd/simclient/main.go:357-381 | what the library reads as a varint the client reads as the same number, also where it is longer than need be |
| WireAnswers.SpanExactly | cmd/simclient/main.go:335-345 | a text whose end does not fit an int panics the client, one that passes the end of the record is refused, every other is read |
| SimClient.ParseActionProto | cmd/simclient/main.go:318-355 | the client's parser, including records it gives up on and lengths that overflow |
| WireAnswers.ClientSkips | cmd/simclient/main.go:346-351 | fields other than one to three are read as a number and skipped, whatever their wire type |
| SimClient.ParsesActionPrototype | cmd/simclient/main.go:318-355 | it recovers step, name and data from every record the server writes |
| SimClient.ActionRoundTrip | cmd/simclient/main.go:293-306 | frame, wrapper, action record, base 64 and XOR undone by the two decoders give the original name, step and payload |
| Rooms.PigeonHole | internal/room/service.go:181-196 | no more robot ids can be taken than there are players |
| Rooms.RobotIsFree | internal/room/service.go:181-196 | the id found is free |
| Rooms.CreateKeeps | internal/room/service.go:77-92 | a create keeps the invariant exactly when no account is left pointing at a room id that is handed out again |
| RoomRuns.RoomReplaced | internal/room/service.go:77-92 | account 5 opens a room, account 6 opens 2^32 more: the last takes the number of the first, and the entry of account 5 names a room it does not sit in |
| Rooms.RunKeeps | internal/room/service.go:77-206 | over any operations the index points at rooms that list the account, ids in a room are distinct and occupancy stays between 1 and the capacity |
| Rooms.EveryRunFromEmpty | internal/room/service.go:58-206 | from the empty service this holds after every run, until the room counter wraps |
| Rooms.LeaveForgets | internal/room/service.go:134-151 | after a leave the account has no entry, and it sits somewhere exactly when it sat in another room |
| Rooms.SeatedWithoutEntry | internal/room/service.go:134-151 | create, create, join, leave: account 1 sits in room 2 and has no entry |
| RoomRuns.IndexedExactly | internal/room/service.go:77-206 | over a whole run every human in a room has an entry, at every moment, exactly when no leave cleared the entry of an account that sat elsewhere |
| RoomRules.SitsExactly | internal/room/service.go:77-206 | which accounts sit in a room after a step: its creator, a joiner of a room that is not started and has space, and those that were there and do not leave it |
| RoomRules.JoinAnswers | internal/room/service.go:111-131 | a join fails with NotFound exactly without a room, with Started exactly when it is started, with Full exactly when it is not, has no space and does not seat the account; a failure changes nothing |
| RoomRules.JoinAddsLast | internal/room/service.go:127-129 | otherwise an account that is not there is added last and indexed, and nothing else changes |
| RoomRules.StartedStays | internal/room/service.go:77-206 | over any operations, unless its number is handed out again, a started room stays started until it is discarded, and every human in it was there at the start |
| RoomRules.NoJoinAfterStart | internal/room/service.go:111-118 | after any such operations a join of that room fails and changes nothing: with Started while the room is there, with NotFound after that |
| RoomRules.StartedForGood | internal/room/service.go:58-206 | from the empty service, before the counter wraps, this holds of every room that was ever started |
| RoomRules.StartedRefuses | internal/room/service_test.go:53-56 | create, start, join by another account: Started |
| RoomRules.TwoIsFull | internal/room/service_test.go:66-78 | a room for two takes one more account and refuses the next with Full |
| RoomRules.RobotAddsLast | internal/room/service.go:169-196 | a robot is added last, under the least free number after a thousand times the room's, modulo 2^32 |
| RoomRules.LeaveTakesOut | internal/room/service.go:134-151 | a leave takes the player out from between its neighbours; the last one to go takes the room along |
| RoomRules.ReadySets | internal/room/service.go:154-166 | readiness changes the flag of that player and nothing else in the service |
| RoomService.Service.Create | internal/room/service.go:77-92 | a fresh room object under the next id, the owner indexed |
| RoomService.Service.Join | internal/room/service.go:111-131 | a player is added once and last, unless the room is missing, started or full; over runs `RoomRules.NoJoinAfterStart` |
| RoomService.Service.Leave | internal/room/service.go:134-151 | all entries of the account leave the room, its index entry goes, an emptied room goes |
| RoomService.Service.SetReady | internal/room/service.go:154-166 | the first entry of the account changes and no other |
| RoomService.Service.RobotId | internal/room/service.go:181-196 | stops within one candidate more than there are players, at an id nobody in the room has |
| RoomService.Service.AddRobot | internal/room/service.go:169-179 | a robot with a free id joins unless the room is full; the index does not list it |
| RoomService.Service.Start | internal/room/service.go:199-206 | only the started flag changes |

## Left out

- CheckWin: a blank claimed tile, which no engine step produces, is modelled as a panic for open runs too; the names of the yaku are part of the verdict but not of the win that the round settles.
- PlayTurns: the human's hand is sorted once between the deal and the loop; the model's deals come in any order, so results cover that one.
- Calc: rinshan, chankan, ippatsu and riichi are inputs that `CheckWin` never sets; `Tanyao` and `Chanta` are predicates, as their loops only scan.
- CountDora: an indicator that is not a documented tile is read character by character, not as the bytes of its encoding.
- Fu: needs a result whose pair and sets are tiles and single-digit winds; the special shapes fail the first, which is what `CrashExactly` says. Kans are priced, but `CheckWin` never builds one.
- CountTiles: a tile whose slot falls outside the array panics; the precondition names exactly the others.
- SortTiles: a hand with an empty tile panics, so none is allowed.
- BasePoints: the shift panics below -2 han, so none is allowed; fu is not negative.
- ResolveTsumo: integers are unbounded here; scores never come near the 64-bit limits.
- SplitSets: its branches and its scans are methods of their own, and the accumulator is an object around a sequence.
- Round.Round.constructor: honba and the round's wind, which nothing modelled reads, are not kept; a wall with fewer hands than seats panics.
- Candidates: chi is never offered by the engine, so runs are never claimed; `Call` itself is modelled for every kind of meld.
- PlayTurns: pushing notifies to clients always succeeds, the step numbers they carry are not counted, and the record saved after the round is not modelled.
- PlayTurns: human input is an arbitrary answer or a cancelled wait; channels and goroutines are not modelled.
- RonPass: the verdicts on all seats are computed before the pass, which then reads them in order; checking a hand has no effect, so only a panic could tell, and it is read in the same order.
- BotsPlayOut: starts in step with the engine; from another seat a bot can name a tile that the engine's seat does not hold, which `EngineRefusesExactly` describes.
- FailedTsumoPanics: starts in step with the engine; `TurnPanicsExactly` covers every start.
- RoundExamples: two seats, the fewest that can claim from each other.
- Shuffle: the random source is an arbitrary list of swaps.
- BuildShuffledWall: more seats than the deck can serve panic, so none are allowed; preset walls are not modelled, as their pinned tiles are not taken out of the shuffled rest.
- Base64.Decode: the library also skips line breaks, which the encoder never writes.
- Parse: of the wire format the wrapper's decoder accepts varints and length-delimited fields; so does the model, with the library's limits on tags and varints.
- ParseActionProto: slices are shorter than 2^63 bytes, as in the language.
- ActionRoundTrip: ends at the recovered payload; decoding it by its schema needs the message registry.
- EveryRunFromEmpty: rooms have a capacity of at least one and fewer than 2^32 - 2 are created; `CreateKeeps` says what goes wrong afterwards.
- Service.Create: mode, live flag and the nickname lookup are not kept apart; the profile is a parameter.
- Service.Join: the room pointers handed to callers, through which a caller could write past the service, are not modelled.
- Ittsu, chanta and junchan are modelled as they are; that they depart from the rules of the game is not stated, as no comment says what they are for. The open wait that a comment asks of pinfu is not looked at by the code.
- ParseTiles, TileString, SortHand and the Effective step: easy or unused by the loop.
- External bots, transport, gateway, administration, configuration, storage, lobby messages, shop, gacha and achievements: input, output and library wrappers.
