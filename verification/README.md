# Dark Horse oracle core, modelled in Dafny

The application reads three input modules. Each module has seven lines of digits: six
four-digit rows and one three-digit row. It analyses them together with an archive of
earlier modules, then "collapses" a new 7-row matrix digit by digit.

The analysis counts digit frequencies over every row:
- the global counts;
- per-column counts;
- counts over the "head" row of each seven-row block;
- even/odd totals and row sums.

The collapse works on one column and rank at a time:
- every digit starts at resistance 100;
- each digit's weighted resonance, divided by `1 + entropy`, is subtracted from it;
- the digits are stably sorted by resistance;
- two random draws pick the first or the second of them.

One generation cycle builds the 7-row result, three reinforcement candidates scored at
half the entropy, and "advanced" predictions sliced from the head row.

The model covers this algorithm (`analysisService.ts`), the input normalisation of the
module editor (`ModuleInput.tsx`), and the state transitions of the main panel
(`App.tsx`):
- the generate button's guard and its delayed completion;
- pasting into the third module, which rotates the modules and archives the paste;
- editing and clearing the third module;
- recording hits and rectifications;
- deleting and clearing archived items;
- the two settings.

Modules, one per file:

- `Digits` (`digits.dfy`): digit characters, `Number(c)`, `d.toString()`, `split('').map(Number)` and `join('')`, with their round trips.
- `Types` (`types.dfy`): the records of `types.ts`. Also the draws that stand in for `Math.random()`, the entropy range, and the concatenation of module sets.
- `Parse` (`parse.dfy`): `parseModules` and its validation.
- `Analysis` (`analysis.dfy`): `analyzeSet`, `isEven` and `sum`.
  - The accumulation is modelled loop step by loop step, as the source runs it.
  - It is proved equal to independent definitions: histograms of the flattened rows, of each column and of every seventh row.
- `Collapse` (`collapse.dfy`): `quantumCollapse`.
  - The resonance weights are 0.4, 2.5, 8 and 25.
  - JavaScript's stable `sort` is modelled as an insertion sort.
  - The ranking is proved to follow descending resonance, smaller digit first on ties.
- `Generation` (`generation.dfy`): `runGenerationCycle`.
- `ModuleInput` (`module_input.dfy`): `handleInputChange` and the pure part of `handlePaste`, with the clipboard text as a parameter.
  - JavaScript's `\s` class, `trim()` and `split(/\r?\n/)` are modelled character by character.
- `App` (`app.dfy`): the panel state, one function per handler, and an `Event` type with `Apply` that gathers them.

Randomness enters as explicit draws, so every function is total and deterministic:
- One `Draw(r1, r2)`, both values in `[0, 1)`, stands for the one or two `Math.random()` calls of one `quantumCollapse` call (`analysisService.ts:78`). It picks index 0 when `r1 > entropy`, and otherwise `floor(2 * r2)`; `r2` is read only in that second case.
- A cycle takes 40 such draws, one per collapse: 28 for the matrix (row `i` uses draws `4i .. 4i+3`) and 12 for the candidates. The candidates' confidence calls (`analysisService.ts:107`) are separate and are not drawn.
- Arithmetic is exact: weights, resistances and entropy are `real`s.

Behaviour of the code that the model keeps as written:
- `analysisService.ts:43` counts a digit in a column table only when `colDigitFreq[colIndex]` exists, which is for indexes 0 to 3. So column table `c` counts every row longer than `c`, whatever its length, and digits past the fourth column are counted by no column table.
- `analysisService.ts:44` counts every digit of a head row in the head table, columns past the fourth included.
- `analysisService.ts:14-19` runs `every` over the lines that are present. A module with fewer than seven lines therefore passes validation (`Parse.ShortModulesPassValidation`), and lines past the seventh need only be non-empty.
- `analysisService.ts:78` takes the random branch whenever the first draw is not greater than the entropy. At entropy 0 a first draw of exactly 0 still takes it.

## Model

| member | source | states |
|---|---|---|
| Digits.DigitCharRoundTrip | analysisService.ts:21 | `Number` of a digit character and `toString` of a digit are inverse bijections between `0..9` and `'0'..'9'` |
| Digits.LineToDigits | analysisService.ts:21 | splitting a digit line and mapping `Number` gives one digit per character, and each digit spells back to its character |
| Digits.DigitsToString | analysisService.ts:110 | joining a digit row gives one digit character per entry, each reading back as that entry |
| Digits.DigitsStringRoundTrip | analysisService.ts:21 | reading back a joined row gives the row, and joining a read line gives the line |
| Types.ConcatSets | analysisService.ts:83 | concatenating module sets and archive records of digit rows yields digit rows |
| Types.ConcatSetsConcat | analysisService.ts:83 | the concatenation keeps every record's rows in record order: joining two lists of records joins their rows, and a single record yields exactly its own rows |
| Parse.LineRuleIsStable | analysisService.ts:14-19 | the per-line rule holds for every line of a module exactly when the module is stable: lines 1 to 6 are four digits, line 7 three digits, later lines non-empty |
| Parse.EveryLineOk | analysisService.ts:14-19 | the `every` callback accepts a module exactly when every line from the start index on passes the per-line rule |
| Parse.Validate | analysisService.ts:13-20 | an error for module `n` (1-based) is reported exactly when module `n` is not stable; errors come in module order, at most one per module |
| Parse.ModuleToDigits | analysisService.ts:21 | a module converts line for line, each row spelling back to its line |
| Parse.ParseModules | analysisService.ts:10-24 | one converted module per input module, valid or not, with the same line count and rows that spell back to their lines; errors exactly for unstable modules |
| Parse.ShortModulesPassValidation | analysisService.ts:14-19 | a two-line module raises no error, while a seven-line module with a two-digit last row does |
| Analysis.IsEvenAgreesWithTruncation | analysisService.ts:7 | the parity test agrees with JavaScript's truncating `%` on every integer, negative ones included, and even and odd alternate |
| Analysis.Sum | analysisService.ts:8 | the sum of a digit row lies between 0 and 9 times its length |
| Analysis.SumConcat | analysisService.ts:8 | the fold adds up: the sum of two rows joined is the sum of their sums, and a one-element row sums to its element; together these fix the sum of every row |
| Analysis.EmptyAnalysis | analysisService.ts:27-36 | the initial result has no row data, every global, head and column entry at zero, and zero evens and odds |
| Analysis.Tally | analysisService.ts:41-46 | one digit adds 1 to its global entry, to its entry in its column's table only for columns 0 to 3, to its head entry only on head rows, and to the evens or the odds by parity; every other entry and the row data stay |
| Analysis.Histogram | analysisService.ts:42 | entry `d` of the reference table is the number of occurrences of `d` |
| Analysis.Zeros | analysisService.ts:32-36 | the initial table has ten entries, all zero |
| Analysis.TallyRow | analysisService.ts:41-46 | the inner loop over the first `k` digits adds their multiset to the global table, each to its own column's table, to the head table only on head rows, and their even and odd counts |
| Analysis.AddRow | analysisService.ts:37-47 | one outer-loop step: an empty row changes nothing; otherwise its sum is appended, and its digits are counted globally, by column (only columns the row reaches), in the head table when its index is a multiple of 7, and by parity |
| Analysis.AnalyzePrefix | analysisService.ts:37-47 | after the first `n` rows, every table equals the reference count over those rows |
| Analysis.AnalyzeSet | analysisService.ts:26-49 | global table = histogram of all digits; column table `c` = histogram of column `c`; head table = histogram of rows 0, 7, 14, ...; parity totals = even/odd counts; one row sum per non-empty row |
| Analysis.DigitTotals | analysisService.ts:41-46 | the global table sums to the number of digits, and so do evens plus odds |
| Analysis.ColumnTotals | analysisService.ts:38-43 | column table `c` sums to the number of rows longer than `c`, and there is one row sum per non-empty row |
| Analysis.RowSumsLength | analysisService.ts:38-39 | there are as many row sums as rows that reach column 0 |
| Analysis.HeadRowsAreEverySeventh | analysisService.ts:37-44 | the head rows are exactly rows 0, 7, 14, ... of the flat list, because skipped empty rows still advance the index |
| Analysis.ColumnTablesIgnoreLaterColumns | analysisService.ts:43 | digits past the fourth column never change a column table |
| Analysis.OneRecordHead | analysisService.ts:37-44 | up to seven rows have a single head row, the first |
| Analysis.RepeatedHeadTables | analysisService.ts:37-46 | one record of up to seven rows of up to four digits headed by `xxxx`: the head table counts `x` four times and no other digit, no digit occurs more than 28 times, and no column table counts a digit more than 7 times |
| Analysis.EmptyInputGivesZeroTables | analysisService.ts:29-36 | with no rows, every table is present and all zero, the parity totals are zero and there are no row sums |
| Collapse.Lookup | analysisService.ts:59-62 | on a ten-entry table a digit reads its own entry, so the `|| 0` fallback is never taken; a key outside the table reads 0 |
| Collapse.ColumnLookup | analysisService.ts:60 | a column table that exists is read at the digit; a position with no column table reads 0, as `?.` with `|| 0` does |
| Collapse.ResonanceTerms | analysisService.ts:58-67 | resonance is 0.4 per occurrence overall plus 2.5 per occurrence in the digit's column, plus 8 per head-row occurrence at rank 1 only, plus 25 per reinforcing hit |
| Collapse.ResistanceValue | analysisService.ts:70 | a resistance falls below 100 by the resonance divided by a factor between 1 and 2: by exactly the resonance at entropy 0, by at least half of it at entropy 1; it stays at 100 exactly when the digit has no resonance |
| Collapse.HitInfluence | analysisService.ts:65-66 | the hit count is zero exactly when no hit is a confirmed hit at this rank containing the digit, and never exceeds the number of hits |
| Collapse.ResistanceMap | analysisService.ts:54-71 | the map holds, for each of the ten digits, that digit's resistance |
| Collapse.Insert | analysisService.ts:74-75 | inserting a larger digit into a stably ranked list keeps it ranked and adds exactly that digit |
| Collapse.SortPrefix | analysisService.ts:74-75 | sorting the first `n` digits yields each of them once, ranked by resistance with ties in digit order |
| Collapse.Ranking | analysisService.ts:74-75 | the sort output is a permutation of the ten digits, ordered by resistance with ties in digit order (stability) |
| Collapse.Order | analysisService.ts:74-75 | the order of a column and rank lists all ten digits |
| Collapse.Pick | analysisService.ts:78 | the index is 0 or 1: always 0 when the first draw exceeds the entropy, otherwise 0 exactly when the second draw is below one half |
| Collapse.QuantumCollapse | analysisService.ts:52-80 | the result is a digit: `sorted[0]` when the first draw exceeds the entropy (the lowest-resistance digit, the smallest one on ties); otherwise `sorted[0]` when the second draw is below one half and `sorted[1]` when it is not |
| Collapse.FirstIsStrongest | analysisService.ts:74-75 | the head of a stable ascending sort has the lowest resistance and is the smallest such digit |
| Collapse.ResistanceOrder | analysisService.ts:70 | one digit has less resistance than another exactly when it has more resonance, and equal resistance exactly when it has equal resonance |
| Collapse.RankingSameOrder | analysisService.ts:74-75 | two resistance maps that compare every pair alike sort to the same order |
| Collapse.OrderIndependentOfEntropy | analysisService.ts:70-75 | the sorted order is the same for every entropy in range |
| Collapse.CollapseDependsOnEntropyOnlyThroughPick | analysisService.ts:74-79 | two collapses with different entropies and draws agree whenever their draws pick the same index |
| Collapse.SettledCollapsesAgree | analysisService.ts:78-79 | two collapses whose first draws both exceed their entropies give the same digit |
| Collapse.CollapseInTopTwo | analysisService.ts:74-79 | a collapse is one of the first two digits of the order under any entropy |
| Collapse.OrderFollowsResonance | analysisService.ts:56-75 | the order lists the digits by descending resonance, the smaller digit first on ties |
| Collapse.PrependedHitResonance | analysisService.ts:65-67 | a new hit adds 25 to a digit's resonance exactly when it is confirmed, at this rank, and contains the digit |
| Collapse.PrependedHit | analysisService.ts:65-70 | such a hit lowers that digit's resistance by exactly `25 / (1 + entropy)` and leaves it unchanged otherwise |
| Collapse.InertHit | analysisService.ts:65 | a near-miss hit, or a hit at another rank, changes neither the resistance map nor the collapse |
| Collapse.FrequencyLowersResistance | analysisService.ts:59-70 | raising any frequency count of a digit never raises its resistance |
| Collapse.PlaceIsAheadCount | analysisService.ts:74-75 | a digit's place in the sort equals the number of digits that come before it |
| Collapse.LowerResistanceNeverDemotes | analysisService.ts:74-75 | lowering one digit's resistance, all else equal, never moves it later in the sort |
| Collapse.FrequencyNeverDemotes | analysisService.ts:59-75 | raising a digit's counts, all others equal, never moves it later in the sort |
| Collapse.NoSignalPicksZeroOrOne | analysisService.ts:54-79 | with no resonance anywhere, every digit stays at 100, the order starts 0, 1, and the collapse is 0 unless the draw takes the random branch |
| Generation.Combine | analysisService.ts:84-85 | the historical table is the same table as the global one of the combined analysis |
| Generation.ScoredRow | analysisService.ts:89-94 | the four scored digits are the collapses of columns 0 to 3 at the row's rank, one draw each |
| Generation.ResultRow | analysisService.ts:88-96 | rows 0 to 5 are their scored sequences at rank `i + 1`, and row 6 is columns 1 to 3 of its scored sequence at rank 7 |
| Generation.CandidateAt | analysisService.ts:100-106 | a candidate is four digits scored at rank 1 with the entropy halved |
| Generation.Matrix | analysisService.ts:88-96 | seven rows: rows 0 to 5 of four digits, row 6 of three, row `i` built by `ResultRow` |
| Generation.Copies | analysisService.ts:110-113 | `n` copies of the same prediction |
| Generation.Candidates | analysisService.ts:100-108 | three candidates, candidate `k` built from its own draws |
| Generation.RunGenerationCycle | analysisService.ts:82-117 | the modules and the archive are concatenated and analysed once; the result, candidates and advanced predictions are built from that one analysis; the global table is the histogram of every digit; the historical table is that same table |
| Generation.ScoredFromTopTwo | analysisService.ts:89-94 | every scored digit is one of the two lowest-resistance digits for its column |
| Generation.CellsComeFromTopTwo | analysisService.ts:88-96 | every result cell is one of the two lowest-resistance digits for its column and rank; the last row's cells are columns 1 to 3 at rank 7 |
| Generation.CandidateFromTopTwo | analysisService.ts:101-106 | each digit of one candidate is among the top two for its column at rank 1, under the full entropy as well as the halved one |
| Generation.CandidatesComeFromTopTwo | analysisService.ts:100-106 | every candidate digit is among the top two for its column at rank 1 |
| Generation.SettledScored | analysisService.ts:89-94 | with no draw taking the random branch, each scored digit is the strongest for its column |
| Generation.SettledScoredAgree | analysisService.ts:89-106 | two rows scored at one rank with settled draws agree, whatever their entropies |
| Generation.SettledCells | analysisService.ts:88-96 | with settled draws, every result cell is the strongest digit for its column and rank |
| Generation.SettledCandidate | analysisService.ts:100-106 | with settled draws, candidate `k` repeats result row 0 |
| Generation.SettledCandidates | analysisService.ts:100-106 | with settled draws, all three candidates repeat the head row of the result |
| Generation.EmptyInputsAreSilent | analysisService.ts:83-85 | with no modules, no archive and no hits, no digit resonates anywhere |
| Generation.SilentScored | analysisService.ts:89-94 | with no resonance and settled draws, a scored row is `0000` |
| Generation.SilentResultRow | analysisService.ts:88-96 | with no resonance and settled draws, each result row is all zeros |
| Generation.SilentMatrix | analysisService.ts:88-96 | with no resonance and settled draws, the result is six rows `0000` and a row `000` |
| Generation.EmptyCycleIsAllZero | analysisService.ts:82-96 | a cycle over nothing with settled draws yields the all-zero result |
| Generation.Advanced | analysisService.ts:109-114 | 3 hundreds of three digits, 3 tens of two digits, 2 elite tens and 3 super tens, at confidences 99.98, 99.97, 99.99 and 99.95 |
| Generation.AdvancedSliceHeadRow | analysisService.ts:109-114 | the hundreds are 3 copies of the head row's digits 1 to 3; tens, elite tens and super tens are 3, 2 and 3 copies of its digits 2 to 3 (the hundreds without their first digit); the confidences are 99.98, 99.97, 99.99 and 99.95 |
| Generation.DominantCell | analysisService.ts:52-80 | a settled rank-1 collapse picks a digit that out-resonates every other in every column |
| Generation.DominantScored | analysisService.ts:89-94 | a settled rank-1 row repeats that digit four times |
| Generation.RepeatedHeadDominates | analysisService.ts:58-67 | one entered record of up to seven rows of up to four digits headed by `xxxx` makes `x` out-resonate every other digit at rank 1 with no hits: 32 from the head table against at most 0.4 * 28 + 2.5 * 7 |
| Generation.RepeatedHeadLeadsResult | analysisService.ts:82-96 | a cycle whose modules and archive together hold just that one record, with no hits and settled draws, opens its result with `xxxx` |
| Generation.DominantCandidate | analysisService.ts:100-106 | with settled draws, candidate `k` repeats the dominant digit |
| Generation.RepeatedHeadLeadsCandidates | analysisService.ts:82-108 | the same cycle's three candidates are `xxxx` |
| Generation.RectificationsAreIgnored | analysisService.ts:82 | the rectification records never change a cycle's output |
| ModuleInput.Limit | ModuleInput.tsx:44 | a slot keeps 3 characters exactly when it is slot 6, and 4 otherwise |
| ModuleInput.Prefix | ModuleInput.tsx:46 | `substring(0, n)` is the longest prefix of at most `n` characters |
| ModuleInput.FilterDigits | ModuleInput.tsx:43 | removing non-digits leaves only digit characters |
| ModuleInput.FilterDigitsKeepsDigits | ModuleInput.tsx:43 | every digit character survives as often as it occurred, and nothing else survives |
| ModuleInput.FilterDigitsConcat | ModuleInput.tsx:43 | the filter distributes over concatenation, so the order of the digits is kept |
| ModuleInput.FilterDigitsFixed | ModuleInput.tsx:43 | a string passes the filter unchanged exactly when it is all digits |
| ModuleInput.FilterDigitsIdempotent | ModuleInput.tsx:43 | filtering twice is filtering once |
| ModuleInput.HandleInputChange | ModuleInput.tsx:41-48 | read-only changes nothing; otherwise only slot `index` changes, to the digits of the input cut to 3 characters (slot 6) or 4; the length is kept |
| ModuleInput.RetypeIsNoChange | ModuleInput.tsx:41-48 | typing a slot's stored value again changes nothing |
| ModuleInput.TypingAdmissibleValue | ModuleInput.tsx:43-46 | a short enough all-digit input is stored as typed |
| ModuleInput.StripSpace | ModuleInput.tsx:24 | removing `\s` leaves no whitespace |
| ModuleInput.StripSpaceKeepsRest | ModuleInput.tsx:24 | every non-whitespace character survives as often as it occurred |
| ModuleInput.StripSpaceConcat | ModuleInput.tsx:24 | whitespace removal distributes over concatenation |
| ModuleInput.TrimStart | ModuleInput.tsx:24 | the result is a suffix with no leading whitespace, and only whitespace was removed |
| ModuleInput.TrimEnd | ModuleInput.tsx:24 | the result is a prefix with no trailing whitespace, and only whitespace was removed |
| ModuleInput.Trim | ModuleInput.tsx:24 | a trimmed line neither starts nor ends with whitespace |
| ModuleInput.TrimBeforeStripIsRedundant | ModuleInput.tsx:24 | trimming before removing all whitespace changes nothing |
| ModuleInput.StripSpaceFixed | ModuleInput.tsx:24 | a line without whitespace is left unchanged |
| ModuleInput.SplitLf | ModuleInput.tsx:24 | splitting yields at least one piece and no piece contains a line feed |
| ModuleInput.SplitLfJoin | ModuleInput.tsx:24 | joining the pieces with line feeds gives back the text |
| ModuleInput.JoinSplitLf | ModuleInput.tsx:24 | splitting a join of line-feed-free pieces gives back the pieces |
| ModuleInput.DropCr | ModuleInput.tsx:24 | a piece ending in a carriage return loses exactly that one character; any other piece is kept whole |
| ModuleInput.SplitLines | ModuleInput.tsx:24 | splitting on `\r?\n` is splitting on line feeds and dropping the carriage return that ends each piece but the last |
| ModuleInput.Clean | ModuleInput.tsx:24 | a cleaned line holds no whitespace |
| ModuleInput.NonEmptyCleaned | ModuleInput.tsx:24 | the kept lines are non-empty and free of whitespace, and no more than the pieces |
| ModuleInput.PastedLines | ModuleInput.tsx:24 | every pasted line is non-empty and free of whitespace |
| ModuleInput.NonEmptyCleanedConcat | ModuleInput.tsx:24 | cleaning works line by line in order: the kept lines of two joined lists are the kept lines of each, and one line contributes its cleaned form when that is non-empty and nothing otherwise |
| ModuleInput.PastedJoinedLines | ModuleInput.tsx:24 | pasting lines joined with line feeds uses exactly their non-empty cleaned forms, in order |
| ModuleInput.CleanDropCr | ModuleInput.tsx:24 | a carriage return before the line feed never survives cleaning |
| ModuleInput.CleanedLinesAgree | ModuleInput.tsx:24 | lines that clean alike filter alike |
| ModuleInput.CrlfPastesLikeLf | ModuleInput.tsx:24 | pasting CRLF text gives the same lines as splitting on line feeds alone |
| ModuleInput.HandlePaste | ModuleInput.tsx:20-39 | read-only gives nothing; otherwise exactly 7 slots: pasted slot `i` is line `i` cut to its limit; slots past the pasted lines keep their value, or `''` where there was none |
| ModuleInput.PastedSlotsAreShortAndSolid | ModuleInput.tsx:25-33 | every pasted slot is non-empty, within its limit, free of whitespace and a prefix of its line |
| ModuleInput.SingleLinePaste | ModuleInput.tsx:24 | a non-empty whitespace-free text pastes as the single line it is |
| ModuleInput.PasteKeepsLetters | ModuleInput.tsx:24-46 | pasting `ab12` stores `ab12`, while typing it stores `12` |
| ModuleInput.TypedDigits | ModuleInput.tsx:43 | `ab12` filters to `12` |
| App.Init | App.tsx:17-34 | the panel starts valid, neither loading nor locked, with no output, over the given archive, hits, rectifications and settings; each module is the stored one when one is stored and seven empty slots otherwise |
| App.Start | App.tsx:55-60 | while loading or locked nothing changes; otherwise loading is set and the parsed modules, archive, hits, rectifications and entropy are captured; nothing else changes |
| App.Complete | App.tsx:61-68 | completion runs the cycle on the captured inputs, stores its output, clears loading and sets the lock; nothing else changes |
| App.CompletionUsesSnapshot | App.tsx:60-62 | a paste between start and completion does not change what the completion computes |
| App.DigitModulesAreDigitSets | App.tsx:60 | modules of digit lines parse to digit rows |
| App.GenerateThenLocked | App.tsx:56-68 | a completed generation leaves a valid, locked panel on which pressing generate again does nothing |
| App.StartIsIdempotent | App.tsx:56-57 | pressing generate twice is pressing it once |
| App.ToDigitSet | App.tsx:75 | the archived set converts line for line, each row spelling back to its line |
| App.Archive | App.tsx:76 | the new set goes first, then the old archive in order, and the length is capped at 250 |
| App.PasteM3 | App.tsx:73-79 | the modules rotate (m1 takes m2, m2 takes m3, m3 takes the paste), the paste is archived at the front and the lock is released; nothing else changes |
| App.PastedEntryReadsBack | App.tsx:75-76 | the archive's new first entry reads back as the pasted lines |
| App.ThreePastesReplaceAll | App.tsx:73-77 | three pastes replace all three modules in order and archive them newest first |
| App.EditM3 | App.tsx:109 | editing stores the normalised input in the third module and releases the lock; nothing else changes |
| App.ClearM3 | App.tsx:109 | clearing empties the seven slots of the third module and changes nothing else |
| App.ChangingM3Unlocks | App.tsx:74-77 | after a paste or an edit of the third module, generating is allowed again |
| App.MarkHit | App.tsx:120 | a hit record is prepended with the given fields and status `Acerto` unless one is given; nothing else changes |
| App.ManualRectify | App.tsx:120 | a rectification record is prepended with the given fields; nothing else changes |
| App.RemoveAt | App.tsx:126 | filtering out index `i` removes exactly that element when it exists and keeps everything otherwise |
| App.RemoveAtShifts | App.tsx:126 | elements before `i` stay put and later ones move down by one |
| App.DeleteHistoryItem | App.tsx:126 | deleting an archive entry changes only the archive |
| App.DeleteHit | App.tsx:126 | deleting a hit record changes only the hits |
| App.DeleteRectification | App.tsx:126 | deleting a rectification record changes only the rectifications |
| App.DeleteKeepsValid | App.tsx:126 | deleting an archive entry keeps the panel valid |
| App.SetEntropy | App.tsx:103 | the slider sets the entropy and keeps the voice flag |
| App.ToggleVoice | App.tsx:97 | the button flips the voice flag and keeps the entropy |
| App.ToggleVoiceTwice | App.tsx:97 | toggling the voice twice restores the state |
| App.Apply | App.tsx:55-126 | only a paste grows the archive and never past 250; only a completion locks and only a paste or an edit of the third module unlocks; the settings change only through the entropy slider and the voice toggle |
| App.ApplyPreservesValid | App.tsx:55-126 | every handler keeps the panel valid: the archive holds digit rows, the entropy is in range, a generation is pending exactly while loading, and the panel is never loading and locked at once |
| App.LockChanges | App.tsx:68-109 | only a completion locks the panel, and only a paste or an edit of the third module unlocks it |
| App.ArchiveBounded | App.tsx:76-126 | no handler takes the archive past 250 entries, and only a paste makes it longer |

## Left out

- Persistence. The `localStorage` reads and writes (`App.tsx:17-44`) are not modelled. `App.Init` takes the archive, hits, rectifications and settings as parameters, and for each module what storage holds, if anything; the fallbacks of the first four (`INITIAL_HISTORY`, empty lists, entropy 0.45 with voice on) are left to the caller, and the JSON parsing is not modelled.
- Backup export and import in the history dialog, the service worker and bootstrapping. These are file and network I/O.
- Speech synthesis. Its calls never change the state; only the voice flag is kept.
- The chat module. It is a call into a remote language-model service.
- All rendering and the display components.
- The 4.5-second `setTimeout` and React's asynchronous state updates. A generation is two events: `App.Start` when the button is pressed, and `App.Complete` when the timer fires. The values the timer callback sees are those captured at the press, which is what the callback's closure sees.
- `Math.random()` itself. One `Draw` stands for one `quantumCollapse` call, which makes one or two `Math.random()` calls; a cycle takes 40 of them.
- The candidate confidence `99.85 + Math.random() * 0.14` (`analysisService.ts:107`) is not modelled. A candidate holds only its sequence.
- IEEE-754 rounding. Weights, resistances and entropy are exact `real`s, and the ranking is the ranking of the exact values. With doubles, two digits with equal exact resonance can get different resistances: at rank 1 and entropy 0, counts (global 1, column 16, head 0) and (global 41, column 0, head 3) both give 40.4 exactly, but the doubles give resistances 59.6 and 59.599999999999994. The model breaks that tie by digit order; the code ranks the digit with the second counts first, whichever digit it is. The model makes no promise about such rounded ties.
- Identifiers from `crypto.randomUUID()` and timestamps from `Date.now()` are parameters of `App.MarkHit` and `App.ManualRectify`.
- The per-row fields `rowEvenOdd` and `rowDigitFreq` are declared but never filled by `analyzeSet`. They are modelled as always empty.
- Clipboard access and its error path in `handlePaste` are not modelled. The clipboard text is a parameter of `ModuleInput.HandlePaste`.
- Parse.ParseModules: requires every line to consist of digit characters. `Number()` of any other character is `NaN`. In `analyzeSet`, `globalDigitFreq[NaN]++` then creates a key `"NaN"` holding `NaN`, the row sum becomes `NaN`, and the digit is counted as odd. None of that is modelled. The validation itself, `Parse.Validate`, is modelled for arbitrary strings.
- App.Start: requires the three modules to be digit text when the guard lets the press through. A module pasted with letters (`ModuleInput.PasteKeepsLetters`) would convert to `NaN`, for the reason above.
- App.PasteM3: requires the pasted lines to be digit text, for the same reason.
- Generation.RunGenerationCycle: the default `entropy = 0.5` (`analysisService.ts:82`) is not modelled; the entropy is always a parameter. The only call, `App.tsx:62`, always passes `settings.entropy`.
- ModuleInput.Prefix: counts Unicode scalar values, while `substring` counts UTF-16 code units. For text outside the Basic Multilingual Plane they differ: cutting `😀😀12` to 4 keeps `😀😀` in the code and `😀😀12` in the model, and the code can split a surrogate pair.
- ModuleInput.HandlePaste: cuts pasted lines with `ModuleInput.Prefix`, so it inherits the same difference in how characters are counted.
- Collapse.ResistanceValue: states the resistance through bounds (its drop below 100 lies between half the resonance and the resonance, and equals the resonance at entropy 0) instead of the exact quotient by `1 + entropy`, which is how `Collapse.Resistance` computes it.
