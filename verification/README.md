# Pattern Island: a Dafny model of the level generator, progression and hints

Pattern Island is a pattern-completion game for children. Each of its 110
levels shows a short sequence of tiles (colours, shapes, sizes, emoji, arrows,
letters, dot counts, numbers and more) and offers three options, one of which
continues the sequence. This project models the game's core and proves
properties of the model.

- **Level catalog** (`constants.ts`):
  - The difficulty of the *i*-th level of a category.
  - The Fisher-Yates shuffle.
  - The visual key that decides when two tiles look the same.
  - The base items of every category.
  - The NUMBER recurrences and the rhythm templates of the other ten categories.
  - The boss prefix.
  - The option builder, which guarantees three options with different looks.
- **Player statistics** (`App.tsx`):
  - The defaults.
  - The daily reset.
  - Badge unlocking.
  - The `handleLevelComplete` update: stars, experience, streak, fastest solve and daily counters.
  - The ranks.
  - The rule for moving to the next level.
- **Game screen** (`App.tsx`): the `handleChoice` state machine, with its 800 ms and 1000 ms timers.
- **Hint service** (`geminiService.ts`):
  - `trimHint`.
  - The local fallback hints.
  - The choice between a model reply and the fallback.

Randomness is an explicit oracle. Each shuffle receives a `Draw = nat -> nat`,
and the source's `Math.floor(Math.random() * (i + 1))` becomes `draw(i) % (i + 1)`.
Every permutation the source can produce comes from some oracle, so a property
proved for every oracle holds for every catalog the game can generate. The
clock and the current date are parameters. The model call of the hint service
is a parameter too: the reply it produced, or the fact that it threw.

Modules, one per concern:

| module | file | models |
|---|---|---|
| `Types` | types.dfy | The records of `types.ts`: items, levels, statistics. |
| `Text` | text.dfy | `String(n)` for integers, `trim`, splitting on white space, `join`, ASCII lower case. |
| `Seqs` | seqs.dfy | `Array.from(new Set(..))` and `filter(v => v !== x)` on sequences. |
| `Shuffling` | shuffle.dfy | `shuffle`. |
| `Visual` | visual.dfy | `getVisualKey`. |
| `Generator` | generator.dfy | `generateLevels` with `createBaseItem`, the templates and the option builder. |
| `Catalog` | catalog.dfy | Properties of every generated level. |
| `Patterns` | patterns.dfy | The rule each template's sequence follows, and that only the answer continues it. |
| `Progression` | progression.dfy | Statistics: defaults, daily reset, badges, `handleLevelComplete`. |
| `Session` | session.dfy | Ranks, the next-level rule and the `handleChoice` timers. |
| `Hints` | hints.dfy | `trimHint`, `localHintForLevel`, `getHintFromGemini`. |
| `LevelHints` | levelhints.dfy | How the fallback hints fit the generated NUMBER levels. |

## Model

| member | source | states |
|---|---|---|
| Text.NatToString | constants.ts:40 | The decimal text of a natural number is non-empty and made of digits only. |
| Text.ParseNatToString | constants.ts:40 | Reading the decimal text back gives the number: the text is a faithful encoding. |
| Text.IntToStringInjective | constants.ts:40 | Different integers have different texts, so tiles with different numbers get different value parts of the key. |
| Text.Strip | geminiService.ts:12 | Stripping a character class removes a leading and a trailing run of it and nothing else: the result is a slice of the input, everything cut off belongs to the class, no member of the class is left at either end, and a text without one at its ends is unchanged. |
| Text.Trim | geminiService.ts:12 | The trimmed text is a slice of the input with only white space cut off at each end, and it neither starts nor ends with white space. |
| Text.Words | geminiService.ts:13 | Splitting on white space and dropping empty pieces yields only non-empty words without white space. |
| Text.WordsOfJoin | geminiService.ts:15 | Joining words with single spaces and splitting again gives back the same words. |
| Text.LowerAscii | geminiService.ts:81 | Lower-casing keeps the length, maps A-Z to a-z and leaves every other character alone. |
| Seqs.FirstIndex | constants.ts:452 | `indexOf` finds an occurrence of the element and no earlier one. |
| Seqs.FirstIndexPrefix | constants.ts:452 | Appending elements does not move the first occurrence of an element already present. |
| Seqs.Dedupe | App.tsx:549 | Removing repeats leaves a list without duplicates and with exactly the input's members, ordered by where each first occurs in the input. |
| Seqs.DedupePrefix | App.tsx:549 | If the list was duplicate-free, deduplicating it with more elements appended keeps it as a prefix, in order. |
| Seqs.DedupeOfNoDups | App.tsx:549 | A list without duplicates is unchanged by deduplication. |
| Seqs.Without | constants.ts:452 | Filtering out a value keeps exactly the other members, in their input order and with their multiplicity: the result is a subsequence of the input whose length is the input's minus the occurrences of the value. A duplicate-free list stays duplicate-free. |
| Seqs.WithoutAbsent | constants.ts:452 | Filtering out a value that does not occur changes nothing. |
| Shuffling.Shuffle | constants.ts:10-17 | The shuffled array has the same length and the same multiset of elements as the input. |
| Shuffling.ShuffleOrder | constants.ts:10-17 | The order a shuffle produces on n positions is a permutation of 0..n-1. |
| Shuffling.ShuffleIsApply | constants.ts:10-17 | Shuffling an array reads it in the order `ShuffleOrder` gives, whatever its elements are. |
| Shuffling.ShuffleMembers | constants.ts:10-17 | An element is in the shuffled array exactly when it is in the input. |
| Shuffling.ShuffleIdentity | constants.ts:10-17 | Under the oracle that always draws the loop counter, no element moves. |
| Shuffling.ShuffleDownZero | constants.ts:12-15 | Under the oracle that always draws 0, the loop from counter i moves the elements at 1..i forward by one and puts the first element after them. |
| Shuffling.ShuffleZero | constants.ts:10-17 | Under the oracle that always draws 0, the shuffle rotates the array left by one. |
| Shuffling.ShuffleDownNoDups | constants.ts:12-15 | The swapping loop keeps a duplicate-free array duplicate-free. |
| Visual.JsRem | constants.ts:35 | JavaScript's `%` has the sign of the dividend and a magnitude below the divisor. |
| Visual.JsRemRotation | constants.ts:35 | `(r % 360 + 360) % 360` with JavaScript's `%` equals the mathematical residue of r modulo 360, negative angles included. |
| Visual.NormalizedRotation | constants.ts:35 | The key's rotation lies in 0..359, is the angle modulo 360, and is 0 when the item has no rotation. |
| Visual.ValueText | constants.ts:40 | A non-zero number shows as its decimal text and a non-empty string as itself; a missing value, 0 and "" all show as `none`. |
| Visual.KeyNormalisation | constants.ts:34-45 | The key ignores the id, identifies rotations a whole number of turns apart, reads a missing rotation as 0, and reads the value 0 as a missing value. |
| Visual.DistinctNumbersLookDifferent | constants.ts:40 | Two tiles showing different non-zero numbers never look alike. |
| Visual.DistinctRotationsLookDifferent | constants.ts:35 | Two items whose normalised rotations differ never look alike. |
| Generator.GetDifficulty | constants.ts:4-8 | Levels 1-3 are Beginner, 4-7 Intermediate and 8 onwards Advanced, each tier exactly on its range. |
| Generator.DistractorPool | constants.ts:469 | The distractor pool holds the 15 pool indices 4 to 18, in order. |
| Generator.LevelPalette | constants.ts:57-62 | The shuffled palette holds 9 distinct non-empty colours, 8 distinct shapes, 4 distinct non-empty emoji and the 4 right-angle rotations. |
| Generator.EmojiSetsNoDups | constants.ts:21-28 | Each emoji set holds four distinct, non-empty emoji. |
| Generator.Arithmetic | constants.ts:143-165 | A progression counting up by a constant step obeys the step rule, with every term at least 2 and below the answer. |
| Generator.Doubled | constants.ts:166-169 | The doubling progression obeys the doubling rule, with every term at least 2 and below the answer. |
| Generator.Growing | constants.ts:172-179 | The progression that adds 1, 2, 3, 4 obeys the growing-increment rule, with every term at least 2 and below the answer. |
| Generator.Fibonacci | constants.ts:180-187 | The progression that adds the last two obeys the sum rule, with every term at least 2 and below the answer. |
| Generator.DoubledPlusOne | constants.ts:188-196 | The progression that doubles and adds one obeys that rule, with every term at least 2 and below the answer. |
| Generator.NumberProgression | constants.ts:142-197 | The numbers of NUMBER level i, with the answer, obey the recurrence `RuleFor(i)` chosen by tier and by i modulo 2 or 3. |
| Generator.NumberStimulus | constants.ts:199-210 | A NUMBER level shows four number tiles that, with the answer tile, obey `RuleFor(i)`; the answer is above 2. |
| Generator.SizeVariants | constants.ts:251-281 | Every tier of SIZE has exactly four rhythm variants, chosen by (i - 1) modulo 4. |
| Generator.BossInstruction | constants.ts:432-434 | A boss level's instruction is the boss prefix followed by the template's instruction; other levels keep the instruction as it is. |
| Generator.SelectOptions | constants.ts:470-478 | The option loop keeps the options already chosen as a prefix, never exceeds three, keeps all looks distinct, and names each new option `opt-wrong-<position>`. |
| Generator.NumberDistractorValues | constants.ts:445-452 | The NUMBER distractor values are duplicate-free, never the answer, and are exactly the candidates around the answer other than the answer itself; for a non-negative answer all are at least 1. |
| Generator.RawOptions | constants.ts:436-479 | Before the final shuffle the correct item comes first, renamed `opt-correct`; there are one to three options, all looking different, the others named `opt-wrong-k`. |
| Generator.RenameSequence | constants.ts:488 | Renaming the sequence's tiles changes only their ids. |
| Generator.GenerateLevels | constants.ts:47-53 | The catalog has 110 levels: 11 categories of 10. |
| Catalog.ThreeLooksFill | constants.ts:470-478 | If the candidates contain three pairwise different looks, the option loop always reaches three options. |
| Catalog.SelectFills | constants.ts:470-478 | The option loop reaches three options whenever the candidates show enough looks that no option has yet. |
| Catalog.PoolWitnesses | constants.ts:64-123 | For every category but NUMBER, three pool indices in 4..18 give base items with pairwise different looks. |
| Catalog.MirrorPoolApart | constants.ts:114-117 | Pool indices 4, 5 and 6 give three MIRROR items with pairwise different looks, whatever the level and palette. |
| Catalog.AlphabetLetter | constants.ts:94-99 | An ALPHABET base item from pool index 4 to 6 shows the letter with code 65 + (i mod 10) + index. |
| Catalog.PoolItemOffered | constants.ts:469-472 | Every base item of the distractor range 4..18 is among the candidates, in some position. |
| Catalog.NumberOffered | constants.ts:454-461 | Every distractor value the filter keeps is offered as an orange `md` number tile. |
| Catalog.RawOptionsFull | constants.ts:436-479 | For every category, including NUMBER with a non-negative answer, the options reach three before the final shuffle. |
| Catalog.ShuffledOptions | constants.ts:489-490 | After the final shuffle there are still three different looks, and an option carries `opt-correct` exactly when it looks like the correct item. |
| Catalog.RawOptionsReady | constants.ts:436-479 | The unshuffled options are three different looks: the first is `opt-correct` with the answer's look, the other two carry other ids. |
| Catalog.BuildLevelOptions | constants.ts:436-491 | Every built level has three options with different looks, exactly one of them `correctAnswerId`, and it is the one that looks like the answer. |
| Catalog.GeneratedLevel | constants.ts:47-55 | The k-th generated level is level k mod 10 + 1 of category k / 10, with id k + 1. |
| Catalog.BuildLevelFields | constants.ts:481-491 | A built level carries its id, category, index, difficulty and boss flag (levels 5 and 10), its boss-prefixed instruction, its renamed sequence and `opt-correct` as the answer id. |
| Catalog.CatalogLayout | constants.ts:52-55 | Every level of the catalog has the id, category, index, difficulty, boss flag, instruction and answer id its position dictates, and its tiles are the template's tiles renamed. |
| Catalog.CatalogOptions | constants.ts:436-491 | Every level of the catalog offers three options with different looks, and exactly the option that looks like the answer carries `correctAnswerId`. |
| Catalog.NumberLevelStimulus | constants.ts:137-210 | A NUMBER level's sequence and answer are those of its recurrence, whatever the random draws. |
| Catalog.CatalogNumberLevels | constants.ts:137-210 | Levels 31 to 40 are the NUMBER levels, and their tile values with the answer obey the recurrence of their index. |
| Catalog.CatalogNumberTiles | constants.ts:199-210 | Every tile of a NUMBER level shows a number of at least 2. |
| Patterns.ColorFollows | constants.ts:213-231 | The COLOR template with its answer repeats with period 2, 3 or 6 by tier. |
| Patterns.ShapeFollows | constants.ts:232-250 | The SHAPE template with its answer repeats with period 2, 3 or 3 by tier. |
| Patterns.SizeFollows | constants.ts:251-281 | Each of the twelve SIZE variants with its answer follows its own rhythm: a repetition or the pairs rule. |
| Patterns.EmojiFollows | constants.ts:282-300 | The EMOJI template with its answer repeats with period 2, 3 or 6 by tier. |
| Patterns.RotationFollows | constants.ts:301-320 | The ROTATION template with its answer turns 90 degrees at every step for Beginner, and repeats with period 2 or 3 otherwise. |
| Patterns.AlphabetFollows | constants.ts:321-348 | The ALPHABET template with its answer moves 1, 2, or alternately 1 and 2 letters at every step. |
| Patterns.QuantityFollows | constants.ts:349-365 | The QUANTITY template with its answer grows by 1, by 2, or by 1, 2, 3, 4 dots. |
| Patterns.NatureFollows | constants.ts:366-385 | The NATURE template with its answer repeats with period 2, 4 or 5 by tier. |
| Patterns.FruitFollows | constants.ts:386-405 | The FRUIT template with its answer repeats with period 2, 3 or 6 by tier. |
| Patterns.MirrorFollows | constants.ts:406-424 | The MIRROR template with its answer reads the same backwards. |
| Patterns.StimulusFollowsRule | constants.ts:211-429 | For every category but NUMBER, every level and palette, the template's tiles with the answer follow the rule the template is built on. |
| Patterns.LevelFollowsRule | constants.ts:125-131 | Whatever the shuffled pool, the tiles of a level with its answer follow the template's rule. |
| Patterns.FollowsRenamed | constants.ts:488 | Renaming the tiles does not change whether the sequence follows a rule. |
| Patterns.CatalogFollowsRule | constants.ts:47-491 | In the generated catalog, every non-NUMBER level's shown tiles with its answer follow the intended rule. |
| Patterns.LookDetermined | constants.ts:34-45 | For a repetition, pairs or mirror rule, a candidate continues the sequence exactly when it looks like the answer. |
| Patterns.OnlyAnswerFollows | constants.ts:436-491 | On every level with such a rule, exactly the option carrying `correctAnswerId` continues the sequence by its rule; the other two break it. |
| Progression.DefaultStats | App.tsx:46-64 | A new player starts healthy, with today's counters at zero, nothing completed, no badges and every category unlocked. |
| Progression.WithFreshDaily | App.tsx:66-77 | After the reset the daily key is today's; nothing but the daily counters changes; a record from today is unchanged; one from another day starts today's counters at zero. |
| Progression.WithFreshDailyIdempotent | App.tsx:66-77 | Resetting twice on the same day is the same as resetting once. |
| Progression.WithFreshDailyHealthy | App.tsx:66-77 | The daily reset keeps a healthy record healthy. |
| Progression.Qualifying | App.tsx:85-92 | The badges listed are exactly those whose thresholds the counters reach: a boss, a best streak of 10, a solve within 7000 ms, 20 perfect solves. |
| Progression.UnlockBadges | App.tsx:85-92 | The new badge list is duplicate-free and holds exactly the old badges plus the qualifying ones; old badges keep their order at the front. |
| Progression.UnlockBadgesIdempotent | App.tsx:85-92 | Unlocking again right after unlocking changes nothing. |
| Progression.XpGain | App.tsx:537-541 | A completion earns 70 to 235 experience: 235 exactly for a fast, perfect Advanced boss solve, and 70 exactly for a slow, imperfect Beginner non-boss solve. |
| Progression.StarGain | App.tsx:545 | Stars: 100 exactly for a first boss completion, 50 exactly for another first completion, 10 exactly for a replay. |
| Progression.CompleteEffects | App.tsx:533-560 | A completion adds the star and experience gains, grows the streak only for a mistake-free solve and otherwise resets it to 1, keeps the best streak and fastest solve as a maximum and a minimum, and adds the boss, perfect and daily counts. |
| Progression.CompleteRecords | App.tsx:549-561 | The completed list gains the level, loses nothing and stays duplicate-free, old entries first; badges are kept, and every badge the new counters earn is added. |
| Progression.CompleteHealthy | App.tsx:533-566 | A completion keeps a healthy record healthy: streak within best streak, counters non-negative, daily counts consistent, lists duplicate-free, badges earned. |
| Progression.ReplayKeepsLevels | App.tsx:536-549 | Replaying a solved level leaves the completed list unchanged and earns only 10 stars. |
| Progression.RepeatedCompletionIsReplay | App.tsx:536-549 | When the same level is reported complete twice in a row, the second report counts as a replay: the completed list stays as after the first, and only 10 more stars are added. |
| Session.CurrentRank | App.tsx:29-35 | The rank shown is the highest rank whose floor the experience reaches. |
| Session.NextRank | App.tsx:100 | The next rank is the first one whose floor the experience has not reached; there is none once every floor has been reached. |
| Session.RankMonotone | App.tsx:99 | More experience never shows a lower rank. |
| Session.NextRankFollowsCurrent | App.tsx:99-100 | For non-negative experience, a next rank exists exactly below the top rank, and it is the rank right after the current one. |
| Session.NextLevel | App.tsx:568-572 | After a completion the game moves to the next id exactly when the current id is below the level count; otherwise it goes home. |
| Session.NextLevelWalk | App.tsx:568-572 | From a valid level the next id stays within the catalog, and the last level leads home. |
| Session.AdvanceFresh | App.tsx:568-572 | A completion whose captured id is the current id is exactly the next-level rule. |
| Session.IdAfterAdds | App.tsx:568-572 | Each completion reported by a callback captured below the last level adds one to the id, whatever the id has become in the meantime. A callback captured on the last level sends the game home. |
| Session.Choose | App.tsx:302-331 | After a right answer, clicks are ignored. A right click schedules the completion 1000 ms later with the mistakes and hint flag captured at the click. A wrong click adds a mistake and schedules clearing the feedback 800 ms later. |
| Session.AskHint | App.tsx:333-342 | Asking for a hint marks the level as hinted and touches neither the feedback, the timers nor the results. |
| Session.FirstDue | App.tsx:315-329 | The next timer to fire is the earliest due one, and the first scheduled among equals. |
| Session.RemoveAt | App.tsx:315-329 | A fired timer leaves the pending set, and nothing else does. |
| Session.RunTimer | App.tsx:326-329 | As written, the wrong-answer timer clears the feedback whatever it says, and a completion timer reports its captured result. |
| Session.RunTimerGuarded | App.tsx:326-329 | On the corrected screen, the wrong-answer timer clears only a `wrong` feedback. |
| Session.DoubleCompletionAsWritten | App.tsx:302-331 | As written, a timely run of clicks reports the level complete twice. |
| Session.FinishesConcat | App.tsx:315-321 | Pending completions of two timer lists add up. |
| Session.FinishesRemoveAt | App.tsx:315-321 | Firing a timer removes a pending completion exactly when it is a completion timer. |
| Session.StepKeepsOneCompletion | App.tsx:302-331 | On the corrected screen every event keeps the invariant "one completion, reported or pending, exactly while the feedback is `correct`". |
| Session.RunKeepsOneCompletion | App.tsx:302-331 | On the corrected screen every run of events keeps that invariant. |
| Session.AtMostOneCompletion | App.tsx:302-331 | On the corrected screen no run of events reports a level complete more than once. |
| Session.RaceCompletesOnceGuarded | App.tsx:302-331 | The clicks that complete twice as written complete once on the corrected screen. |
| Session.StaleCompletionsOverrun | App.tsx:568-572 | As written, the double completion moves the id from 109 to 111, which no level has, so `currentLevel` (App.tsx:522) falls back to the first level. From any id in 1..108 it moves two ahead, skipping the next level. |
| Session.GuardedStaysInCatalog | App.tsx:568-572 | On the corrected screen, any run of events on a valid level leaves a valid level id, or the game goes home. |
| Hints.StripQuotes | geminiService.ts:12 | Removing the quote runs cuts only double quotes, and only at the ends: the result is a slice of the reply with none left at either end. A text without quotes at its ends is unchanged. |
| Hints.TrimHintWordCount | geminiService.ts:11-16 | A trimmed hint never has more than twelve words. |
| Hints.TrimHintLong | geminiService.ts:15 | A hint of more than twelve words keeps its first eleven words verbatim, then the twelfth with `...` appended. |
| Hints.TrimHintShort | geminiService.ts:14 | A hint of at most twelve words is returned exactly as cleaned, with its inner spacing untouched. It keeps its words and neither starts nor ends with white space. |
| Hints.TrimHintEmpty | geminiService.ts:12 | The trimmed hint is empty exactly when the reply without its quotes is all white space. |
| Hints.NumbersIn | geminiService.ts:20-22 | The numbers a hint reads are exactly the tiles' numeric values. |
| Hints.NumbersInAllNumbers | geminiService.ts:20-22 | On tiles that all show numbers, the hint reads every value, in order. |
| Hints.Diffs | geminiService.ts:25 | The differences of consecutive numbers take each number to the next. |
| Hints.LocalHintIsSentence | geminiService.ts:18-56 | Every fallback hint is a non-empty sentence ending in `.` or `?`. |
| Hints.LocalHintDefaults | geminiService.ts:18-56 | Outside NUMBER the fallback hint depends on the category alone, and EMOJI, NATURE and FRUIT get the default hint. A NUMBER level showing fewer than four numbers gets the generic change hint. |
| Hints.SentenceNotGeneric | geminiService.ts:5-9 | No such sentence is one of the rejected generic hints, in lower case. |
| Hints.NumberHintMatchesRule | geminiService.ts:19-36 | For positive numbers the NUMBER fallback names the recurrence they obey, except for the growing increment started at 2. |
| Hints.GrowingFromTwoReadsAsSum | geminiService.ts:32-33 | The growing increment started at 2 is exactly 2, 3, 5, 8 with answer 12, and the fallback reads it as "add the last two", which gives 13. |
| Hints.ModelHintTrims | geminiService.ts:79 | A reply's text is trimmed; a missing text becomes the empty hint. |
| Hints.ResolveHint | geminiService.ts:58-87 | The hint returned is never empty or generic. With no key, or when the call throws, it is the local hint. Otherwise it is either the local hint or the trimmed reply. |
| Hints.ResolveHintUsesModel | geminiService.ts:79-82 | With a key, a non-empty, non-generic trimmed reply is returned as the hint, and it has at most twelve words. |
| LevelHints.NumberLevelNumbers | geminiService.ts:19-22 | On a generated NUMBER level the hint reads exactly the tile values, which obey the level's recurrence and start at 2 or more. |
| LevelHints.CatalogNumberHints | geminiService.ts:19-36 | On every generated NUMBER level but the ninth, the fallback hint names the recurrence the level is built on. |
| LevelHints.NinthNumberLevelHint | constants.ts:172-179 | The ninth NUMBER level shows 2, 3, 5, 8 and expects 12. Its fallback says to add the last two numbers, which gives 13. 13 survives the distractor filter whatever the draws, so it can be offered. |
| LevelHints.NinthDistractorValues | constants.ts:445-452 | For the answer 12 the filtered distractor values are 13, 14, 15, 11, 10, 17 when the shuffle leaves them in place, and 14, 15, 11, 10, 17, 13 under the all-zero oracle. |
| LevelHints.SelectFirstTwo | constants.ts:454-467 | When the first two candidates look different from the answer and from each other, the option loop offers the answer and exactly those two. |
| LevelHints.NinthRawOptions | constants.ts:436-467 | Before the final shuffle the ninth NUMBER level offers 12 and the first two filtered distractor values. |
| LevelHints.NinthLevelMayOfferThirteen | constants.ts:436-490 | Whether 13 is offered on the ninth NUMBER level depends on the draws: it is offered when the candidates stay in place, and not under the all-zero oracle, where 13 comes last. |

## Left out

- The `Math.random()` suffix of base item ids (`constants.ts:65`) is left out. No id built from it survives into a level, because sequence tiles and options are renamed.
- The distribution of `Math.random()` is left out. The shuffles quantify over every oracle, so every outcome is covered, but the model says nothing about probabilities.
- `String(n)` for non-integers and for numbers printed in exponent form is left out. Every number in the game is an integer of modest size.
- Hints.ResolveHint: `toLowerCase()` is modelled on ASCII letters only (`Text.LowerAscii`). Full Unicode case mapping, for example of the Kelvin sign, is not modelled.
- The loading and merging of saved statistics from `localStorage` (`App.tsx:498-521`) and writing them back (`App.tsx:524-526`) are left out. Storage and JSON parsing are I/O.
- `new Date()`, `getTodayKey()` and `Date.now()` are parameters (`today`, `now`, the event times).
- The screen rendering, sounds, confetti, the tier labels, the badge labels and the quest list of the home screen are left out.
- The rank progress percentage (`App.tsx:101-103`) is left out. It is floating-point arithmetic for display.
- The `currentLevel` fallback to the first level when no id matches (`App.tsx:522`) is not modelled as a function. It is reachable: after the double completion on level 109 the id becomes 111 (Session.StaleCompletionsOverrun). The model records that id but not the level then shown.
- Visual.Key: the tuple of six parts stands for the source's `|`-joined string only while no part contains `|`. That holds for every colour, shape, emoji, value and size the game uses, but not for an arbitrary item.
- The prompt text and generation settings sent to the model (`geminiService.ts:62-77`) are left out. The call is a parameter.
- Patterns.OnlyAnswerFollows: it covers only the rules fixed by looks (repetition, pairs, mirror). The stepping rules of ROTATION Beginner, ALPHABET and QUANTITY are not covered. Those rules read the numbers behind the tiles, and a distractor can coincidentally continue the steps.
- NUMBER options: Catalog.CatalogOptions covers their three distinct looks. Whether a wrong number also satisfies some other recurrence is not modelled.

## Findings

| source | as written | input that shows it | evidently intended | confidence | as-written member | corrected member |
|---|---|---|---|---|---|---|
| App.tsx:302-331 | The 800 ms timer of a wrong click always clears the feedback and the selection. If the right option is clicked within 800 ms of a wrong one, the timer wipes `correct`, and a second click on the right option schedules a second `onComplete`. | Wrong click at 0 ms, right click at 100 ms, right click again at 900 ms: the level is reported complete at 1100 ms and again at 1900 ms. | A wrong-answer timer clears only a feedback that is still `wrong`, so each level is completed once. | not executed | Session.DoubleCompletionAsWritten | Session.AtMostOneCompletion |
| App.tsx:568-572 | The next-level test reads the id captured in the completion callback, but the update adds one to whatever the id is by then. Two stale completions of one level therefore add two. | The double completion above on level 109: the id moves to 111, no level matches, and `currentLevel` falls back to level 1. On an earlier level the second report replays the level for 10 stars and skips the next level. | One completion per level, so the id advances by one and stays within 1..110. | not executed | Session.StaleCompletionsOverrun | Session.GuardedStaysInCatalog |
