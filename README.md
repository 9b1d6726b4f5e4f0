# Cipher game puzzle core, modelled in Dafny

The game is a Tk application of five cipher puzzles played in order. Each
puzzle is unlocked by solving its prerequisites, and answers are scored.
Each puzzle gives back one word:

1. river: a two-digit number-to-letter table.
2. bread: the arithmetic pattern `out = 2·in + 5`.
3. forest: a rotating ring of letters.
4. children: two dials with word fragments.
5. brick house: a final two-word decoder.

This project models the logic behind the widgets:

- the game state: the score, the global hint budget, the solved set and the persisted record;
- the answer checker and its progress queries;
- the three puzzle mechanisms;
- the slide navigation and answer checks the app itself performs;
- the fixed tables of puzzles 1 and 2;
- settings validation and the backup-file name rule;
- the keyboard-shortcut registry.

One module per source file:

| file | module | models |
|---|---|---|
| `py_text.dfy` | `PyText` | Python's `str.isspace`, `lower`, `strip`, `split` and `str(int)` on `seq<char>` |
| `game_state.dfy` | `GameStateModel` | `src/backend/game_state.py`: class `GameState` |
| `puzzle_manager.dfy` | `PuzzleManagerModel` | `puzzle_manager.py`: class `PuzzleManager` |
| `circular_cipher.dfy` | `CircularCipherModel` | `src/backend/puzzles/circular_cipher.py`: class `CircularCipher` |
| `dual_dial.dfy` | `DualDialModel` | `puzzles/dual_dial.py`: class `DualDialCipher` |
| `final_cipher.dfy` | `FinalCipherModel` | `src/backend/puzzles/final_cipher.py`: pure decoder |
| `cipher_tables.dfy` | `CipherTables` | the conversion table and pattern table drawn by `cipher_app.py` |
| `cipher_app.dfy` | `CipherAppModel` | navigation and answer checks of `CipherApp` |
| `settings.dfy` | `SettingsModel` | `settings.py`: validation and backup name |
| `event_manager.dfy` | `EventManagerModel` | `src/backend/event_manager.py`: class `EventManager` |

Objects whose methods update fields are classes with `modifies` clauses:

- `GameState`, `PuzzleManager`, `CircularCipher`, `DualDialCipher`, `CipherApp`, `AppSettings` and `EventManager`.
- Their loops are methods with invariants, proved against specification functions:
  - `SaveState` over the record list;
  - `GetCurrentMapping` over the ring;
  - `ValidateAndUpdate` and `MergeInto` over the settings document;
  - `BackupName` over candidate names;
  - `UnbindAll` and `BindShortcuts` over the window bindings.
- The decoder and the tables are pure and are modelled as functions and lemmas.

Several places where the code behaves differently from what its comments
and documentation describe are modelled as the code is written:

- `hint_levels` is created as all zeros (src/backend/game_state.py:9) and nothing ever increments it. So every correct answer in `PuzzleManager` earns the 50-point bonus, even after hints (`HintedAnswerStillEarnsBonus`).
- The hint text is chosen from the global remaining-hint counter, not from a per-puzzle level (`HintText`).
- `is_all_completed` compares sizes only, so a solved set holding an id outside 1..5 counts as complete (`CompletedBySizeOnly`).
- The ring's `get_current_word` reads the numbers 4 3 5 1 1 4. Its first and last letters, and its fourth and fifth, are always equal, so it never spells the answer "forest" (`WordNeverForest`).
- The app's own `check_answer` lower-cases but does not strip. It is therefore stricter than `PuzzleManager.check_answer`, which strips (`LeadingBlankRejected`, `UiStricterThanManager`). It also gives no bonus.
- `_update_dial` raises inside its `try` for any dial type other than "red" or "blue", because only those two have a display. The win check is then never reached (`DualDialCipher.UpdateDial`).

## Model

| member | source | states |
|---|---|---|
| PyText.Lower | puzzle_manager.py:72 | `lower()` keeps the length, maps each ASCII capital to its letter of the lower-case alphabet, leaves no upper-case ASCII letter and keeps every other character |
| PyText.Strip | puzzle_manager.py:72 | `strip()` yields a string that neither starts nor ends with whitespace and is no longer than the input |
| PyText.StripAround | puzzle_manager.py:72 | stripping a word padded on both sides with any whitespace gives back exactly the word |
| PyText.Split | src/backend/puzzles/final_cipher.py:37 | `split()` yields only non-empty tokens without whitespace |
| PyText.SplitJoin | src/backend/puzzles/final_cipher.py:37 | splitting `a + " " + b` gives the tokens of `a` followed by those of `b` |
| PyText.SplitJoinSpace | src/backend/puzzles/final_cipher.py:37 | splitting space-joined tokens gives back those tokens (round trip) |
| PyText.NatToString | settings.py:108 | `str(n)` is all decimal digits with no leading zero (it starts with '0' only for 0), a single digit exactly when n < 10, and read back left to right (`DigitsValue`) it is n again |
| PyText.NatToStringInjective | settings.py:108 | different numbers print differently |
| GameStateModel.DependenciesAcyclic | src/backend/game_state.py:18-24 | the prerequisite table covers puzzles 1..5 and every prerequisite has a smaller number, so the graph is acyclic |
| GameStateModel.CanAccess | src/backend/game_state.py:28-32 | an id outside the table is never accessible; puzzle 1 always is |
| GameStateModel.AccessChain | src/backend/game_state.py:18-32 | access holds iff the listed prerequisites are solved: 2 needs 1, 3 needs 1 and 2, 4 needs 3, 5 needs 4 |
| GameStateModel.AccessMonotone | src/backend/game_state.py:32 | solving more puzzles never closes an open one |
| GameStateModel.Hints | src/backend/game_state.py:52-65 | each known puzzle has two non-empty hints, an unknown one none |
| GameStateModel.PyIndex | src/backend/game_state.py:67 | Python list indexing: defined iff -len <= i < len, negative indices count from the end |
| GameStateModel.HintText | src/backend/game_state.py:50-67 | the hint chosen for each value of the global counter: the first at 2 or 4, the second at 3 or at most 1, an IndexError for unknown ids or a counter of 5 or more |
| GameStateModel.GameState.GetHintText | src/backend/game_state.py:50-67 | no hint exactly for an unknown id or a counter of 5 or more; any hint shown is one of the puzzle's two, the second once at most one hint remains |
| GameStateModel.HintProgression | src/backend/game_state.py:65-67 | with the counter at 2, 1, 0 the hints shown are the first, then the second, then the second again |
| GameStateModel.Restore | src/backend/game_state.py:92-95 | missing keys default to score 0, three hints, no solved puzzles and the current time; the solved list becomes its set |
| GameStateModel.RoundTrip | src/backend/game_state.py:74-95 | reading back a record written from a state gives that state again, for any order of the solved list |
| GameStateModel.GameState.constructor | src/backend/game_state.py:9-26 | the fresh state (0, 3, none solved, now), replaced by the saved record when there is one |
| GameStateModel.GameState.LoadState | src/backend/game_state.py:87-99 | no file leaves the four fields as they were; a record replaces them as `Restore` says; hint levels untouched |
| GameStateModel.GameState.SaveState | src/backend/game_state.py:72-79 | the record describes the current state exactly; its list holds each solved puzzle once |
| GameStateModel.GameState.CanAccessPuzzle | src/backend/game_state.py:28-32 | accessible iff the id is in the table and its prerequisites are a subset of the solved set |
| GameStateModel.GameState.MarkPuzzleSolved | src/backend/game_state.py:34-37 | adds the id to the solved set and changes no other field |
| GameStateModel.GameState.UseHint | src/backend/game_state.py:39-48 | no hint and no change for a closed puzzle or an empty budget; otherwise the budget drops by exactly one and the hint for the new counter is returned; score, solved set and hint levels unchanged |
| GameStateModel.GameState.UpdateScore | src/backend/game_state.py:126-128 | the score moves by exactly the given points, with no floor or ceiling; nothing else changes |
| GameStateModel.HintBudgetScenario | src/backend/game_state.py:39-48 | from three hints, three are given and the budget ends at zero, never below |
| GameStateModel.MarkTwice | src/backend/game_state.py:34-37 | marking a puzzle solved twice has the effect of marking it once |
| PuzzleManagerModel.RewardFor | puzzle_manager.py:74-79 | a correct answer is worth 150 exactly when the hint level is 0, otherwise 100 |
| PuzzleManagerModel.PuzzleDescription | puzzle_manager.py:90-92 | the description is empty exactly for ids outside 1..5 |
| PuzzleManagerModel.CountSolvedIsSize | puzzle_manager.py:97-98 | the generator count over distinct answer ids is the size of their intersection with the solved set |
| PuzzleManagerModel.SolvedCount | puzzle_manager.py:94-99 | the progress numerator is the number of puzzles 1..5 solved; it is 0 iff none is and 5 iff all are |
| PuzzleManagerModel.RemainingPuzzles | puzzle_manager.py:105-107 | remaining puzzles are a subset of 1..5 disjoint from the solved set, and together with the solved ones they make up 1..5 |
| PuzzleManagerModel.AllCompleted | puzzle_manager.py:101-103 | for a solved set within 1..5, complete exactly when all five are solved (CompletedBySizeOnly shows the size-only test outside that range) |
| PuzzleManagerModel.CompletedMeansNothingRemains | puzzle_manager.py:101-107 | when only ids 1..5 are solved, completion holds iff nothing remains iff all five are counted |
| PuzzleManagerModel.CompletedBySizeOnly | puzzle_manager.py:101-103 | the solved set {1,2,3,4,7} counts as complete while puzzle 5 still remains |
| PuzzleManagerModel.PuzzleManager.constructor | puzzle_manager.py:6-8 | the manager works on the given game state |
| PuzzleManagerModel.PuzzleManager.CheckAnswer | puzzle_manager.py:65-88 | correct iff the id is known and the lower-cased, stripped answer equals its answer; unknown id leaves the score; correct adds the reward for the hint level, wrong subtracts 10; only the score changes |
| PuzzleManagerModel.PuzzleManager.CalculateProgress | puzzle_manager.py:94-99 | the number of puzzles 1..5 in the solved set, at most 5 |
| PuzzleManagerModel.PuzzleManager.IsAllCompleted | puzzle_manager.py:101-103 | for a solved set within 1..5, complete exactly when all five are solved, and exactly when no puzzle remains |
| PuzzleManagerModel.PuzzleManager.GetRemainingPuzzles | puzzle_manager.py:105-107 | the ids 1..5 that are not solved |
| PuzzleManagerModel.CaseFoldedRiver | puzzle_manager.py:72 | "RIVER" and "River" normalise to "river" |
| PuzzleManagerModel.Normalize | puzzle_manager.py:72 | the compared answer is no longer than the typed one, has no leading or trailing whitespace and no upper-case ASCII letter |
| PuzzleManagerModel.PaddedRiver | puzzle_manager.py:72 | " river " normalises to "river" |
| PuzzleManagerModel.LongerWordRejected | puzzle_manager.py:72 | "rivers" does not match puzzle 1 |
| PuzzleManagerModel.NormalizeLowerWord | puzzle_manager.py:72 | a non-empty lower-case word normalises to itself, so each single-word answer is accepted as typed |
| PuzzleManagerModel.HintedAnswerStillEarnsBonus | puzzle_manager.py:74-79 | after a hint is used, a correct answer still scores 150, since hint levels never change |
| CircularCipherModel.Mod360 | src/backend/puzzles/circular_cipher.py:103 | Python's float `% 360` lands in [0, 360) and is the identity there |
| CircularCipherModel.Mod360Add | src/backend/puzzles/circular_cipher.py:103 | reducing after every step equals reducing the total once |
| CircularCipherModel.Mod360FullTurn | src/backend/puzzles/circular_cipher.py:103 | a full turn leaves the reduced angle unchanged |
| CircularCipherModel.Trunc | src/backend/puzzles/circular_cipher.py:112 | `int()` keeps the integer part: for r >= 0 the result n satisfies 0 <= n <= r < n + 1, and for r < 0 it satisfies n - 1 < r <= n <= 0 |
| CircularCipherModel.MappingFor | src/backend/puzzles/circular_cipher.py:110-117 | the mapping has keys 1..6, each sent to the letter shifted back by the offset |
| CircularCipherModel.WordAt | src/backend/puzzles/circular_cipher.py:119-123 | the word has six letters |
| CircularCipherModel.MappingAtStart | src/backend/puzzles/circular_cipher.py:110-117 | at angle 0 the mapping is 1→f, 2→o, 3→r, 4→e, 5→s, 6→t |
| CircularCipherModel.MappingInjective | src/backend/puzzles/circular_cipher.py:114-116 | different numbers get different letters at every offset |
| CircularCipherModel.MappingOnto | src/backend/puzzles/circular_cipher.py:114-116 | every ring letter is shown by some number, so the mapping is a bijection |
| CircularCipherModel.ModShift | src/backend/puzzles/circular_cipher.py:112-115 | the mapping depends only on the offset modulo 6 |
| CircularCipherModel.MappingTurnInvariant | src/backend/puzzles/circular_cipher.py:103-115 | a full turn of the ring gives the same mapping |
| CircularCipherModel.WordNeverForest | src/backend/puzzles/circular_cipher.py:119-123 | the word's first and last letters, and its fourth and fifth, agree, so it is never "forest" |
| CircularCipherModel.WordAtStart | src/backend/puzzles/circular_cipher.py:119-123 | at angle 0 the word is "ersffe" |
| CircularCipherModel.CircularCipher.constructor | src/backend/puzzles/circular_cipher.py:10-13 | angle 0, not rotating, numbers 1..6, letters f o r e s t |
| CircularCipherModel.CircularCipher.Rotate | src/backend/puzzles/circular_cipher.py:92-96 | ignored while rotating; otherwise the first tenth of the turn is made at once and step 1 is scheduled |
| CircularCipherModel.CircularCipher.AnimateRotation | src/backend/puzzles/circular_cipher.py:98-108 | steps 0..9 add a tenth of the target modulo 360 and schedule the next step; step 10 stops the rotation |
| CircularCipherModel.CircularCipher.RunScheduled | src/backend/puzzles/circular_cipher.py:106 | firing the pending callback performs the scheduled step |
| CircularCipherModel.CircularCipher.RotateAndSettle | src/backend/puzzles/circular_cipher.py:92-108 | a rotation run to the end leaves the ring at rest, turned by exactly the requested degrees modulo 360 |
| CircularCipherModel.CircularCipher.GetCurrentMapping | src/backend/puzzles/circular_cipher.py:110-117 | the loop builds the mapping for the current angle |
| CircularCipherModel.CircularCipher.GetCurrentWord | src/backend/puzzles/circular_cipher.py:119-123 | the word read through the current mapping |
| CircularCipherModel.TurnsCancel | src/backend/puzzles/circular_cipher.py:103 | +60 then -60, or six turns of +60, bring any angle in [0, 360) back to itself |
| DualDialModel.Fragment | puzzles/dual_dial.py:81-86 | a known option shows its fragment; no selection or an unknown option shows "" |
| DualDialModel.FragmentLength | puzzles/dual_dial.py:13-24 | every fragment has 0 or 4 letters |
| DualDialModel.Combined | puzzles/dual_dial.py:101-105 | the combined word has 0, 4 or 8 letters |
| DualDialModel.ChildrenIff | puzzles/dual_dial.py:101-105 | the combined word is "children" iff red is A or D and blue is W or Z |
| DualDialModel.CorrectPairAmongSpellings | puzzles/dual_dial.py:96-99 | D+Z wins and spells "children"; A+W, A+Z and D+W spell it too but do not win |
| DualDialModel.OnePairWins | puzzles/dual_dial.py:96-99 | of the sixteen option pairs exactly one, D with Z, wins |
| DualDialModel.DualDialCipher.constructor | puzzles/dual_dial.py:9-10 | both dials start unselected |
| DualDialModel.DualDialCipher.UpdateDial | puzzles/dual_dial.py:78-94 | "red" sets only the red selection, any other type only the blue one, even for an unknown option; returns the fragment shown; success iff the type has a display and the pair is D, Z |
| DualDialModel.DualDialCipher.IsCorrectCombination | puzzles/dual_dial.py:96-99 | a winning selection always spells "children" |
| DualDialModel.DualDialCipher.GetCombinedWord | puzzles/dual_dial.py:101-105 | red fragment followed by blue fragment |
| DualDialModel.WinningPresses | puzzles/dual_dial.py:78-99 | pressing red D then blue Z wins and shows "children" |
| FinalCipherModel.DecodeTokens | src/backend/puzzles/final_cipher.py:38-41 | never more letters than tokens, every letter from the table |
| FinalCipherModel.DecodeLengthExact | src/backend/puzzles/final_cipher.py:38-41 | one letter per token exactly when every token is in the table |
| FinalCipherModel.DecodeTokensAppend | src/backend/puzzles/final_cipher.py:38-41 | decoding distributes over concatenation of token lists |
| FinalCipherModel.DecodeWordJoin | src/backend/puzzles/final_cipher.py:36-41 | decoding `a + " " + b` is decoding a followed by decoding b |
| FinalCipherModel.DecodeKnown | src/backend/puzzles/final_cipher.py:38-41 | when every token is in the table, the i-th letter decoded is the table entry of the i-th token |
| FinalCipherModel.DecodeSingle | src/backend/puzzles/final_cipher.py:36-41 | a single token decodes to its letter, or to "" when the table lacks it |
| FinalCipherModel.CompletePhrase | src/backend/puzzles/final_cipher.py:43-51 | the complete phrase is exactly "brick house" |
| FinalCipherModel.DecodeWord | src/backend/puzzles/final_cipher.py:27-41 | at most one letter per whitespace-separated token, and exactly one per token iff every token is in the table |
| FinalCipherModel.ConversionTableInjective | src/backend/puzzles/final_cipher.py:11-14 | different codes decode to different letters |
| FinalCipherModel.ConversionTableAgrees | src/backend/puzzles/final_cipher.py:11-14 | each code of the final table reads the same letter in the puzzle-1 table |
| FinalCipherModel.ModeDescription | src/backend/puzzles/final_cipher.py:53-67 | "unknown mode" exactly for modes other than alpha, beta and gamma |
| CipherTables.TwoDigit | cipher_app.py:868-876 | a code is two decimal digits |
| CipherTables.Letter | cipher_app.py:868-876 | numbers 1..26 are letters; 27, and only 27, is the space |
| CipherTables.GridNumber | cipher_app.py:868-883 | the cell drawn at each position holds a number in 1..27 |
| CipherTables.GridCell | cipher_app.py:868-883 | every number 1..27 has a cell holding it |
| CipherTables.TableEntries | cipher_app.py:868-876 | the table has 27 entries, each pairing the code of its number with that number's letter |
| CipherTables.GridNumberInjective | cipher_app.py:868-883 | no number appears in two cells |
| CipherTables.TableBijective | cipher_app.py:868-876 | codes are pairwise distinct, letters are pairwise distinct, and each number sits in its cell |
| CipherTables.Lookup | cipher_app.py:868-876 | reading a code finds nothing exactly when no entry has that code |
| CipherTables.LookupFinds | cipher_app.py:868-876 | with distinct codes, an entry's code reads that entry's letter |
| CipherTables.CodeReadsLetter | cipher_app.py:868-876 | code "nn" reads the nn-th letter, "27" the space |
| CipherTables.RiverCipher | cipher_app.py:898 | the display "18 09 22 05 18" splits into five codes that read "river" |
| CipherTables.DecodePattern | cipher_app.py:948-954 | undoes `2·n + 5` on every odd number |
| CipherTables.DecodeEncode | cipher_app.py:948-954 | undoing the pattern after applying it gives the input back |
| CipherTables.PatternRows | cipher_app.py:948-954 | the five rows are "n" → decimal of 2·n + 5 for n = 1..5 |
| CipherTables.BreadTokens | cipher_app.py:941 | the puzzle-2 display "9 41 15 7 13" splits into five tokens |
| CipherTables.BreadNumbers | cipher_app.py:941 | those tokens are the decimals of 9, 41, 15, 7, 13 |
| CipherTables.BreadCipher | cipher_app.py:941 | undoing the pattern gives 2, 18, 5, 1, 4, which read "bread" |
| CipherAppModel.NextIndex | cipher_app.py:407-415 | moves forward by one below the last slide, otherwise stays |
| CipherAppModel.PrevIndex | cipher_app.py:398-404 | moves back by one above slide 0, otherwise stays |
| CipherAppModel.ForwardStopsAtEnd | cipher_app.py:407-415 | k presses of "next" from slide i reach slide min(i + k, 6) |
| CipherAppModel.PrevUndoesNext | cipher_app.py:398-415 | "prev" undoes "next" below the end, and "next" undoes "prev" above the start |
| CipherAppModel.UiStricterThanManager | cipher_app.py:513 | every answer the app accepts is accepted by the puzzle manager too |
| CipherAppModel.LeadingBlankRejected | cipher_app.py:513 | " river" is rejected by the app but accepted by the puzzle manager |
| CipherAppModel.CipherApp.constructor | cipher_app.py:39-44 | slide 0, nothing solved, animations on |
| CipherAppModel.CipherApp.ShowSlide | cipher_app.py:314-330 | an index outside 0..6 is ignored; otherwise it becomes the current slide |
| CipherAppModel.CipherApp.NextSlide | cipher_app.py:407-418 | the slide advances by one unless it is the last, with or without animation; the slide stays in 0..6 |
| CipherAppModel.CipherApp.PrevSlide | cipher_app.py:398-405 | the slide goes back by one unless it is the first; the slide stays in 0..6 |
| CipherAppModel.CipherApp.AnimateSlideTransition | cipher_app.py:420-429 | shows the neighbouring slide in the given direction when it exists |
| CipherAppModel.CipherApp.NavigationButtons | cipher_app.py:377-396 | "previous" enabled iff there is an earlier slide, "next" iff there is a later one |
| CipherAppModel.CipherApp.CheckAnswer | cipher_app.py:503-523 | correct iff the lower-cased, unstripped answer matches; correct records the solve in the app and adds 100, wrong subtracts 10; the slide, the animation flag and the game's solved set, hints, hint levels and start time are untouched |
| CipherAppModel.CipherApp.ShowHint | cipher_app.py:554-584 | 50 points are deducted exactly when a non-empty hint is shown; an exhausted budget or closed puzzle costs nothing and uses no hint; an open puzzle with hints left uses one; the solved set, hint levels and start time are untouched |
| CipherAppModel.CipherApp.CheckFinalAnswer | cipher_app.py:681-690 | "brick house" in any case records puzzle 5 as solved; the slide and the animation flag are unchanged and the game (its score) is not touched, so there is no penalty |
| CipherAppModel.HintCostsFifty | cipher_app.py:554-584 | on an open puzzle with one to three hints left, a hint costs exactly 50 points and one hint |
| SettingsModel.MergeKnown | settings.py:86-88 | merging never adds or removes a key of the category |
| SettingsModel.MergeValue | settings.py:84-88 | after the merge each key of the category holds the value of the last incoming member with that key, or its old value when no incoming member has it |
| SettingsModel.ApplyCategory | settings.py:82-91 | one category pass never adds or removes a top-level key; an unknown category changes nothing; a dictionary for a dictionary category is merged into it; otherwise `sound` becomes the truthiness of the value and any other category is left as it was |
| SettingsModel.ApplyAll | settings.py:82-91 | the whole pass keeps exactly the default categories |
| SettingsModel.ApplyAllMerges | settings.py:82-88 | a dictionary category named once by a dictionary ends up as that dictionary merged into its value before the pass |
| SettingsModel.ValidatedMerges | settings.py:80-88 | for a document with distinct keys, a `shortcuts` or `display` dictionary is validated to its merge into that category's defaults |
| SettingsModel.ThemeChosen | settings.py:80-88 | `{"display": {"theme": t}}` validates to theme t with the other display settings and the other categories at their defaults |
| SettingsModel.DefaultsShaped | settings.py:10-24 | the defaults have the three categories with their keys and a boolean `sound` |
| SettingsModel.Validated | settings.py:77-98 | whatever comes in, the result has exactly the default categories and keys and a boolean `sound`; a document that is not an object gives the defaults |
| SettingsModel.ApplyAllShaped | settings.py:82-91 | validating into a well-shaped document keeps its shape |
| SettingsModel.ApplyAllUnmentioned | settings.py:82-91 | a category the incoming document never names keeps its value |
| SettingsModel.SoundBecomesTruthy | settings.py:89-91 | `sound` becomes the truthiness of the incoming value, the other categories untouched |
| SettingsModel.NonDictIgnored | settings.py:83-91 | a non-dictionary for a dictionary category, or an unknown category, is ignored |
| SettingsModel.ApplyAllSound | settings.py:80-91 | applying a document whose `sound` appears once leaves `sound` as the truthiness of that value, whatever comes before or after it |
| SettingsModel.ApplyAllNonDict | settings.py:80-88 | a `shortcuts` or `display` category never given as a dictionary keeps its value however often it is named |
| SettingsModel.ValidatedSound | settings.py:77-91 | for a document with distinct keys, validation sets `sound` to the truthiness of the value given for it |
| SettingsModel.ValidatedNonDict | settings.py:77-88 | a `shortcuts` or `display` category given only as something other than a dictionary validates to its defaults |
| SettingsModel.MergeSameKeysAll | settings.py:84-88 | an incoming category with exactly the default keys replaces every value |
| SettingsModel.ShapedIsFixpoint | settings.py:80-93 | validating a well-shaped document returns it unchanged |
| SettingsModel.ValidateIdempotent | settings.py:80-93 | validating twice equals validating once, and the defaults validate to themselves |
| SettingsModel.UnmentionedKeepsDefault | settings.py:80-93 | every category the incoming document does not name is validated to its default |
| SettingsModel.SharedValidate | settings.py:80-88 | as written: the validated document shares its dictionary categories with the defaults, which change with it, while `sound` does not |
| SettingsModel.DefaultsDrift | settings.py:80-88 | as written, after `{"display": {"theme": "light"}}` an empty document validates to the light theme, where the defaults say dark |
| SettingsModel.CandidateInjective | settings.py:105-108 | different attempts try different backup names |
| SettingsModel.AppSettings.constructor | settings.py:26-29 | a new settings object holds the defaults |
| SettingsModel.AppSettings.ValidateAndUpdate | settings.py:77-98 | for a decoded document (distinct keys), the stored settings become the validated document, which has the default shape, and every `shortcuts` or `display` dictionary given is merged into that category's defaults |
| SettingsModel.AppSettings.MergeInto | settings.py:86-88 | the inner loop computes the category merge |
| SettingsModel.BackupName | settings.py:105-109 | the name chosen is the first of `.bak`, `.bak.1`, `.bak.2`, ... that is not taken; every earlier candidate is taken |
| EventManagerModel.BindPlan | src/backend/event_manager.py:17-23 | only actions with callbacks are bound, each to a claimed key |
| EventManagerModel.PlanClaimsAndSeparates | src/backend/event_manager.py:17-32 | every key of the settings is claimed; bound actions come from the settings and never share a key |
| EventManagerModel.FirstEntryWins | src/backend/event_manager.py:18-23 | the first entry to use a key gets it, when its action has a callback |
| EventManagerModel.LaterDuplicateSkipped | src/backend/event_manager.py:19-23 | an entry whose key an earlier entry used is not bound, even when the earlier one had no callback |
| EventManagerModel.EventManager.constructor | src/backend/event_manager.py:6-9 | no callbacks and no bindings |
| EventManagerModel.EventManager.RegisterCallback | src/backend/event_manager.py:11-12 | replaces the callback of that action only; the id counter and the bindings are unchanged |
| EventManagerModel.EventManager.BindShortcut | src/backend/event_manager.py:25-32 | an action without a callback changes nothing; otherwise the window binds the key under a fresh id recorded for the action |
| EventManagerModel.EventManager.UnbindAll | src/backend/event_manager.py:34-37 | the window loses exactly the recorded bindings and the record is empty |
| EventManagerModel.EventManager.BindShortcuts | src/backend/event_manager.py:14-23 | the bindings recorded before the call are released and every other window binding is kept; bound actions are those of the plan, each held by the window under its planned key, all with callbacks; distinct bound actions hold distinct keys; when the actions are distinct, every binding the window gains is recorded for a bound action |

## Findings

| source | as written | input that shows it | evidently intended | confidence | as-written member | corrected member |
|---|---|---|---|---|---|---|
| settings.py:80-88 | `DEFAULT_SETTINGS.copy()` copies only the outer dictionary; merging into `shortcuts` or `display` writes into the defaults' own nested dictionaries | `validate_and_update({"display": {"theme": "light"}})` then `validate_and_update({})` | every unnamed setting validates to its default, whatever was validated before | high, not executed | SettingsModel.DefaultsDrift | SettingsModel.UnmentionedKeepsDefault |

The rest of the model (`AppSettings.ValidateAndUpdate`) uses the corrected,
copy-on-validate behaviour.

## Left out

- File I/O: the game-state JSON file, the settings file load/save/rename and `save_progress` are not modelled. The record mapping (`SavedState`) and the backup-name rule are modelled; the set of existing files is a parameter.
- `mark_puzzle_solved` and `use_hint` call `save_state` after their update. The write is not modelled because it only touches the file.
- JSON values of the wrong type in a loaded game record are not modelled; the record's fields are typed.
- `get_high_score` reads a file key that nothing writes; not modelled.
- Time: `time.time()` is a parameter `now`.
- The Tk event loop: a `root.after` callback is the explicit method `CircularCipher.RunScheduled`. The frame-by-frame slide animation is not modelled.
- `check_answer` never schedules `next_slide` after a correct answer. Its success path calls `show_success_message`, which calls `calculate_bonus` on the game state (cipher_app.py:608), and the game state has no such method. The handler raises after recording the solve and the 100 points, before `root.after(2000, self.next_slide)` (cipher_app.py:519). `CipherApp.CheckAnswer` therefore records the solve and the score and leaves the slide where it was.
- Widgets, drawing, sounds, the timer, menus and message windows are not modelled.
- `show_hint` calls `update_hints_display` on the game state, which has no such method. The error comes after the 50-point deduction, so the modelled score effect is unchanged.
- CircularCipher: the angle is an exact `real`, so floating-point rounding of `target / 10` is not modelled.
- PyText.Lower: only ASCII upper-case letters are folded; Unicode case folding is not modelled.
- SettingsModel.Validated: the function is defined on every `Json` value, including objects that repeat a key, which no decoded Python dict does. For a repeated top-level category it applies every occurrence, where Python keeps only the last; `AppSettings.ValidateAndUpdate` and `ValidatedMerges` therefore take documents with distinct keys (`Decoded`), as `json.load` delivers them.
- PuzzleManagerModel.PuzzleManager.CheckAnswer: the `except` fail-safe models only the documented outcomes, because no modelled input raises.
- PuzzleManagerModel.PuzzleManager.CalculateProgress: returns the numerator (solved count); the float division by 5 is not modelled.
- The earlier `next_slide`/`prev_slide` definitions (cipher_app.py:351-361) are shadowed by the later ones and not modelled. Neither are the broken `_update_dial_display` or `start_birthday_animation`.
- CipherAppModel.CipherApp.CheckAnswer: requires an id 1..5, because the app's answer table raises for other ids and every caller passes a constant.
- The settings model works on fresh values. Beyond the finding above, the shallow-copy sharing between `self.settings` and the defaults (settings.py:29,98) is not modelled.
- EventManager: `root.bind` is an id generator. `unbind_all` calls `self.root.unbind('', binding_id)` (src/backend/event_manager.py:36), with an empty event sequence; the model's removal of each binding from the window's table is an idealisation of that call, and what Tk does with the empty sequence is not modelled.
- GameState.GetScore, GameState.GetHintsRemaining and AppSettings.GetSettings are plain field readers with no contract.
- The HTTP proxy, bootstrap code, configuration loader, animation, theme and resource managers are not part of this model.
