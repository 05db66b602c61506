# wwdice in Dafny

A model of the core of wwdice, a dice roller for World of Darkness style d10 pools, with
proofs about it. Two Go files make up the core:

- `pkg/dice/dice.go` is the dice engine. `ParseDiceString` reads a command `XdY[!]` into a
  `DiceConfig` (count, difficulty, explode). `RollDice` rolls the pool, rolling one extra
  die for every 10 when dice explode, and sorts it through `UInt8Slice`.
  `CalculateResults` counts successes and failures and decides whether the roll is a botch.
- `pkg/characters/wwcharacter.go` is the formula resolver. `ParseFormula` turns
  `attribute+ability[+N][!]` into tags, numeric bonuses and an explode flag. `CountDice`
  adds a character's trait scores for the tags and the bonuses into a pool size.
  `Validate` checks that the nine core traits are nonzero.

The Dafny files:

- `base.dfy`: `Option`, Go's `uint8` and `uint32` as subset types, and the uint8
  wrap-around (`Inc`, `AddWraps`).
- `decimal.dfy`: decimal digit strings, shared by `fmt.Sscanf`'s `%d` and `strconv.Atoi`.
  It includes the rendering `Show` and the round trip `Value(Show(n)) == n`.
- `sums.dfy`: sums over sequences. The key fact is that a sum does not depend on the
  order of the elements.
- `dice.dfy`: module `Dice`, the dice engine.
- `characters.dfy`: module `Characters`, the formula resolver.

Modelling choices:

- **Integers.** Go's `uint8` is `u8`. Every place where Go wraps is written out as `% 256`
  or `Inc`: the two counters of `CalculateResults`, `diceToRoll` in `RollDice`, the sum in
  `CountDice`, and the `uint8(intVal)` conversion in `ParseFormula`.
- **Random source.** `rand.Uint32` becomes a parameter `draw: nat -> u32`. It gives the
  i-th value the roll asks for. `Face` turns a value into a die (`% 10 + 1`), and
  `Faces(draw, k)` lists the first `k` dice in the order they were drawn.
- **Stopping the roll.** `StopsAt(d, draw, n)` says the loop of `RollDice` stops after
  exactly `n` draws. It is not phrased as a loop: `n` reaches the target `diceToRoll`, and
  no smaller number of draws did.
- **Parsing.** `fmt.Sscanf(s, "%dd%d", …)` is modelled by `ScanDice`:
  - Each `%d` skips Go's white space. A newline is not skipped, so it fails the verb like
    any other character that is not a digit.
  - A `%d` reads an unsigned run of digits. It fails when there is no digit or when the
    value does not fit a `uint8`.
  - The literal `d` must follow the first number at once.
  - Anything after the second number is ignored.
  - When the second number fails, the count has already been stored.
- **Atoi.** `strconv.Atoi` takes an optional sign and at least one digit, and the value
  must fit a 64-bit `int`.
- **Sorting.** `sort.Sort` over `UInt8Slice` is modelled by an insertion sort on an
  `array<u8>` that uses `Less` and `Swap`. `SortedUnique` shows that any sorted
  rearrangement is the same sequence, so the choice of algorithm cannot change the result.
- **Slices and maps.** Go slices are modelled as `seq` values, and a `Character` is a
  `map<string, u8>` where an absent name reads as 0.

Where the code differs from its own comments or from what a reader might expect, the model
follows the code:

- **Sort order.** The comment at `dice.go:94` says the dice are sorted from highest to
  lowest, but `Less` is `p[i] < p[j]`. The model sorts in ascending order.
- **`CountDice` overflow.** The sum is a `uint8` that wraps past 255. It does not
  saturate.
- **Success versus failure.** A die is a failure only when it is not a success (the
  `else if` at `dice.go:62`). At difficulty 1 there are therefore no failures and no
  botches.
- **Empty formula.** `ParseFormula("")` gives one empty tag (`strings.Split` semantics),
  not an empty list.
- **Numeric tokens.** Every token becomes a tag, numbers included.
- **Bonus truncation.** A bonus is truncated to eight bits, so "256" adds a bonus of 0.
- **`diceToRoll` wrap.** `diceToRoll` wraps: 255 exploding dice whose first die is a 10
  stop after that single die (`ExplosionWrapsAt255`).

## Model

| member | source | states |
|---|---|---|
| Dice.IsSpace | pkg/dice/dice.go:26 | the characters fmt skips before a `%d`: tab, carriage return and blank among them, never a newline, a digit or the letter d |
| Dice.SkipSpace | pkg/dice/dice.go:26 | what is skipped is all space and what is left is a suffix of the input that does not start with a space |
| Dice.ScanUint8 | pkg/dice/dice.go:26 | one `%d` verb: on success it has read the maximal digit run after the spaces (non-empty), the number is that run's value and the rest is what follows it; with no digit after the spaces it fails |
| Dice.ScanUint8Succeeds | pkg/dice/dice.go:26 | one `%d` succeeds exactly when the spaces are followed by a digit run whose value fits a uint8 |
| Dice.ScanDice | pkg/dice/dice.go:26 | the `%dd%d` scan: nothing is stored when the first number fails, otherwise the count is the first number; it completes exactly when the first number succeeds, a literal `d` follows it at once and the second number succeeds, and then the difficulty is the second number |
| Dice.ParseDiceString | pkg/dice/dice.go:24-47 | the error is FailedToParse exactly when the scan fails, BadDifficulty exactly when it scans a difficulty of 0 or above 10, and NoDice exactly when the difficulty is in range and the count is 0; without an error the config is valid and explode is set exactly when the input holds a '!'; the returned config is always the scanned count and difficulty with explode set by '!', or after a failed scan the stored count with difficulty 0 and no explode |
| Dice.ScanNumber | pkg/dice/dice.go:26 | one `%d` verb reads back a decimal number after spaces when it fits a uint8, and fails when it does not |
| Dice.ScanShown | pkg/dice/dice.go:26-32 | scanning "n d m" gives both numbers, or fails at the first one above 255 with the count stored so far |
| Dice.ScanDigits | pkg/dice/dice.go:26 | one `%d` reads any non-empty digit run after spaces, leading zeros included, as its value, or fails exactly when the value exceeds 255 |
| Dice.ScanDigitsDice | pkg/dice/dice.go:26-32 | `%dd%d` over two digit runs, with spaces before each number but none before the `d`, reads both values, or fails at the first one above 255 with the count already stored |
| Dice.ParseShown | pkg/dice/dice.go:24-47 | the full outcome for every "n d m" input: overflow fails, a bad difficulty wins over a zero count, a zero count is refused, otherwise count, difficulty and explode round-trip |
| Dice.ParseNonNumericCount | pkg/dice/dice.go:26-29 | a count that does not start with a digit fails to parse and stores nothing |
| Dice.ParseNonNumericDifficulty | pkg/dice/dice.go:26-29 | a difficulty that does not start with a digit fails to parse after the count has been stored |
| Dice.ParseExampleSpaces | pkg/dice/dice_test.go:6-13 | " 3d6 " parses to 3 dice at difficulty 6, no explode, no error |
| Dice.ParseExampleLeadingZero | pkg/dice/dice.go:24-47 | "03d 6" parses to 3 dice at difficulty 6, no explode, no error: a leading zero and a space before the difficulty are accepted |
| Dice.ParseExamplePlain | pkg/dice/dice_test.go:15-22 | "3d6" parses to 3 dice at difficulty 6, no error |
| Dice.ParseExampleExplode | pkg/dice/dice_test.go:24-31 | "10d7!" parses to 10 exploding dice at difficulty 7 |
| Dice.ParseExampleDifficultyTooHigh | pkg/dice/dice_test.go:33-40 | "3d11" is refused with BadDifficulty |
| Dice.ParseExampleDifficultyZero | pkg/dice/dice_test.go:42-49 | "10d0" is refused with BadDifficulty |
| Dice.ParseExampleNoDice | pkg/dice/dice_test.go:51-58 | "0d6" is refused with NoDice |
| Dice.ParseExampleBadCountText | pkg/dice/dice_test.go:63-66 | "xd6" fails to parse |
| Dice.ParseExampleBadDifficultyText | pkg/dice/dice_test.go:67-70 | "6dy" fails to parse, with the count 6 already stored |
| Dice.Classify | pkg/dice/dice.go:60-64 | a die is a success exactly when it reaches the difficulty, and a failure exactly when it is a 1 and the difficulty is above 1 |
| Dice.Score | pkg/dice/dice.go:59-78 | the failures are the number of 1s below the difficulty, wrapped to a uint8; a botch has no successes and at least one failure; without a success nothing is left over |
| Dice.TallyAppend | pkg/dice/dice.go:59-65 | one more die adds one to the tally of its own outcome and nothing to the others |
| Dice.CalculateResults | pkg/dice/dice.go:55-79 | the result is the closed-form score of the rolls: wrapping uint8 counters, failures cancelling successes down to zero, and a botch when there are failures but no successes |
| Dice.TallyBound | pkg/dice/dice.go:59-65 | no die is both a success and a failure: the two tallies together are at most the number of dice |
| Dice.ScoreExact | pkg/dice/dice.go:66-78 | with fewer than 256 dice the reported failures are the failures, a botch is exactly a failure with no success and reports no successes, and the successes are the successes minus the failures, floored at zero |
| Dice.ScoreOrderIndependent | pkg/dice/dice.go:59-65 | rearranging the rolls does not change the result |
| Dice.NoFailuresAtDifficultyOne | pkg/dice/dice.go:60-64 | at difficulty 0 or 1 no die is a failure and no roll is a botch |
| Dice.ScoreExampleNet | pkg/dice/dice_test.go:95-97 | rolls 1,4,6,7,10 at difficulty 6 give 2 successes, 1 failure, no botch |
| Dice.ScoreExampleBotch | pkg/dice/dice_test.go:99-101 | rolls 1,2,3,4,5 at difficulty 6 give 0 successes, 1 failure and a botch |
| Dice.Face | pkg/dice/dice.go:87 | a draw becomes a die from 1 to 10 |
| Dice.FacesRange | pkg/dice/dice.go:86-88 | every drawn die is from 1 to 10 |
| Dice.DieValuesPermutation | pkg/dice/dice.go:95 | rearranging dice from 1 to 10 gives dice from 1 to 10 |
| Dice.Faces | pkg/dice/dice.go:85-88 | the first k draws give exactly k dice |
| Dice.Target | pkg/dice/dice.go:83-91 | without explode, `diceToRoll` stays the count |
| Dice.TargetStep | pkg/dice/dice.go:89-91 | one more die moves `diceToRoll` on by one, wrapping, exactly when it is an exploding 10 |
| Dice.TargetTens | pkg/dice/dice.go:83-91 | `diceToRoll` is the count plus, when exploding, the number of 10s rolled, modulo 256 |
| Dice.StopsAtUnique | pkg/dice/dice.go:85-92 | the number of dice a roll ends with is determined by the draws |
| Dice.StopsAtBound | pkg/dice/dice.go:83-92 | a roll never ends with more than 255 dice |
| Dice.StopsWithoutExplosion | pkg/dice/dice.go:83-92 | without explosions exactly `count` dice are rolled |
| Dice.StopsWithExplosion | pkg/dice/dice.go:83-92 | with explosions, unless `diceToRoll` wraps, the extra dice number exactly the 10s among all dice |
| Dice.ExplosionWrapsAt255 | pkg/dice/dice.go:89-91 | 255 exploding dice whose first die is a 10 stop after one die, because `diceToRoll` wraps to 0 |
| Dice.DrawStep | pkg/dice/dice.go:85-91 | one more pass of the loop: the dice grow by the next face, the target moves on for an exploding 10, and the loop ran because the test passed |
| Dice.DrawDice | pkg/dice/dice.go:83-92 | the loop returns the drawn dice in draw order and stops exactly where the loop condition first fails |
| Dice.Less | pkg/dice/dice.go:102 | `p[i] < p[j]`: it holds only when the i-th value is strictly below the j-th, and when it fails the j-th is not above the i-th, so the order is ascending |
| Dice.Swap | pkg/dice/dice.go:103 | the two elements are exchanged, all others unchanged, the contents kept |
| Dice.Sort | pkg/dice/dice.go:95 | the slice ends in ascending order with the same contents |
| Dice.SortedUnique | pkg/dice/dice.go:95 | two sorted sequences with the same contents are equal, so the sort's result does not depend on the sorting algorithm |
| Dice.RollDice | pkg/dice/dice.go:82-97 | the dice are the drawn dice rearranged in ascending order, each from 1 to 10, at most 255 of them; exactly `count` without explosions, and `count` plus the number of 10s with explosions unless `diceToRoll` wraps |
| Decimal.ValueShow | pkg/dice/dice.go:26 | reading back the decimal rendering of a number gives the number |
| Decimal.DigitRunPrefix | pkg/dice/dice.go:26 | a run of digits stops exactly where the digits stop |
| Sums.SumByPermutation | pkg/characters/wwcharacter.go:41-46 | a sum over a sequence does not depend on the order of its elements |
| Characters.Index | pkg/characters/wwcharacter.go:20 | the first position of the character, or -1 exactly when it is absent |
| Characters.IndexAt | pkg/characters/wwcharacter.go:20 | the character is found right after a prefix that does not hold it |
| Characters.ReplaceFirst | pkg/characters/wwcharacter.go:19-21 | nothing changes when the character is absent; otherwise exactly one occurrence is removed |
| Characters.ReplaceFirstAt | pkg/characters/wwcharacter.go:20 | it is the first occurrence that is removed, with the rest kept in order, later occurrences included |
| Characters.Split | pkg/characters/wwcharacter.go:24 | there is one token more than there are separators, no token holds a separator, and joining the tokens gives back the input |
| Characters.SplitJoin | pkg/characters/wwcharacter.go:24 | splitting undoes joining for tokens without a separator |
| Characters.Atoi | pkg/characters/wwcharacter.go:27 | the result fits a 64-bit int; a token reads as a number exactly when it is an optional sign followed by at least one digit and nothing else and its signed value fits an int, and then it reads as that signed value; an all-digit token within range reads as its value |
| Characters.AtoiExamples | pkg/characters/wwcharacter.go:27-30 | "+5" and "-5" read with their sign, "1x", "3rd" and "+" are errors, so "1x" adds no bonus and "+5" adds 5 |
| Characters.Bonus | pkg/characters/wwcharacter.go:27-30 | a token adds at most one bonus, exactly when Atoi reads a positive number, and the bonus is that number wrapped to a uint8 |
| Characters.Bonuses | pkg/characters/wwcharacter.go:25-31 | the bonus list is defined token by token in order (the body is the definition); there are at most as many bonuses as tokens |
| Characters.BonusesConcat | pkg/characters/wwcharacter.go:25-31 | the bonuses of two token lists one after the other are the two bonus lists one after the other |
| Characters.BonusOfNumber | pkg/characters/wwcharacter.go:27-30 | a positive number within int range adds itself modulo 256; zero or an out-of-range number adds nothing |
| Characters.BonusOfNegative | pkg/characters/wwcharacter.go:27-30 | a negative number adds nothing |
| Characters.Tokens | pkg/characters/wwcharacter.go:16-24 | the tokens of a formula number one more than its '+', hold no '+', and join back into the formula without its first '!' |
| Characters.ScanTokens | pkg/characters/wwcharacter.go:25-34 | every token becomes a tag in order, and the bonuses are the positive numbers among the tokens, in order |
| Characters.ParseFormula | pkg/characters/wwcharacter.go:12-37 | explode is set exactly when the formula holds a '!'; the tags are the formula's tokens; the bonuses are those of the tags; the error is always nil |
| Characters.FormulaRoundTrip | pkg/characters/wwcharacter.go:16-24 | tags without '+' or '!', joined with '+' and with or without a trailing '!', parse back to the same tags and explode flag |
| Characters.ReplaceExample | pkg/characters/wwcharacter.go:20 | "strength+athletics+1!" loses its '!' |
| Characters.SplitExample | pkg/characters/wwcharacter.go:24 | "strength+athletics+1" splits into strength, athletics and 1 |
| Characters.BonusesExample | pkg/characters/wwcharacter.go:25-31 | of strength, athletics and 1 only the 1 is a bonus |
| Characters.FormulaExample | pkg/characters/wwcharacter.go:12-37 | "strength+athletics+1!" explodes and has tags strength, athletics and 1, and bonus 1 |
| Characters.EmptyFormula | pkg/characters/wwcharacter.go:24 | the empty formula gives one empty tag and no bonus |
| Characters.Lookup | pkg/characters/wwcharacter.go:42 | `c[tag]` (and `c[field]` at line 54): the trait's score when present, and a missing trait reads as 0 |
| Characters.CountDice | pkg/characters/wwcharacter.go:39-48 | the pool is the sum of the tags' trait scores (0 for a missing trait) and the bonuses, modulo 256 |
| Characters.PoolOrderIndependent | pkg/characters/wwcharacter.go:41-46 | rearranging the tags or the bonuses does not change the pool |
| Characters.TagContribution | pkg/characters/wwcharacter.go:42 | a tag adds the character's score for it, 0 when the character lacks it, once for every repetition |
| Characters.Validate | pkg/characters/wwcharacter.go:51-59 | true exactly when all nine core traits are present and nonzero |

## Left out

- The command-line programs under `cmd/`: they only do I/O around the core.
- `Character.ToString`: YAML serialisation through a foreign library.
- The random source: `rand.Uint32` becomes the parameter `draw`. Seeding, the uniform
  distribution and the statistical test that dice do sometimes explode are not modelled.
- `sort.Sort`'s own algorithm (pattern-defeating quicksort) is replaced by an insertion sort
  through the same `Less` and `Swap`. `SortedUnique` shows the result is the same.
- The preallocated capacity of `results` in `RollDice` and the aliasing of Go slices: slices
  are modelled as values.
- `fmt.Sscanf` beyond the format `"%dd%d"` is not modelled: other verbs, widths, the text of
  its error values, and the special handling of "\r\n". Every scan error leads to
  FailedToParse, which is all the engine distinguishes.
- `strconv.Atoi` assumes a 64-bit `int`. Its error values are collapsed to `None`.
- Characters.ParseFormula: the error result is `Option<string>` and is always `None`, as in
  the code. No error text is modelled.
- Dice.Faces: its contract states only the length. The range of the dice is stated by
  `FacesRange`.
- Dice.ScoreExact: it requires fewer than 256 dice. For larger inputs only `Score` itself
  describes the wrapped counters. `RollDice` never produces more than 255 dice.
