/** The d10 dice engine: parsing `XdY[!]`, rolling with exploding 10s, and scoring a roll. */
module Dice {
  import opened Wrappers
  import opened Ints
  import opened Decimal
  import opened Sums

  /** A roll request: `count` d10s, a success at `difficulty` or above, and whether 10s explode. */
  datatype DiceConfig = DiceConfig(count: u8, difficulty: u8, explode: bool)

  /** The three sentinel errors of the engine. */
  datatype DiceError = NoDice | BadDifficulty | FailedToParse

  /** ParseDiceString returns a configuration and an error side by side; on an error the
      configuration holds whatever had been stored into it when the error arose. */
  datatype Parsed = Parsed(dice: DiceConfig, err: Option<DiceError>)

  predicate ValidConfig(d: DiceConfig) {
    1 <= d.difficulty <= 10 && 1 <= d.count
  }

  // ---------------------------------------------------------------------------
  // Scanning with the format "%dd%d"
  // ---------------------------------------------------------------------------

  /** A white-space character as fmt's scanner skips it. A newline is not skipped: the
      scanner reports it as an error, so here it is simply a character that is not a digit. */
  predicate IsSpace(c: char): (b: bool)
    ensures b ==> c != '\n' && !IsDigit(c) && c != 'd'
    ensures c == ' ' || c == '\t' || c == '\r' ==> b
  {
    var k := c as int;
    (0x09 <= k <= 0x0D && k != 0x0A) || k == 0x20 || k == 0x85 || k == 0xA0 || k == 0x1680
    || (0x2000 <= k <= 0x200A) || k == 0x2028 || k == 0x2029 || k == 0x202F || k == 0x205F
    || k == 0x3000
  }

  predicate AllSpace(s: string) {
    forall i :: 0 <= i < |s| ==> IsSpace(s[i])
  }

  /** The input once the spaces a `%d` verb skips are gone. */
  function SkipSpace(s: string): (r: string)
    ensures |r| <= |s| && r == s[|s| - |r|..]
    ensures r == [] || !IsSpace(r[0])
    ensures AllSpace(s[..|s| - |r|])
  {
    if s != [] && IsSpace(s[0]) then SkipSpace(s[1..]) else s
  }

  /** One `%d` verb into a uint8: skip spaces, read the longest run of digits (no sign), and
      fail when there is no digit or the value does not fit in eight bits. */
  function ScanUint8(s: string): (r: Option<(u8, string)>)
    ensures r.Some? ==>
              var t := SkipSpace(s);
              var n := DigitRun(t);
              0 < n && r.value.1 == t[n..] && Value(t[..n]) == r.value.0 as int
    ensures SkipSpace(s) == [] || !IsDigit(SkipSpace(s)[0]) ==> r.None?
  {
    var t := SkipSpace(s);
    var n := DigitRun(t);
    if n == 0 || Value(t[..n]) > 255 then None
    else Some((Value(t[..n]), t[n..]))
  }

  /** One `%d` succeeds exactly when the spaces are followed by a digit run whose value
      fits a uint8. */
  lemma ScanUint8Succeeds(s: string)
    ensures var t := SkipSpace(s);
            ScanUint8(s).Some? <==> DigitRun(t) > 0 && Value(t[..DigitRun(t)]) <= 255
  {
  }

  /** What Sscanf leaves behind: both numbers, or a failure together with the count that had
      already been stored (0 when the first verb failed). */
  datatype Scan = Scanned(count: u8, difficulty: u8) | ScanFailed(count: u8)

  /** The format "%dd%d": a number, the literal letter d (no spaces skipped before it), a
      number. Whatever follows the second number is ignored. */
  function ScanDice(s: string): (r: Scan)
    ensures ScanUint8(s).None? ==> r == ScanFailed(0)
    ensures ScanUint8(s).Some? ==> r.count == ScanUint8(s).value.0
    ensures r.Scanned? ==> 'd' in s
    ensures r.Scanned? <==>
              ScanUint8(s).Some? &&
              var rest := ScanUint8(s).value.1;
              rest != [] && rest[0] == 'd' && ScanUint8(rest[1..]).Some?
    ensures r.Scanned? ==> r.difficulty == ScanUint8(ScanUint8(s).value.1[1..]).value.0
  {
    match ScanUint8(s)
    case None => ScanFailed(0)
    case Some((x, rest)) =>
      if rest == [] || rest[0] != 'd' then ScanFailed(x)
      else
        match ScanUint8(rest[1..])
        case None => ScanFailed(x)
        case Some((y, _)) => Scanned(x, y)
  }

  // ---------------------------------------------------------------------------
  // ParseDiceString
  // ---------------------------------------------------------------------------

  /** Parses `XdY!`: the difficulty is checked before the count, and `explode` records
      whether a '!' appears anywhere in the input. */
  function ParseDiceString(s: string): (r: Parsed)
    ensures r.err == Some(FailedToParse) <==> ScanDice(s).ScanFailed?
    ensures r.err == Some(BadDifficulty) <==>
              ScanDice(s).Scanned? && (ScanDice(s).difficulty == 0 || ScanDice(s).difficulty > 10)
    ensures r.err == Some(NoDice) <==>
              ScanDice(s).Scanned? && 1 <= ScanDice(s).difficulty <= 10 && ScanDice(s).count == 0
    ensures r.err == None ==> ValidConfig(r.dice) && (r.dice.explode <==> '!' in s)
    ensures r.dice.count == ScanDice(s).count
    ensures r.dice == match ScanDice(s)
                      case ScanFailed(x) => DiceConfig(x, 0, false)
                      case Scanned(x, y) => DiceConfig(x, y, '!' in s)
  {
    match ScanDice(s)
    case ScanFailed(x) => Parsed(DiceConfig(x, 0, false), Some(FailedToParse))
    case Scanned(x, y) =>
      var dice := DiceConfig(x, y, '!' in s);
      if y > 10 || y == 0 then Parsed(dice, Some(BadDifficulty))
      else if x == 0 then Parsed(dice, Some(NoDice))
      else Parsed(dice, None)
  }

  lemma {:induction false} SkipSpaceOver(pre: string, t: string)
    requires AllSpace(pre)
    requires t == [] || !IsSpace(t[0])
    ensures SkipSpace(pre + t) == t
  {
    if pre == [] {
      assert pre + t == t;
    } else {
      assert (pre + t)[1..] == pre[1..] + t;
      SkipSpaceOver(pre[1..], t);
    }
  }

  /** One `%d` verb reads any run of decimal digits after spaces, leading zeros included,
      and fails exactly when its value does not fit a uint8. */
  lemma ScanDigits(pre: string, ds: string, rest: string)
    requires AllSpace(pre)
    requires ds != [] && AllDigits(ds)
    requires rest == [] || !IsDigit(rest[0])
    ensures ScanUint8(pre + ds + rest) == if Value(ds) > 255 then None else Some((Value(ds), rest))
  {
    var t := ds + rest;
    var s := pre + ds + rest;
    assert s == pre + t;
    assert IsDigit(t[0]);
    SkipSpaceOver(pre, t);
    assert SkipSpace(s) == t;
    DigitRunPrefix(ds, rest);
    assert t[..|ds|] == ds;
    assert t[|ds|..] == rest;
  }

  /** `%dd%d` on two digit runs, each after its own spaces (spaces may come between the `d`
      and the second number, not before the `d`). */
  lemma ScanDigitsDice(pre: string, a: string, mid: string, b: string, post: string)
    requires AllSpace(pre) && AllSpace(mid)
    requires a != [] && AllDigits(a) && b != [] && AllDigits(b)
    requires post == [] || !IsDigit(post[0])
    ensures ScanDice(pre + a + "d" + mid + b + post) ==
              if Value(a) > 255 then ScanFailed(0)
              else if Value(b) > 255 then ScanFailed(Value(a))
              else Scanned(Value(a), Value(b))
  {
    var tail := "d" + mid + b + post;
    RegroupSpaced(pre, a, mid, b, post);
    ScanDigits(pre, a, tail);
    ScanDigits(mid, b, post);
  }

  lemma RegroupSpaced(pre: string, a: string, mid: string, b: string, post: string)
    ensures pre + a + "d" + mid + b + post == pre + a + ("d" + mid + b + post)
    ensures ("d" + mid + b + post)[1..] == mid + b + post
  {
  }

  /** A leading zero and a space before the difficulty are read as Go reads them. */
  lemma ParseExampleLeadingZero()
    ensures ParseDiceString("03d 6") == Parsed(DiceConfig(3, 6, false), None)
  {
    assert forall i | 0 <= i < 5 :: "03d 6"[i] != '!';
    var a, mid, b := "03", " ", "6";
    assert AllDigits(a) && AllDigits(b) && AllSpace(mid);
    assert Value(a[..1]) == 0;
    assert Value(a) == 3;
    assert Value(b) == 6;
    assert "" + a + "d" + mid + b + "" == "03d 6";
    ScanDigitsDice("", a, mid, b, "");
  }

  /** One `%d` verb reads back a number written in decimal after spaces, when it fits. */
  lemma ScanNumber(pre: string, n: nat, rest: string)
    requires AllSpace(pre)
    requires rest == [] || !IsDigit(rest[0])
    ensures ScanUint8(pre + Show(n) + rest) == if n > 255 then None else Some((n, rest))
  {
    ScanDigits(pre, Show(n), rest);
    ValueShow(n);
  }

  /** Scanning `n` d `m` written in decimal, after spaces and before anything that is not a
      digit, reads back `n` and `m`, or fails at the first number that does not fit a uint8. */
  lemma ScanShown(pre: string, n: nat, m: nat, post: string)
    requires AllSpace(pre)
    requires post == [] || !IsDigit(post[0])
    ensures ScanDice(pre + Show(n) + "d" + Show(m) + post) ==
              if n > 255 then ScanFailed(0) else if m > 255 then ScanFailed(n) else Scanned(n, m)
  {
    Regroup(pre, Show(n), Show(m), post);
    ScanNumber(pre, n, "d" + Show(m) + post);
    ScanNumber([], m, post);
  }

  lemma Regroup(pre: string, sn: string, sm: string, post: string)
    ensures pre + sn + "d" + sm + post == pre + sn + ("d" + sm + post)
    ensures ("d" + sm + post)[1..] == [] + sm + post
  {
  }

  /** The whole outcome of parsing `n` d `m`: an out-of-range difficulty wins over a zero
      count, a zero count is refused, and otherwise the numbers round-trip. */
  lemma ParseShown(pre: string, n: nat, m: nat, post: string)
    requires AllSpace(pre)
    requires post == [] || !IsDigit(post[0])
    ensures var r := ParseDiceString(pre + Show(n) + "d" + Show(m) + post);
      && (n > 255 ==> r == Parsed(DiceConfig(0, 0, false), Some(FailedToParse)))
      && (n <= 255 && m > 255 ==> r == Parsed(DiceConfig(n, 0, false), Some(FailedToParse)))
      && (n <= 255 && (m == 0 || 10 < m <= 255) ==>
            r == Parsed(DiceConfig(n, m, '!' in post), Some(BadDifficulty)))
      && (n == 0 && 1 <= m <= 10 ==> r == Parsed(DiceConfig(0, m, '!' in post), Some(NoDice)))
      && (1 <= n <= 255 && 1 <= m <= 10 ==> r == Parsed(DiceConfig(n, m, '!' in post), None))
  {
    ScanShown(pre, n, m, post);
    NoBangBefore(pre, n, m);
    var x := pre + Show(n) + "d" + Show(m);
    assert '!' in x + post <==> '!' in post;
  }

  lemma NoBangBefore(pre: string, n: nat, m: nat)
    requires AllSpace(pre)
    ensures '!' !in pre + Show(n) + "d" + Show(m)
  {
    var sn, sm := Show(n), Show(m);
    var x := pre + sn + "d" + sm;
    forall i | 0 <= i < |x|
      ensures x[i] != '!'
    {
      if i < |pre| {
        assert x[i] == pre[i];
      } else if i < |pre| + |sn| {
        assert x[i] == sn[i - |pre|];
      } else if i == |pre| + |sn| {
        assert x[i] == 'd';
      } else {
        assert x[i] == sm[i - |pre| - |sn| - 1];
      }
    }
  }

  /** A count that does not start with a digit ("xd6") fails to parse, with nothing stored. */
  lemma ParseNonNumericCount(s: string)
    requires SkipSpace(s) == [] || !IsDigit(SkipSpace(s)[0])
    ensures ParseDiceString(s) == Parsed(DiceConfig(0, 0, false), Some(FailedToParse))
  {
  }

  /** A difficulty that does not start with a digit ("6dy") fails to parse; the count has
      already been stored. */
  lemma ParseNonNumericDifficulty(pre: string, n: nat, rest: string)
    requires AllSpace(pre) && n <= 255
    requires SkipSpace(rest) == [] || !IsDigit(SkipSpace(rest)[0])
    ensures ParseDiceString(pre + Show(n) + "d" + rest) ==
              Parsed(DiceConfig(n, 0, false), Some(FailedToParse))
  {
    var tail := "d" + rest;
    assert pre + Show(n) + "d" + rest == pre + Show(n) + tail;
    ScanNumber(pre, n, tail);
    assert tail[1..] == rest;
    assert ScanUint8(rest) == None;
    assert ScanDice(pre + Show(n) + tail) == ScanFailed(n);
  }

  // Cases of the engine's own unit test, one per lemma.

  lemma ParseExampleSpaces()
    ensures ParseDiceString(" 3d6 ") == Parsed(DiceConfig(3, 6, false), None)
  {
    assert " 3d6 " == " " + Show(3) + "d" + Show(6) + " ";
    ParseShown(" ", 3, 6, " ");
  }

  lemma ParseExamplePlain()
    ensures ParseDiceString("3d6") == Parsed(DiceConfig(3, 6, false), None)
  {
    assert "3d6" == "" + Show(3) + "d" + Show(6) + "";
    ParseShown("", 3, 6, "");
  }

  lemma ParseExampleExplode()
    ensures ParseDiceString("10d7!") == Parsed(DiceConfig(10, 7, true), None)
  {
    assert "10d7!" == "" + Show(10) + "d" + Show(7) + "!";
    ParseShown("", 10, 7, "!");
  }

  lemma ParseExampleDifficultyTooHigh()
    ensures ParseDiceString("3d11") == Parsed(DiceConfig(3, 11, false), Some(BadDifficulty))
  {
    assert "3d11" == "" + Show(3) + "d" + Show(11) + "";
    ParseShown("", 3, 11, "");
  }

  lemma ParseExampleDifficultyZero()
    ensures ParseDiceString("10d0") == Parsed(DiceConfig(10, 0, false), Some(BadDifficulty))
  {
    assert "10d0" == "" + Show(10) + "d" + Show(0) + "";
    ParseShown("", 10, 0, "");
  }

  lemma ParseExampleNoDice()
    ensures ParseDiceString("0d6") == Parsed(DiceConfig(0, 6, false), Some(NoDice))
  {
    assert "0d6" == "" + Show(0) + "d" + Show(6) + "";
    ParseShown("", 0, 6, "");
  }

  lemma ParseExampleBadCountText()
    ensures ParseDiceString("xd6") == Parsed(DiceConfig(0, 0, false), Some(FailedToParse))
  {
    ParseNonNumericCount("xd6");
  }

  lemma ParseExampleBadDifficultyText()
    ensures ParseDiceString("6dy") == Parsed(DiceConfig(6, 0, false), Some(FailedToParse))
  {
    assert "6dy" == "" + Show(6) + "d" + "y";
    ParseNonNumericDifficulty("", 6, "y");
  }

  // ---------------------------------------------------------------------------
  // CalculateResults
  // ---------------------------------------------------------------------------

  /** How one die counts: the two branches of the scoring loop, and a die that counts for
      neither. A success is never also a failure, so at difficulty 1 nothing is a failure. */
  datatype Outcome = Success | Failure | Neither

  function Classify(difficulty: u8, roll: u8): (r: Outcome)
    ensures r == Success <==> roll >= difficulty
    ensures r == Failure <==> roll == 1 && difficulty > 1
  {
    if roll >= difficulty then Success else if roll == 1 then Failure else Neither
  }

  /** How many of `rolls` have outcome `k`, as an unbounded count. */
  function Tally(difficulty: u8, rolls: seq<u8>, k: Outcome): nat
  {
    SumBy(rolls, (roll: u8) => if Classify(difficulty, roll) == k then 1 else 0)
  }

  /** One more die adds one to the tally of its own outcome and nothing to the others. */
  lemma TallyAppend(difficulty: u8, rolls: seq<u8>, roll: u8, k: Outcome)
    ensures Tally(difficulty, rolls + [roll], k) ==
              Tally(difficulty, rolls, k) + (if Classify(difficulty, roll) == k then 1 else 0)
  {
    assert (rolls + [roll])[..|rolls|] == rolls;
  }

  datatype RollResults = RollResults(successes: u8, failures: u8, botch: bool)

  /** Scoring in closed form: the counters are uint8 and wrap past 255; each failure cancels
      one success with a floor at zero; a botch is a failure without any success. */
  function Score(difficulty: u8, rolls: seq<u8>): (r: RollResults)
    ensures r.botch ==> r.successes == 0 && r.failures > 0
    ensures r.failures as int == Tally(difficulty, rolls, Failure) % 256
    ensures Tally(difficulty, rolls, Success) == 0 ==> r.successes == 0
  {
    var s := Tally(difficulty, rolls, Success) % 256;
    var f := Tally(difficulty, rolls, Failure) % 256;
    RollResults(if s > f then s - f else 0, f, f > 0 && s == 0)
  }

  /** Scores a roll: one pass counting successes and failures, then the botch rule. */
  method CalculateResults(d: DiceConfig, results: seq<u8>) returns (r: RollResults)
    ensures r == Score(d.difficulty, results)
  {
    var successes: u8 := 0;
    var failures: u8 := 0;
    var botch := false;
    for i := 0 to |results|
      invariant successes == Tally(d.difficulty, results[..i], Success) % 256
      invariant failures == Tally(d.difficulty, results[..i], Failure) % 256
    {
      var roll := results[i];
      PrefixStep(results, i);
      TallyAppend(d.difficulty, results[..i], roll, Success);
      TallyAppend(d.difficulty, results[..i], roll, Failure);
      AddWraps(Tally(d.difficulty, results[..i], Success), 1);
      AddWraps(Tally(d.difficulty, results[..i], Failure), 1);
      if roll >= d.difficulty {
        successes := (successes + 1) % 256;
      } else if roll == 1 {
        failures := (failures + 1) % 256;
      }
    }
    assert results[..|results|] == results;
    if failures > 0 && successes == 0 {
      botch := true;
    } else if failures > successes {
      successes := 0;
    } else {
      successes := successes - failures;
    }
    r := RollResults(successes, failures, botch);
  }

  /** No die is both a success and a failure, so together they number at most the dice. */
  lemma {:induction false} TallyBound(difficulty: u8, rolls: seq<u8>)
    ensures Tally(difficulty, rolls, Success) + Tally(difficulty, rolls, Failure) <= |rolls|
  {
    if rolls != [] {
      TallyBound(difficulty, rolls[..|rolls| - 1]);
    }
  }

  /** With fewer than 256 dice nothing wraps: the reported failures are the failures, a botch
      is a failure without a success, and the successes are what the failures leave over. */
  lemma ScoreExact(difficulty: u8, rolls: seq<u8>)
    requires |rolls| < 256
    ensures var s, f := Tally(difficulty, rolls, Success), Tally(difficulty, rolls, Failure);
      var r := Score(difficulty, rolls);
      && r.failures == f
      && (r.botch <==> f > 0 && s == 0)
      && (r.botch ==> r.successes == 0)
      && r.successes == (if s > f then s - f else 0)
  {
    TallyBound(difficulty, rolls);
  }

  /** Scoring only looks at the multiset of rolls, not at their order. */
  lemma ScoreOrderIndependent(difficulty: u8, a: seq<u8>, b: seq<u8>)
    requires multiset(a) == multiset(b)
    ensures Score(difficulty, a) == Score(difficulty, b)
  {
    SumByPermutation(a, b, (roll: u8) => if Classify(difficulty, roll) == Success then 1 else 0);
    SumByPermutation(a, b, (roll: u8) => if Classify(difficulty, roll) == Failure then 1 else 0);
  }

  /** At difficulty 1 (or 0) every die is a success, so no roll is ever a failure or a botch. */
  lemma {:induction false} NoFailuresAtDifficultyOne(difficulty: u8, rolls: seq<u8>)
    requires difficulty <= 1
    ensures Tally(difficulty, rolls, Failure) == 0
    ensures !Score(difficulty, rolls).botch
  {
    if rolls != [] {
      NoFailuresAtDifficultyOne(difficulty, rolls[..|rolls| - 1]);
    }
  }

  // Cases of the engine's own unit test.

  lemma ScoreExampleNet()
    ensures Score(6, [1, 4, 6, 7, 10]) == RollResults(2, 1, false)
  {
    assert [] + [1] == [1];
    assert [1] + [4] == [1, 4];
    assert [1, 4] + [6] == [1, 4, 6];
    assert [1, 4, 6] + [7] == [1, 4, 6, 7];
    assert [1, 4, 6, 7] + [10] == [1, 4, 6, 7, 10];
    TallyAppend(6, [], 1, Success);
    TallyAppend(6, [1], 4, Success);
    TallyAppend(6, [1, 4], 6, Success);
    TallyAppend(6, [1, 4, 6], 7, Success);
    TallyAppend(6, [1, 4, 6, 7], 10, Success);
    TallyAppend(6, [], 1, Failure);
    TallyAppend(6, [1], 4, Failure);
    TallyAppend(6, [1, 4], 6, Failure);
    TallyAppend(6, [1, 4, 6], 7, Failure);
    TallyAppend(6, [1, 4, 6, 7], 10, Failure);
  }

  lemma ScoreExampleBotch()
    ensures Score(6, [1, 2, 3, 4, 5]) == RollResults(0, 1, true)
  {
    assert [] + [1] == [1];
    assert [1] + [2] == [1, 2];
    assert [1, 2] + [3] == [1, 2, 3];
    assert [1, 2, 3] + [4] == [1, 2, 3, 4];
    assert [1, 2, 3, 4] + [5] == [1, 2, 3, 4, 5];
    TallyAppend(6, [], 1, Success);
    TallyAppend(6, [1], 2, Success);
    TallyAppend(6, [1, 2], 3, Success);
    TallyAppend(6, [1, 2, 3], 4, Success);
    TallyAppend(6, [1, 2, 3, 4], 5, Success);
    TallyAppend(6, [], 1, Failure);
    TallyAppend(6, [1], 2, Failure);
    TallyAppend(6, [1, 2], 3, Failure);
    TallyAppend(6, [1, 2, 3], 4, Failure);
    TallyAppend(6, [1, 2, 3, 4], 5, Failure);
  }

  // ---------------------------------------------------------------------------
  // RollDice and the UInt8Slice ordering
  // ---------------------------------------------------------------------------

  /** The die a uint32 draw from the random source turns into. */
  function Face(draw: u32): (f: u8)
    ensures 1 <= f <= 10
  {
    draw % 10 + 1
  }

  /** The faces of the first `k` draws, in the order they were drawn. */
  function Faces(draw: nat -> u32, k: nat): (s: seq<u8>)
    ensures |s| == k
  {
    if k == 0 then [] else Faces(draw, k - 1) + [Face(draw(k - 1))]
  }

  /** Every value is a die value from 1 to 10. */
  predicate DieValues(s: seq<u8>) {
    forall i :: 0 <= i < |s| ==> 1 <= s[i] <= 10
  }

  /** Rearranging die values gives die values. */
  lemma DieValuesPermutation(a: seq<u8>, b: seq<u8>)
    requires DieValues(a) && multiset(a) == multiset(b)
    ensures DieValues(b)
  {
    forall i | 0 <= i < |b|
      ensures 1 <= b[i] <= 10
    {
      assert b[i] in multiset(a);
      var j :| 0 <= j < |a| && a[j] == b[i];
    }
  }

  /** Every face is a die value. */
  lemma {:induction false} FacesRange(draw: nat -> u32, k: nat)
    ensures DieValues(Faces(draw, k))
  {
    if k > 0 {
      FacesRange(draw, k - 1);
      assert forall i :: 0 <= i < k - 1 ==> Faces(draw, k)[i] == Faces(draw, k - 1)[i];
    }
  }

  function Tens(s: seq<u8>): nat {
    multiset(s)[10]
  }

  /** What the uint8 `diceToRoll` holds once `faces` have been rolled: the count to begin
      with, and one more, wrapping past 255, after every 10 when dice explode. */
  function Target(d: DiceConfig, faces: seq<u8>): (r: u8)
    ensures !d.explode ==> r == d.count
  {
    if faces == [] then d.count
    else
      var t := Target(d, faces[..|faces| - 1]);
      if faces[|faces| - 1] == 10 && d.explode then Inc(t) else t
  }

  /** Rolling one more die moves the target on by one exactly when it is an exploding 10. */
  lemma TargetStep(d: DiceConfig, faces: seq<u8>, x: u8)
    ensures Target(d, faces + [x]) ==
              if x == 10 && d.explode then Inc(Target(d, faces)) else Target(d, faces)
  {
    assert (faces + [x])[..|faces|] == faces;
  }

  /** The target in closed form: the count plus, when dice explode, the number of 10s
      rolled, wrapping past 255. */
  lemma {:induction false} TargetTens(d: DiceConfig, faces: seq<u8>)
    ensures Target(d, faces) == (d.count + (if d.explode then Tens(faces) else 0)) % 256
  {
    if faces != [] {
      var init, x := faces[..|faces| - 1], faces[|faces| - 1];
      PrefixStep(faces, |faces| - 1);
      assert faces[..|faces|] == faces;
      TensAppend(init, x);
      TargetTens(d, init);
      if d.explode {
        IncWraps(Target(d, init));
        AddWraps(d.count + Tens(init), if x == 10 then 1 else 0);
      }
    }
  }

  lemma TensAppend(s: seq<u8>, x: u8)
    ensures Tens(s + [x]) == Tens(s) + (if x == 10 then 1 else 0)
  {
    assert multiset(s + [x]) == multiset(s) + multiset{x};
  }

  /** The rolling loop stops after exactly `n` draws: `n` reaches the target, and no earlier
      number of draws did. */
  ghost predicate StopsAt(d: DiceConfig, draw: nat -> u32, n: nat) {
    && Target(d, Faces(draw, n)) <= n
    && forall j :: 0 <= j < n ==> j < Target(d, Faces(draw, j))
  }

  /** The number of draws is determined by the draws. */
  lemma StopsAtUnique(d: DiceConfig, draw: nat -> u32, n1: nat, n2: nat)
    requires StopsAt(d, draw, n1) && StopsAt(d, draw, n2)
    ensures n1 == n2
  {
  }

  /** The uint8 `diceToRoll` caps a roll at 255 dice. */
  lemma StopsAtBound(d: DiceConfig, draw: nat -> u32, n: nat)
    requires StopsAt(d, draw, n)
    ensures n <= 255
  {
    if n > 0 {
      assert n - 1 < Target(d, Faces(draw, n - 1));
    }
  }

  /** Without explosions exactly `count` dice are rolled. */
  lemma StopsWithoutExplosion(d: DiceConfig, draw: nat -> u32, n: nat)
    requires StopsAt(d, draw, n) && !d.explode
    ensures n == d.count
  {
    TargetTens(d, Faces(draw, n));
    if n > 0 {
      TargetTens(d, Faces(draw, n - 1));
      assert n - 1 < Target(d, Faces(draw, n - 1));
    }
  }

  lemma TensGrow(draw: nat -> u32, j: nat, n: nat)
    requires j <= n
    ensures Tens(Faces(draw, j)) <= Tens(Faces(draw, n))
    decreases n - j
  {
    if j < n {
      TensGrow(draw, j + 1, n);
      TensAppend(Faces(draw, j), Face(draw(j)));
    }
  }

  /** With explosions, as long as `diceToRoll` does not wrap, one extra die is rolled for
      every 10 among all the dice. */
  lemma StopsWithExplosion(d: DiceConfig, draw: nat -> u32, n: nat)
    requires StopsAt(d, draw, n) && d.explode
    requires d.count + Tens(Faces(draw, n)) < 256
    ensures n == d.count + Tens(Faces(draw, n))
  {
    var t := Tens(Faces(draw, n));
    assert Target(d, Faces(draw, n)) == d.count + t by {
      TargetTens(d, Faces(draw, n));
      SmallModulus(d.count + t);
    }
    if n > 0 {
      var t' := Tens(Faces(draw, n - 1));
      assert t' <= t by {
        TensGrow(draw, n - 1, n);
      }
      assert Target(d, Faces(draw, n - 1)) == d.count + t' by {
        TargetTens(d, Faces(draw, n - 1));
        SmallModulus(d.count + t');
      }
      assert n - 1 < d.count + t';
    }
  }

  lemma SmallModulus(x: int)
    requires 0 <= x < 256
    ensures x % 256 == x
  {
  }

  /** `diceToRoll` does wrap: with 255 exploding dice a first 10 takes it to 0, and the roll
      ends after that single die. */
  lemma ExplosionWrapsAt255(draw: nat -> u32)
    requires Face(draw(0)) == 10
    ensures StopsAt(DiceConfig(255, 6, true), draw, 1)
  {
    assert Faces(draw, 1) == [10];
  }

  predicate Sorted(s: seq<u8>) {
    forall i, j :: 0 <= i < j < |s| ==> s[i] <= s[j]
  }

  /** UInt8Slice.Less: ascending order. */
  predicate Less(p: array<u8>, i: int, j: int): (b: bool)
    requires 0 <= i < p.Length && 0 <= j < p.Length
    reads p
    ensures b ==> p[i] != p[j]
    ensures b || p[j] <= p[i]
    ensures b ==> p[i] < p[j]
  {
    p[i] < p[j]
  }

  /** UInt8Slice.Swap. */
  method Swap(p: array<u8>, i: int, j: int)
    requires 0 <= i < p.Length && 0 <= j < p.Length
    modifies p
    ensures p[i] == old(p[j]) && p[j] == old(p[i])
    ensures forall k :: 0 <= k < p.Length && k != i && k != j ==> p[k] == old(p[k])
    ensures multiset(p[..]) == old(multiset(p[..]))
  {
    p[i], p[j] := p[j], p[i];
  }

  /** sort.Sort over a UInt8Slice, as an insertion sort through Less and Swap: the slice
      ends up in ascending order and holds the same values. */
  method Sort(p: array<u8>)
    modifies p
    ensures Sorted(p[..])
    ensures multiset(p[..]) == old(multiset(p[..]))
  {
    var i := 0;
    while i < p.Length
      invariant 0 <= i <= p.Length
      invariant forall a, b :: 0 <= a < b < i ==> p[a] <= p[b]
      invariant multiset(p[..]) == old(multiset(p[..]))
    {
      var j := i;
      while j > 0 && Less(p, j, j - 1)
        invariant 0 <= j <= i
        invariant forall a, b :: 0 <= a < b <= i && a != j && b != j ==> p[a] <= p[b]
        invariant forall b :: j < b <= i ==> p[j] <= p[b]
        invariant multiset(p[..]) == old(multiset(p[..]))
      {
        Swap(p, j, j - 1);
        j := j - 1;
      }
      i := i + 1;
    }
  }

  lemma SortedHeadIsLeast(s: seq<u8>, x: u8)
    requires Sorted(s) && x in multiset(s)
    ensures s[0] <= x
  {
    assert x in s;
    var k :| 0 <= k < |s| && s[k] == x;
    assert k == 0 || s[0] <= s[k];
  }

  lemma SortedTail(s: seq<u8>)
    requires Sorted(s) && s != []
    ensures Sorted(s[1..])
  {
    forall i, j | 0 <= i < j < |s| - 1
      ensures s[1..][i] <= s[1..][j]
    {
      assert s[1..][i] == s[i + 1] && s[1..][j] == s[j + 1];
    }
  }

  /** A sorted arrangement of a multiset is unique, so every correct sort yields the same
      slice as the one the Go library uses. */
  lemma {:induction false} SortedUnique(a: seq<u8>, b: seq<u8>)
    requires Sorted(a) && Sorted(b) && multiset(a) == multiset(b)
    ensures a == b
  {
    if a == [] || b == [] {
      assert |a| == |multiset(a)| == |multiset(b)| == |b|;
    } else {
      assert a[0] in multiset(a) && b[0] in multiset(b);
      SortedHeadIsLeast(a, b[0]);
      SortedHeadIsLeast(b, a[0]);
      assert a == [a[0]] + a[1..];
      assert b == [b[0]] + b[1..];
      assert multiset(a[1..]) == multiset(a) - multiset{a[0]};
      assert multiset(b[1..]) == multiset(b) - multiset{b[0]};
      assert a[0] == b[0];
      assert multiset(a[1..]) == multiset(b[1..]);
      SortedTail(a);
      SortedTail(b);
      SortedUnique(a[1..], b[1..]);
    }
  }

  /** The loop went on through its first `n` draws: each test of the loop condition before
      them found fewer dice than the target. */
  ghost predicate Running(d: DiceConfig, draw: nat -> u32, n: nat) {
    n == 0 || (Running(d, draw, n - 1) && n - 1 < Target(d, Faces(draw, n - 1)))
  }

  lemma {:induction false} RunningAll(d: DiceConfig, draw: nat -> u32, n: nat)
    requires Running(d, draw, n)
    ensures forall j :: 0 <= j < n ==> j < Target(d, Faces(draw, j))
  {
    if n > 0 {
      RunningAll(d, draw, n - 1);
    }
  }

  /** The rolling loop of RollDice: draws dice in order, growing the pool by one for every
      exploding 10, until as many dice are rolled as `diceToRoll` says. */
  method DrawDice(d: DiceConfig, draw: nat -> u32) returns (results: seq<u8>)
    ensures results == Faces(draw, |results|)
    ensures StopsAt(d, draw, |results|)
  {
    var diceToRoll: u8 := d.count;
    results := [];
    while |results| < diceToRoll
      invariant |results| <= 255
      invariant results == Faces(draw, |results|)
      invariant diceToRoll == Target(d, Faces(draw, |results|))
      invariant Running(d, draw, |results|)
      decreases 255 - |results|
    {
      var k := |results|;
      var i := Face(draw(k));
      DrawStep(d, draw, k);
      results := results + [i];
      if i == 10 && d.explode {
        diceToRoll := Inc(diceToRoll);
      }
      assert |results| == k + 1;
    }
    RunningAll(d, draw, |results|);
  }

  /** One more draw, seen from the loop: the faces grow by one, the target moves on by one
      for an exploding 10, and the loop has run one draw further when the test passed. */
  lemma DrawStep(d: DiceConfig, draw: nat -> u32, n: nat)
    ensures Faces(draw, n + 1) == Faces(draw, n) + [Face(draw(n))]
    ensures Target(d, Faces(draw, n + 1)) ==
              if Face(draw(n)) == 10 && d.explode then Inc(Target(d, Faces(draw, n)))
              else Target(d, Faces(draw, n))
    ensures Running(d, draw, n + 1) <==> Running(d, draw, n) && n < Target(d, Faces(draw, n))
  {
    TargetStep(d, Faces(draw, n), Face(draw(n)));
  }

  /** Rolls the configured dice, drawing from `draw` in order (the random source), one extra
      die for every 10 when exploding, and returns them sorted in ascending order. */
  method RollDice(d: DiceConfig, draw: nat -> u32) returns (rolls: seq<u8>)
    ensures StopsAt(d, draw, |rolls|)
    ensures multiset(rolls) == multiset(Faces(draw, |rolls|))
    ensures Sorted(rolls)
    ensures DieValues(rolls)
    ensures |rolls| <= 255
    ensures !d.explode ==> |rolls| == d.count
    ensures d.explode && d.count + Tens(rolls) < 256 ==> |rolls| == d.count + Tens(rolls)
  {
    var results := DrawDice(d, draw);
    var n := |results|;
    var a := new u8[n](k requires 0 <= k < n => results[k]);
    assert a[..] == results;
    Sort(a);
    rolls := a[..];
    FacesRange(draw, n);
    DieValuesPermutation(results, rolls);
    StopsAtBound(d, draw, n);
    if !d.explode {
      StopsWithoutExplosion(d, draw, n);
    } else if d.count + Tens(rolls) < 256 {
      StopsWithExplosion(d, draw, n);
    }
  }
}
