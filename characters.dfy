/** The formula resolver: `attr+ability+N[!]` into tags, bonuses and an explode flag, and a
    character's trait table into a pool size. */
module Characters {
  import opened Wrappers
  import opened Ints
  import opened Decimal
  import opened Sums

  /** A character: trait name to score. A name that is absent reads as 0, Go's zero value. */
  type Character = map<string, u8>

  function Lookup(c: Character, name: string): (r: u8)
    ensures r == 0 <==> name !in c || c[name] == 0
    ensures name in c ==> r == c[name]
  {
    if name in c then c[name] else 0
  }

  function Occurrences(s: string, ch: char): nat {
    multiset(s)[ch]
  }

  // ---------------------------------------------------------------------------
  // The string helpers ParseFormula relies on
  // ---------------------------------------------------------------------------

  /** strings.Index for one character: the first position of `ch`, or -1. */
  function Index(s: string, ch: char): (i: int)
    ensures -1 <= i < |s|
    ensures i == -1 <==> ch !in s
    ensures 0 <= i ==> s[i] == ch && ch !in s[..i]
  {
    if s == [] then -1
    else if s[0] == ch then 0
    else
      var j := Index(s[1..], ch);
      if j == -1 then -1
      else
        assert s[..j + 1] == [s[0]] + s[1..][..j];
        j + 1
  }

  /** strings.Replace(s, ch, "", 1): only the first occurrence of `ch` is removed. */
  function ReplaceFirst(s: string, ch: char): (r: string)
    ensures ch !in s ==> r == s
    ensures ch in s ==> |r| == |s| - 1 && multiset(r) == multiset(s) - multiset{ch}
  {
    var i := Index(s, ch);
    if i < 0 then s
    else
      var r := s[..i] + s[i + 1..];
      assert s == s[..i] + [ch] + s[i + 1..];
      assert r[..i] == s[..i] && r[i..] == s[i + 1..];
      r
  }

  /** The first occurrence is found after a prefix free of `ch`. */
  lemma {:induction false} IndexAt(pre: string, ch: char, post: string)
    requires ch !in pre
    ensures Index(pre + [ch] + post, ch) == |pre|
  {
    if pre != [] {
      assert (pre + [ch] + post)[1..] == pre[1..] + [ch] + post;
      IndexAt(pre[1..], ch, post);
    }
  }

  /** Exactly the first occurrence is removed: what precedes it and everything after it,
      later occurrences included, are kept in order. */
  lemma ReplaceFirstAt(pre: string, ch: char, post: string)
    requires ch !in pre
    ensures ReplaceFirst(pre + [ch] + post, ch) == pre + post
  {
    var s := pre + [ch] + post;
    IndexAt(pre, ch, post);
    assert s[..|pre|] == pre && s[|pre| + 1..] == post;
  }

  /** strings.Join with a one-character separator. */
  function Join(tokens: seq<string>, sep: char): string
    requires |tokens| >= 1
  {
    if |tokens| == 1 then tokens[0] else tokens[0] + [sep] + Join(tokens[1..], sep)
  }

  /** A character put in front of the first token is put in front of the joined string. */
  lemma JoinPrepend(c: char, tokens: seq<string>, sep: char)
    requires |tokens| >= 1
    ensures Join([[c] + tokens[0]] + tokens[1..], sep) == [c] + Join(tokens, sep)
  {
    var r := [[c] + tokens[0]] + tokens[1..];
    assert r[1..] == tokens[1..];
  }

  lemma OccurrencesCons(s: string, ch: char)
    requires s != []
    ensures s == [s[0]] + s[1..]
    ensures Occurrences(s, ch) == Occurrences(s[1..], ch) + (if s[0] == ch then 1 else 0)
  {
    assert s == [s[0]] + s[1..];
    assert multiset(s) == multiset{s[0]} + multiset(s[1..]);
  }

  /** An empty first token puts a separator in front of the joined string. */
  lemma JoinEmptyFirst(tokens: seq<string>, sep: char)
    requires |tokens| >= 1
    ensures Join([""] + tokens, sep) == [sep] + Join(tokens, sep)
  {
    assert ([""] + tokens)[1..] == tokens;
  }

  /** strings.Split with a one-character separator: one token more than there are
      separators, no token holds a separator, and joining the tokens gives back `s`. The
      empty string gives one empty token. */
  function Split(s: string, sep: char): (r: seq<string>)
    ensures |r| == Occurrences(s, sep) + 1
    ensures forall k :: 0 <= k < |r| ==> sep !in r[k]
    ensures Join(r, sep) == s
  {
    if s == [] then [""]
    else
      var rest := Split(s[1..], sep);
      OccurrencesCons(s, sep);
      if s[0] == sep then
        JoinEmptyFirst(rest, sep);
        [""] + rest
      else
        JoinPrepend(s[0], rest, sep);
        [[s[0]] + rest[0]] + rest[1..]
  }

  lemma {:induction false} SplitToken(t: string, sep: char)
    requires sep !in t
    ensures Split(t, sep) == [t]
  {
    if t != [] {
      SplitToken(t[1..], sep);
    }
  }

  lemma {:induction false} SplitAfterToken(t: string, sep: char, u: string)
    requires sep !in t
    ensures Split(t + [sep] + u, sep) == [t] + Split(u, sep)
  {
    AfterTokenParts(t, sep, u);
    if t != [] {
      SplitAfterToken(t[1..], sep, u);
      var rest := [t[1..]] + Split(u, sep);
      assert rest[0] == t[1..] && rest[1..] == Split(u, sep);
    }
  }

  lemma AfterTokenParts(t: string, sep: char, u: string)
    ensures (t + [sep] + u)[0] == if t == [] then sep else t[0]
    ensures t == [] ==> (t + [sep] + u)[1..] == u
    ensures t != [] ==> (t + [sep] + u)[1..] == t[1..] + [sep] + u && [t[0]] + t[1..] == t
  {
  }

  /** Splitting undoes joining, for tokens that hold no separator. */
  lemma {:induction false} SplitJoin(tokens: seq<string>, sep: char)
    requires |tokens| >= 1
    requires forall k :: 0 <= k < |tokens| ==> sep !in tokens[k]
    ensures Split(Join(tokens, sep), sep) == tokens
  {
    if |tokens| == 1 {
      SplitToken(tokens[0], sep);
    } else {
      SplitJoin(tokens[1..], sep);
      SplitAfterToken(tokens[0], sep, Join(tokens[1..], sep));
      assert tokens == [tokens[0]] + tokens[1..];
    }
  }

  // ---------------------------------------------------------------------------
  // strconv.Atoi and the bonus of one token
  // ---------------------------------------------------------------------------

  const MinInt: int := -0x8000_0000_0000_0000
  const MaxInt: int := 0x7fff_ffff_ffff_ffff

  /** strconv.Atoi on a 64-bit platform: an optional sign, then at least one decimal digit and
      nothing else, and a value that fits in an int. */
  function Atoi(s: string): (r: Option<int>)
    ensures r.Some? ==> MinInt <= r.value <= MaxInt
    ensures s != [] && AllDigits(s) && Value(s) <= MaxInt ==> r == Some(Value(s))
    ensures s == [] || (!IsDigit(s[0]) && s[0] != '-' && s[0] != '+') ==> r == None
    ensures r.Some? ==>
              s != [] &&
              var d := if s[0] == '-' || s[0] == '+' then s[1..] else s;
              d != [] && AllDigits(d) && r.value == (if s[0] == '-' then -(Value(d) as int) else Value(d))
    ensures (s != [] &&
             var d := if s[0] == '-' || s[0] == '+' then s[1..] else s;
             d != [] && AllDigits(d) &&
             MinInt <= (if s[0] == '-' then -(Value(d) as int) else Value(d)) <= MaxInt)
            ==> r.Some?
  {
    var digits := if s != [] && (s[0] == '-' || s[0] == '+') then s[1..] else s;
    if digits == [] || !AllDigits(digits) then None
    else
      var magnitude: int := Value(digits);
      var v := if s[0] == '-' then -magnitude else magnitude;
      if v < MinInt || v > MaxInt then None else Some(v)
  }

  /** The bonus a token adds: `uint8(n)` when Atoi reads a positive `n`, else none. */
  function Bonus(token: string): (r: seq<u8>)
    ensures |r| <= 1
    ensures r != [] <==> Atoi(token).Some? && Atoi(token).value > 0
    ensures r != [] ==> r[0] as int == Atoi(token).value % 256
  {
    match Atoi(token)
    case Some(n) => if n > 0 then [n % 256] else []
    case None => []
  }

  /** The bonuses of a list of tokens, in order. */
  function Bonuses(tokens: seq<string>): (r: seq<u8>)
    ensures |r| <= |tokens|
  {
    if tokens == [] then [] else Bonuses(tokens[..|tokens| - 1]) + Bonus(tokens[|tokens| - 1])
  }

  lemma {:induction false} BonusesConcat(a: seq<string>, b: seq<string>)
    ensures Bonuses(a + b) == Bonuses(a) + Bonuses(b)
  {
    if b == [] {
      assert a + b == a;
    } else {
      ConcatInit(a, b);
      BonusesConcat(a, b[..|b| - 1]);
    }
  }

  lemma BonusesStep(tokens: seq<string>, i: nat)
    requires i < |tokens|
    ensures Bonuses(tokens[..i + 1]) == Bonuses(tokens[..i]) + Bonus(tokens[i])
  {
    assert tokens[..i + 1][..i] == tokens[..i];
  }

  /** A number token adds itself, truncated to eight bits, when it is positive and fits an
      int; zero or a number too large for an int adds nothing. */
  lemma BonusOfNumber(n: nat)
    ensures 0 < n <= MaxInt ==> Bonus(Show(n)) == [n % 256]
    ensures n == 0 || n > MaxInt ==> Bonus(Show(n)) == []
  {
    ValueShow(n);
  }

  /** A negative number token adds nothing, whether or not it fits an int. */
  lemma BonusOfNegative(n: nat)
    ensures Bonus("-" + Show(n)) == []
  {
    assert ("-" + Show(n))[1..] == Show(n);
  }

  /** Signs are read, trailing text is an error, and a non-number adds no bonus. */
  lemma AtoiExamples()
    ensures Atoi("+5") == Some(5) && Atoi("-5") == Some(-5)
    ensures Atoi("1x") == None && Atoi("3rd") == None && Atoi("+") == None
    ensures Bonus("1x") == [] && Bonus("+5") == [5]
  {
    assert !IsDigit("1x"[1]);
    assert !IsDigit("3rd"[1]);
    assert "+5"[1..] == "5" && "-5"[1..] == "5";
    assert "5"[..0] == [] && Value("5") == 5;
  }

  // ---------------------------------------------------------------------------
  // ParseFormula
  // ---------------------------------------------------------------------------

  /** The tokens of a formula: the first '!' removed, the rest split on '+'. There is one
      token more than there are '+' in the formula, no token holds a '+', and joining them
      with '+' gives the formula without its first '!'. */
  function Tokens(formula: string): (r: seq<string>)
    ensures |r| == Occurrences(formula, '+') + 1
    ensures forall k :: 0 <= k < |r| ==> '+' !in r[k]
    ensures Join(r, '+') == if '!' in formula then ReplaceFirst(formula, '!') else formula
  {
    var f := if '!' in formula then ReplaceFirst(formula, '!') else formula;
    assert Occurrences(f, '+') == Occurrences(formula, '+');
    Split(f, '+')
  }

  /** The loop of ParseFormula: every token is appended to the tags, and the positive
      numbers among them, truncated to eight bits, to the bonuses. */
  method ScanTokens(tokens: seq<string>) returns (tags: seq<string>, bonuses: seq<u8>)
    ensures tags == tokens
    ensures bonuses == Bonuses(tokens)
  {
    tags := [];
    bonuses := [];
    for i := 0 to |tokens|
      invariant tags == tokens[..i]
      invariant bonuses == Bonuses(tokens[..i])
    {
      var token := tokens[i];
      var n := Atoi(token);
      var b: seq<u8> := [];
      if n.Some? && n.value > 0 {
        b := [n.value % 256];
      }
      assert b == Bonus(token);
      bonuses := bonuses + b;
      BonusesStep(tokens, i);
      PrefixStep(tokens, i);
      tags := tags + [token];
    }
    assert tokens[..|tokens|] == tokens;
  }

  /** Parses `attr+ability[+N][!]`: explode records a '!', every token becomes a tag (numbers
      too), every token that reads as a positive integer also becomes a bonus, and the error
      result is always nil. */
  method ParseFormula(formula: string)
    returns (tags: seq<string>, bonuses: seq<u8>, explode: bool, err: Option<string>)
    ensures explode <==> '!' in formula
    ensures tags == Tokens(formula)
    ensures bonuses == Bonuses(tags)
    ensures err == None
  {
    explode := '!' in formula;
    var f := formula;
    if explode {
      f := ReplaceFirst(formula, '!');
    }
    var tokens := Split(f, '+');
    tags, bonuses := ScanTokens(tokens);
    err := None;
  }

  /** An example formula loses its '!' ... */
  lemma ReplaceExample()
    ensures ReplaceFirst("strength+athletics+1!", '!') == "strength+athletics+1"
  {
    var pre := "strength+athletics+1";
    assert '!' !in pre;
    assert pre + ['!'] + [] == "strength+athletics+1!" && pre + [] == pre;
    ReplaceFirstAt(pre, '!', []);
  }

  /** ... splits into its three tokens ... */
  lemma SplitExample()
    ensures Split("strength+athletics+1", '+') == ["strength", "athletics", "1"]
  {
    var tags := ["strength", "athletics", "1"];
    assert Join(tags, '+') == "strength+athletics+1";
    SplitJoin(tags, '+');
  }

  /** ... of which only the last is a bonus ... */
  lemma BonusesExample()
    ensures Bonuses(["strength", "athletics", "1"]) == [1]
  {
    var tags := ["strength", "athletics", "1"];
    assert Bonus("strength") == [] && Bonus("athletics") == [];
    assert Show(1) == "1";
    BonusOfNumber(1);
    assert tags[..2] == ["strength", "athletics"] && tags[..2][..1] == ["strength"];
  }

  /** ... so ParseFormula returns the three tags, the bonus 1 and explode set. */
  lemma FormulaExample()
    ensures '!' in "strength+athletics+1!"
    ensures Tokens("strength+athletics+1!") == ["strength", "athletics", "1"]
    ensures Bonuses(Tokens("strength+athletics+1!")) == [1]
  {
    assert "strength+athletics+1!"[20] == '!';
    ReplaceExample();
    SplitExample();
    BonusesExample();
  }

  /** The empty formula yields one empty tag and no bonus. */
  lemma EmptyFormula()
    ensures Tokens("") == [""]
    ensures Bonuses(Tokens("")) == []
  {
  }

  /** A character that is neither the separator nor in any token is not in the join. */
  lemma {:induction false} JoinAvoids(tokens: seq<string>, sep: char, ch: char)
    requires |tokens| >= 1 && ch != sep
    requires forall k :: 0 <= k < |tokens| ==> ch !in tokens[k]
    ensures ch !in Join(tokens, sep)
  {
    if |tokens| > 1 {
      JoinAvoids(tokens[1..], sep, ch);
      assert ch !in tokens[0];
    }
  }

  /** Writing tags as a formula and parsing it gives the tags back: tags joined with '+',
      with a '!' appended or not, are read back as the same tags and the same explode flag,
      as long as no tag holds a '+' or a '!'. */
  lemma FormulaRoundTrip(tags: seq<string>, explode: bool)
    requires |tags| >= 1
    requires forall k :: 0 <= k < |tags| ==> '+' !in tags[k] && '!' !in tags[k]
    ensures var formula := Join(tags, '+') + (if explode then "!" else "");
      && ('!' in formula <==> explode)
      && Tokens(formula) == tags
  {
    var body := Join(tags, '+');
    JoinAvoids(tags, '+', '!');
    SplitJoin(tags, '+');
    if explode {
      assert body + "!" == body + ['!'] + [] && body + [] == body;
      ReplaceFirstAt(body, '!', []);
    } else {
      assert body + "" == body;
    }
  }

  // ---------------------------------------------------------------------------
  // CountDice and Validate
  // ---------------------------------------------------------------------------

  /** The sum of the tags' trait values, each tag counted as often as it appears. */
  function TraitTotal(c: Character, tags: seq<string>): nat {
    SumBy(tags, (name: string) => Lookup(c, name) as nat)
  }

  function BonusTotal(bonuses: seq<u8>): nat {
    SumBy(bonuses, (b: u8) => b as nat)
  }

  /** Sums the tags' trait values and the bonuses in a uint8 that wraps past 255. */
  method CountDice(c: Character, tags: seq<string>, bonuses: seq<u8>) returns (sum: u8)
    ensures sum == (TraitTotal(c, tags) + BonusTotal(bonuses)) % 256
  {
    sum := 0;
    for i := 0 to |tags|
      invariant sum == TraitTotal(c, tags[..i]) % 256
    {
      var v := Lookup(c, tags[i]);
      SumByStep(tags, i, (name: string) => Lookup(c, name) as nat);
      AddWraps(TraitTotal(c, tags[..i]), v);
      sum := (sum + v) % 256;
    }
    assert tags[..|tags|] == tags;
    for i := 0 to |bonuses|
      invariant sum == (TraitTotal(c, tags) + BonusTotal(bonuses[..i])) % 256
    {
      SumByStep(bonuses, i, (b: u8) => b as nat);
      AddWraps(TraitTotal(c, tags) + BonusTotal(bonuses[..i]), bonuses[i]);
      sum := (sum + bonuses[i]) % 256;
    }
    assert bonuses[..|bonuses|] == bonuses;
  }

  /** The pool does not depend on the order of the tags or of the bonuses. */
  lemma PoolOrderIndependent(c: Character, t1: seq<string>, t2: seq<string>, b1: seq<u8>, b2: seq<u8>)
    requires multiset(t1) == multiset(t2) && multiset(b1) == multiset(b2)
    ensures (TraitTotal(c, t1) + BonusTotal(b1)) % 256 == (TraitTotal(c, t2) + BonusTotal(b2)) % 256
  {
    SumByPermutation(t1, t2, (name: string) => Lookup(c, name) as nat);
    SumByPermutation(b1, b2, (b: u8) => b as nat);
  }

  /** A tag the character does not have adds nothing to the pool; a tag it has adds its
      score, again for every repetition. */
  lemma TagContribution(c: Character, tags: seq<string>, name: string)
    ensures TraitTotal(c, tags + [name]) == TraitTotal(c, tags) + (if name in c then c[name] else 0)
  {
    SumByConcat(tags, [name], (n: string) => Lookup(c, n) as nat);
  }

  /** The nine traits a character must have nonzero. */
  const NonzeroFields: seq<string> := ["str", "dex", "sta", "man", "app", "cha", "per", "int", "wis"]

  /** True exactly when all nine required traits are present and nonzero. */
  method Validate(c: Character) returns (ok: bool)
    ensures ok <==> forall name :: name in NonzeroFields ==> Lookup(c, name) != 0
  {
    for i := 0 to |NonzeroFields|
      invariant forall k :: 0 <= k < i ==> Lookup(c, NonzeroFields[k]) != 0
    {
      if Lookup(c, NonzeroFields[i]) == 0 {
        return false;
      }
    }
    return true;
  }
}
