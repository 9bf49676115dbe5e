/** The UI test's reading of the inset label: `GetSafeAreaInsets` runs the
    unanchored pattern `L:(\d+),T:(\d+),R:(\d+),B:(\d+),KeyboardHeight:(\d+)`
    over the label text, throws `InvalidOperationException` when it finds no
    match and otherwise `int.Parse`s the five groups; `GetKeyboardY` on Android
    subtracts the keyboard height from the screen height. */
module InsetParser {
  import opened Decimal

  /** The five numbers of the label, in the order the test's tuple holds them. */
  datatype Insets = Insets(left: int, top: int, right: int, bottom: int, keyboardHeight: int)

  /** The exceptions the parse can throw. */
  datatype ParseError =
    | InvalidOperation  // the pattern occurs nowhere in the text
    | Overflow          // int.Parse of a digit group larger than a C# int

  /** A value, or the exception that replaced it. */
  datatype Parsed<+T> = Ok(value: T) | Threw(error: ParseError) {
    predicate IsFailure() {
      Threw?
    }

    function PropagateFailure<U>(): Parsed<U>
      requires Threw?
    {
      Threw(error)
    }

    function Extract(): T
      requires Ok?
    {
      value
    }
  }

  /** The outcome of running the pattern: the captured groups, in order, or none. */
  datatype RegexMatch = Failure | Success(groups: seq<string>)

  /** The pattern as its literal parts: each literal is followed by one `(\d+)` group. */
  const Pattern: seq<string> := ["L:", ",T:", ",R:", ",B:", ",KeyboardHeight:"]

  /** Every literal after the first starts with a non-digit, so a digit group
      can only end where the next literal begins. */
  predicate WellFormed(lits: seq<string>) {
    forall i :: 1 <= i < |lits| ==> |lits[i]| > 0 && !IsDigit(lits[i][0])
  }

  lemma PatternWellFormed()
    ensures WellFormed(Pattern)
  {
  }

  /** Length of the longest run of digits at the start of `t`: what a greedy `\d+` takes. */
  function DigitRun(t: string): (n: nat)
    ensures n <= |t| && AllDigits(t[..n])
    ensures n < |t| ==> !IsDigit(t[n])
  {
    if t != [] && IsDigit(t[0]) then 1 + DigitRun(t[1..]) else 0
  }

  /** The pattern `lits[0](\d+)lits[1](\d+)...` anchored at the start of `t`,
      each group taking its greedy longest run. */
  function MatchFields(t: string, lits: seq<string>): (r: RegexMatch)
    ensures r.Success? ==> |r.groups| == |lits|
    ensures r.Success? ==> forall g :: g in r.groups ==> |g| > 0 && AllDigits(g)
    decreases |lits|
  {
    if lits == [] then Success([])
    else if lits[0] <= t then
      var u := t[|lits[0]|..];
      var n := DigitRun(u);
      if n == 0 then Failure
      else
        match MatchFields(u[n..], lits[1..])
        case Success(gs) => Success([u[..n]] + gs)
        case Failure => Failure
    else Failure
  }

  /** What it means for `t` to begin with the pattern, the groups being `gs`:
      any choice of non-empty digit runs, as a backtracking matcher may try them. */
  ghost predicate MatchesWith(t: string, lits: seq<string>, gs: seq<string>)
    decreases |lits|
  {
    |gs| == |lits| &&
    (lits == [] ||
     (|gs[0]| > 0 && AllDigits(gs[0]) && lits[0] + gs[0] <= t &&
      MatchesWith(t[|lits[0] + gs[0]|..], lits[1..], gs[1..])))
  }

  /** Every match the greedy matcher reports is a match of the pattern. */
  lemma {:induction false} MatchFieldsSound(t: string, lits: seq<string>)
    requires MatchFields(t, lits).Success?
    ensures MatchesWith(t, lits, MatchFields(t, lits).groups)
    decreases |lits|
  {
    if lits != [] {
      var u := t[|lits[0]|..];
      var n := DigitRun(u);
      var rest := MatchFields(u[n..], lits[1..]).groups;
      MatchFieldsSound(u[n..], lits[1..]);
      assert MatchFields(t, lits).groups == [u[..n]] + rest;
      LiteralThenRun(t, lits[0], n);
      MatchesWithCons(t, lits, u[..n], rest);
    }
  }

  /** A literal at the start of `t` followed by `n` more characters is a prefix of
      `t`, and what follows it is what follows those characters. */
  lemma LiteralThenRun(t: string, a: string, n: nat)
    requires a <= t && n <= |t| - |a|
    ensures a + t[|a|..][..n] <= t
    ensures t[|a + t[|a|..][..n]|..] == t[|a|..][n..]
  {
    assert a + t[|a|..][..n] == t[..|a| + n];
  }

  /** One unfolding of MatchesWith: a first group, then a match of the rest. */
  lemma MatchesWithCons(t: string, lits: seq<string>, g: string, gs: seq<string>)
    requires lits != [] && |g| > 0 && AllDigits(g) && lits[0] + g <= t
    requires MatchesWith(t[|lits[0] + g|..], lits[1..], gs)
    ensures MatchesWith(t, lits, [g] + gs)
  {
    assert ([g] + gs)[0] == g && ([g] + gs)[1..] == gs;
  }

  /** WellFormed survives dropping the first literal. */
  lemma WellFormedTail(lits: seq<string>)
    requires WellFormed(lits) && lits != []
    ensures WellFormed(lits[1..])
  {
    forall i | 1 <= i < |lits[1..]| ensures |lits[1..][i]| > 0 && !IsDigit(lits[1..][i][0]) {
      assert lits[1..][i] == lits[i + 1];
    }
  }

  /** In any match, the greedy run at the first group is at least as long as the
      group, and exactly as long when another literal follows. */
  lemma {:induction false} FirstGroupGreedy(t: string, lits: seq<string>, gs: seq<string>)
    requires WellFormed(lits) && MatchesWith(t, lits, gs) && lits != []
    ensures lits[0] <= t
    ensures DigitRun(t[|lits[0]|..]) >= |gs[0]|
    ensures |lits| > 1 ==> DigitRun(t[|lits[0]|..]) == |gs[0]|
    ensures t[|lits[0]|..][|gs[0]|..] == t[|lits[0] + gs[0]|..]
  {
    var a, g := lits[0], gs[0];
    var u := t[|a|..];
    var n := DigitRun(u);
    var k := |g|;
    assert a + g <= t;
    assert a + g == t[..|a| + k];
    assert a == t[..|a|];
    assert g == u[..k] by {
      forall i | 0 <= i < k ensures g[i] == u[i] {
        assert g[i] == (a + g)[|a| + i];
      }
    }
    assert u[k..] == t[|a + g|..];
    if |lits| > 1 {
      var rest := u[k..];
      assert MatchesWith(rest, lits[1..], gs[1..]);
      assert lits[1..][0] == lits[1];
      assert lits[1] <= rest;
      assert u[k] == lits[1][0];
    }
  }

  /** One step of the greedy matcher: the first literal, the first group, then the rest. */
  lemma MatchFieldsStep(t: string, lits: seq<string>)
    requires lits != [] && lits[0] <= t
    requires DigitRun(t[|lits[0]|..]) > 0
    requires MatchFields(t[|lits[0]|..][DigitRun(t[|lits[0]|..])..], lits[1..]).Success?
    ensures MatchFields(t, lits) ==
      var u := t[|lits[0]|..];
      Success([u[..DigitRun(u)]] + MatchFields(u[DigitRun(u)..], lits[1..]).groups)
  {
  }

  /** Prepending the same first group keeps the agreement between two group lists. */
  lemma ConsAgree(g0: string, hs: seq<string>, gs: seq<string>)
    requires |gs| == |hs| + 1 && |hs| > 0 && gs[0] == g0
    requires hs[..|hs| - 1] == gs[1..][..|hs| - 1]
    requires |gs[1..][|hs| - 1]| <= |hs[|hs| - 1]|
    ensures ([g0] + hs)[..|hs|] == gs[..|hs|]
    ensures |gs[|hs|]| <= |([g0] + hs)[|hs|]|
  {
    assert ([g0] + hs)[..|hs|] == [g0] + hs[..|hs| - 1];
    assert gs[..|hs|] == [gs[0]] + gs[1..][..|hs| - 1];
  }

  /** Whenever the pattern matches at all, the greedy matcher finds a match, with
      the same groups except possibly a longer last one: backtracking into a
      shorter digit run can never help, so the greedy choice is the regex's. */
  lemma {:induction false} MatchFieldsComplete(t: string, lits: seq<string>, gs: seq<string>)
    requires WellFormed(lits) && MatchesWith(t, lits, gs) && lits != []
    ensures MatchFields(t, lits).Success?
    ensures MatchFields(t, lits).groups[..|lits| - 1] == gs[..|lits| - 1]
    ensures |gs[|lits| - 1]| <= |MatchFields(t, lits).groups[|lits| - 1]|
    decreases |lits|
  {
    var u := t[|lits[0]|..];
    var n := DigitRun(u);
    FirstGroupGreedy(t, lits, gs);
    if |lits| > 1 {
      WellFormedTail(lits);
      MatchFieldsComplete(u[n..], lits[1..], gs[1..]);
      MatchFieldsStep(t, lits);
      assert u[..n] == gs[0];
      ConsAgree(gs[0], MatchFields(u[n..], lits[1..]).groups, gs);
    } else {
      assert MatchFields(u[n..], lits[1..]) == Success([]);
      MatchFieldsStep(t, lits);
    }
  }

  /** `Regex.Match`: the match at the leftmost position where the pattern matches. */
  function Search(s: string): (r: RegexMatch)
    ensures r.Success? ==> |r.groups| == |Pattern|
    ensures r.Success? ==> forall g :: g in r.groups ==> |g| > 0 && AllDigits(g)
    decreases |s|
  {
    match MatchFields(s, Pattern)
    case Success(gs) => Success(gs)
    case Failure => if s == [] then Failure else Search(s[1..])
  }

  /** The search reports the match at the first position where one starts. */
  lemma {:induction false} SearchLeftmost(s: string, k: nat)
    requires k <= |s| && MatchFields(s[k..], Pattern).Success?
    requires forall j :: 0 <= j < k ==> MatchFields(s[j..], Pattern).Failure?
    ensures Search(s) == MatchFields(s[k..], Pattern)
    decreases k
  {
    if k > 0 {
      assert MatchFields(s[0..], Pattern).Failure?;
      assert s[0..] == s;
      forall j | 0 <= j < k - 1 ensures MatchFields(s[1..][j..], Pattern).Failure? {
        assert s[1..][j..] == s[j + 1..];
      }
      assert s[1..][k - 1..] == s[k..];
      SearchLeftmost(s[1..], k - 1);
    } else {
      assert s[0..] == s;
    }
  }

  /** The search fails exactly when the pattern matches at no position. */
  lemma {:induction false} SearchFails(s: string)
    ensures Search(s).Failure? <==> forall j :: 0 <= j <= |s| ==> MatchFields(s[j..], Pattern).Failure?
    decreases |s|
  {
    assert s[0..] == s;
    if s != [] {
      SearchFails(s[1..]);
      forall j | 1 <= j <= |s| ensures s[1..][j - 1..] == s[j..] { }
    }
  }

  /** `int.Parse` of a digit group: the number, or an overflow above `int.MaxValue`. */
  function ParseInt32(d: string): (r: Parsed<int>)
    requires AllDigits(d)
    ensures r.Ok? <==> DigitsValue(d) <= Int32Max
    ensures r.Ok? ==> r.value == DigitsValue(d) && 0 <= r.value
    ensures r.Threw? ==> r.error == Overflow
  {
    var v := DigitsValue(d);
    if v <= Int32Max then Ok(v) else Threw(Overflow)
  }

  /** Every character of every literal of a match occurs in the matched text. */
  lemma {:induction false} MatchContainsLiterals(t: string, lits: seq<string>, i: nat, c: char)
    requires MatchFields(t, lits).Success? && i < |lits| && c in lits[i]
    ensures c in t
    decreases |lits|
  {
    var u := t[|lits[0]|..];
    if i == 0 {
      assert lits[0] <= t;
      var j :| 0 <= j < |lits[0]| && lits[0][j] == c;
      assert t[j] == c;
    } else {
      var n := DigitRun(u);
      assert lits[1..][i - 1] == lits[i];
      MatchContainsLiterals(u[n..], lits[1..], i - 1, c);
      var j :| 0 <= j < |u[n..]| && u[n..][j] == c;
      assert t[|lits[0]| + n + j] == c;
    }
  }

  /** A text the search matches holds every character of the pattern's literals. */
  lemma {:induction false} SearchNeedsLiterals(s: string, i: nat, c: char)
    requires Search(s).Success? && i < |Pattern| && c in Pattern[i]
    ensures c in s
    decreases |s|
  {
    if MatchFields(s, Pattern).Success? {
      MatchContainsLiterals(s, Pattern, i, c);
    } else {
      SearchNeedsLiterals(s[1..], i, c);
      var j :| 0 <= j < |s[1..]| && s[1..][j] == c;
      assert s[j + 1] == c;
    }
  }

  /** A text without a 'K' has no match, so `GetSafeAreaInsets` throws. */
  lemma WithoutKNeverParses(s: string)
    requires 'K' !in s
    ensures GetSafeAreaInsets(s) == Threw(InvalidOperation)
  {
    assert Pattern[4][1] == 'K';
    if Search(s).Success? {
      SearchNeedsLiterals(s, 4, 'K');
    }
  }

  /** Whether every group is a digit run whose value a C# `int` can hold. */
  predicate AllFit(gs: seq<string>)
  {
    forall i :: 0 <= i < |gs| ==> AllDigits(gs[i]) && DigitsValue(gs[i]) <= Int32Max
  }

  /** The five `int.Parse` calls on the captured groups, left to right; the first
      group too large for an `int` throws. */
  function ParseFields(gs: seq<string>): (r: Parsed<Insets>)
    requires |gs| == 5 && forall i :: 0 <= i < 5 ==> AllDigits(gs[i])
    ensures r.Ok? <==> AllFit(gs)
    ensures r.Ok? ==> r.value == Insets(DigitsValue(gs[0]), DigitsValue(gs[1]),
                                        DigitsValue(gs[2]), DigitsValue(gs[3]), DigitsValue(gs[4]))
    ensures r.Threw? ==> r.error == Overflow
  {
    var left :- ParseInt32(gs[0]);
    var top :- ParseInt32(gs[1]);
    var right :- ParseInt32(gs[2]);
    var bottom :- ParseInt32(gs[3]);
    var keyboardHeight :- ParseInt32(gs[4]);
    Ok(Insets(left, top, right, bottom, keyboardHeight))
  }

  /** `GetSafeAreaInsets` on the label's text. */
  function GetSafeAreaInsets(text: string): (r: Parsed<Insets>)
    ensures r == Threw(InvalidOperation) <==> Search(text).Failure?
    ensures r.Threw? ==> r.error == InvalidOperation || r.error == Overflow
    ensures r.Ok? ==> 0 <= r.value.left <= Int32Max && 0 <= r.value.top <= Int32Max
    ensures r.Ok? ==> 0 <= r.value.right <= Int32Max && 0 <= r.value.bottom <= Int32Max
    ensures r.Ok? ==> 0 <= r.value.keyboardHeight <= Int32Max
  {
    match Search(text)
    case Failure => Threw(InvalidOperation)
    case Success(gs) =>
      assert gs[0] in gs && gs[1] in gs && gs[2] in gs && gs[3] in gs && gs[4] in gs;
      ParseFields(gs)
  }

  /** `GetKeyboardY` on Android: the keyboard's top edge is the screen height less
      the keyboard height read from the label. The subtraction cannot wrap. */
  function AndroidKeyboardY(screenHeight: int, text: string): (r: Parsed<int>)
    ensures r.Ok? <==> GetSafeAreaInsets(text).Ok?
    ensures r.Threw? ==> r.error == GetSafeAreaInsets(text).error
    ensures r.Ok? ==> r.value == screenHeight - GetSafeAreaInsets(text).value.keyboardHeight
    ensures r.Ok? ==> r.value <= screenHeight
    ensures r.Ok? && 0 <= screenHeight <= Int32Max ==> InInt32(r.value)
  {
    var insets :- GetSafeAreaInsets(text);
    Ok(screenHeight - insets.keyboardHeight)
  }

  /** A natural number that a C# `int` can hold reads back within range. */
  lemma NatTextFits(n: nat)
    requires n <= Int32Max
    ensures DigitsValue(NatToString(n)) <= Int32Max
  {
    NatToStringRoundTrip(n);
  }

  /** Five digit runs that each fit a C# `int`. */
  lemma AllFitFive(a: string, b: string, c: string, d: string, e: string)
    requires AllDigits(a) && AllDigits(b) && AllDigits(c) && AllDigits(d) && AllDigits(e)
    requires DigitsValue(a) <= Int32Max && DigitsValue(b) <= Int32Max && DigitsValue(c) <= Int32Max
    requires DigitsValue(d) <= Int32Max && DigitsValue(e) <= Int32Max
    ensures AllFit([a, b, c, d, e])
  {
  }

  /** The texts of five numbers in range all pass `int.Parse`. */
  lemma NatTextsFit(l: nat, t: nat, r: nat, b: nat, h: nat)
    requires l <= Int32Max && t <= Int32Max && r <= Int32Max && b <= Int32Max && h <= Int32Max
    ensures AllFit([NatToString(l), NatToString(t), NatToString(r), NatToString(b), NatToString(h)])
  {
    NatTextFits(l); NatTextFits(t); NatTextFits(r); NatTextFits(b); NatTextFits(h);
    AllFitFive(NatToString(l), NatToString(t), NatToString(r), NatToString(b), NatToString(h));
  }

  /** Once the search has matched, the outcome is the parse of the captured groups. */
  lemma ParseOfMatch(text: string, gs: seq<string>)
    requires Search(text) == Success(gs)
    ensures |gs| == 5 && forall i :: 0 <= i < 5 ==> AllDigits(gs[i])
    ensures GetSafeAreaInsets(text) == ParseFields(gs)
  {
  }

  /** Matched groups that spell five numbers in range parse to those numbers. */
  lemma ParseGroups(text: string, l: nat, t: nat, r: nat, b: nat, h: nat)
    requires l <= Int32Max && t <= Int32Max && r <= Int32Max && b <= Int32Max && h <= Int32Max
    requires Search(text) ==
      Success([NatToString(l), NatToString(t), NatToString(r), NatToString(b), NatToString(h)])
    ensures GetSafeAreaInsets(text) == Ok(Insets(l, t, r, b, h))
  {
    var gs := [NatToString(l), NatToString(t), NatToString(r), NatToString(b), NatToString(h)];
    NatTextsFit(l, t, r, b, h);
    ParseOfMatch(text, gs);
    NatToStringRoundTrip(l);
    NatToStringRoundTrip(t);
    NatToStringRoundTrip(r);
    NatToStringRoundTrip(b);
    NatToStringRoundTrip(h);
  }
}
