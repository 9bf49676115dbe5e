/** How the host app's inset labels and the UI test's parser fit together. */
module LabelProofs {
  import opened Decimal
  import opened InsetParser
  import Extensions

  /** Literals interleaved with the decimal text of values: `lits[0] v0 lits[1] v1 ...`. */
  function Render(lits: seq<string>, vals: seq<int>): string
    requires |lits| == |vals|
  {
    if lits == [] then [] else lits[0] + IntToString(vals[0]) + Render(lits[1..], vals[1..])
  }

  function Decimals(vals: seq<int>): (ds: seq<string>)
    ensures |ds| == |vals|
    ensures forall i :: 0 <= i < |vals| ==> ds[i] == IntToString(vals[i])
  {
    if vals == [] then [] else [IntToString(vals[0])] + Decimals(vals[1..])
  }

  predicate AllNonNegative(vals: seq<int>) {
    forall i :: 0 <= i < |vals| ==> vals[i] >= 0
  }

  /** A digit run stops at the first non-digit. */
  lemma DigitRunOf(d: string, w: string)
    requires AllDigits(d) && (w == [] || !IsDigit(w[0]))
    ensures DigitRun(d + w) == |d|
  {
    var t := d + w;
    assert forall k :: 0 <= k < |d| ==> t[k] == d[k];
    assert w != [] ==> t[|d|] == w[0];
  }

  /** One literal and one value off the front of a rendering. */
  lemma RenderStep(lits: seq<string>, vals: seq<int>, rest: string)
    requires |lits| == |vals| && lits != []
    ensures Render(lits, vals) + rest ==
      lits[0] + (IntToString(vals[0]) + (Render(lits[1..], vals[1..]) + rest))
  {
  }

  /** After the first value, a rendering continues with a non-digit, or ends. */
  lemma RenderTailStart(lits: seq<string>, vals: seq<int>, rest: string)
    requires |lits| == |vals| && lits != [] && WellFormed(lits)
    requires rest == [] || !IsDigit(rest[0])
    ensures var r := Render(lits[1..], vals[1..]) + rest; r == [] || !IsDigit(r[0])
  {
    if |lits| > 1 {
      RenderStep(lits[1..], vals[1..], rest);
      assert lits[1..][0] == lits[1];
    }
  }

  lemma AllNonNegativeCons(vals: seq<int>)
    requires vals != []
    ensures AllNonNegative(vals) <==> vals[0] >= 0 && AllNonNegative(vals[1..])
  {
    if vals[0] >= 0 && AllNonNegative(vals[1..]) {
      forall i | 1 <= i < |vals| ensures vals[i] >= 0 {
        assert vals[i] == vals[1..][i - 1];
      }
    }
  }

  /** The greedy matcher reads back the rendered values exactly when none of
      them is negative: the '-' of a negative value is not a digit. */
  lemma {:induction false} MatchRendered(lits: seq<string>, vals: seq<int>, rest: string)
    requires |lits| == |vals| && WellFormed(lits)
    requires rest == [] || !IsDigit(rest[0])
    ensures MatchFields(Render(lits, vals) + rest, lits) ==
      if AllNonNegative(vals) then Success(Decimals(vals)) else Failure
    decreases |lits|
  {
    if lits != [] {
      var d := IntToString(vals[0]);
      var r := Render(lits[1..], vals[1..]) + rest;
      var t := Render(lits, vals) + rest;
      RenderStep(lits, vals, rest);
      assert t[|lits[0]|..] == d + r;
      AllNonNegativeCons(vals);
      if vals[0] >= 0 {
        RenderTailStart(lits, vals, rest);
        DigitRunOf(d, r);
        assert (d + r)[|d|..] == r && (d + r)[..|d|] == d;
        WellFormedTail(lits);
        MatchRendered(lits[1..], vals[1..], rest);
      } else {
        assert DigitRun(d + r) == 0;
      }
    }
  }

  /** Rendering one more literal and value in front. */
  lemma RenderCons(lits: seq<string>, vals: seq<int>, rendered: string)
    requires |lits| == |vals| && lits != []
    requires Render(lits[1..], vals[1..]) == rendered
    ensures Render(lits, vals) == lits[0] + IntToString(vals[0]) + rendered
  {
  }

  lemma Assoc(x: string, y: string, z: string)
    ensures x + y + z == x + (y + z)
  {
  }

  /** Ten pieces joined left to right equal the same pieces grouped from the right in pairs. */
  lemma Regroup(a1: string, a2: string, a3: string, a4: string, a5: string,
                a6: string, a7: string, a8: string, a9: string, a10: string)
    ensures a1 + a2 + a3 + a4 + a5 + a6 + a7 + a8 + a9 + a10 ==
            a1 + a2 + (a3 + a4 + (a5 + a6 + (a7 + a8 + (a9 + a10 + []))))
  {
    var r4 := a9 + a10 + [];
    assert r4 == a9 + a10;
    var r3 := a7 + a8 + r4;
    Assoc(a1 + a2 + a3 + a4 + a5 + a6 + a7 + a8, a9, a10);
    Assoc(a1 + a2 + a3 + a4 + a5 + a6 + a7, a8, a9 + a10);
    Assoc(a1 + a2 + a3 + a4 + a5 + a6, a7, a8 + r4);
    Assoc(a1 + a2 + a3 + a4 + a5 + a6, a7 + a8, r4);
    var r2 := a5 + a6 + r3;
    Assoc(a1 + a2 + a3 + a4 + a5, a6, r3);
    Assoc(a1 + a2 + a3 + a4, a5, a6 + r3);
    Assoc(a1 + a2 + a3 + a4, a5 + a6, r3);
    Assoc(a1 + a2 + a3, a4, r2);
    Assoc(a1 + a2, a3, a4 + r2);
    Assoc(a1 + a2, a3 + a4, r2);
  }

  /** The label is the pattern's literals interleaved with the five values. */
  lemma LabelIsRendered(l: int, t: int, r: int, b: int, h: int)
    ensures Extensions.Label(l, t, r, b, h) == Render(Pattern, [l, t, r, b, h])
  {
    var vs := [l, t, r, b, h];
    var r4 := ",KeyboardHeight:" + IntToString(h) + [];
    var r3 := ",B:" + IntToString(b) + r4;
    var r2 := ",R:" + IntToString(r) + r3;
    var r1 := ",T:" + IntToString(t) + r2;
    assert Pattern[4..][1..] == [] && vs[4..][1..] == [];
    RenderCons(Pattern[4..], vs[4..], []);
    assert Pattern[3..][1..] == Pattern[4..] && vs[3..][1..] == vs[4..];
    RenderCons(Pattern[3..], vs[3..], r4);
    assert Pattern[2..][1..] == Pattern[3..] && vs[2..][1..] == vs[3..];
    RenderCons(Pattern[2..], vs[2..], r3);
    assert Pattern[1..][1..] == Pattern[2..] && vs[1..][1..] == vs[2..];
    RenderCons(Pattern[1..], vs[1..], r2);
    RenderCons(Pattern, vs, r1);
    Regroup("L:", IntToString(l), ",T:", IntToString(t), ",R:", IntToString(r),
            ",B:", IntToString(b), ",KeyboardHeight:", IntToString(h));
  }

  /** A match can only start at an 'L'. */
  lemma MatchStartsWithL(t: string)
    requires MatchFields(t, Pattern).Success?
    ensures |t| > 0 && t[0] == 'L'
  {
    assert Pattern[0] <= t;
  }

  /** Text without an 'L' in front of the label is skipped over. */
  lemma {:induction false} SearchSkips(p: string, s: string)
    requires 'L' !in p
    ensures Search(p + s) == Search(s)
    decreases |p|
  {
    if p != [] {
      if MatchFields(p + s, Pattern).Success? {
        MatchStartsWithL(p + s);
        assert false;
      }
      assert (p + s)[1..] == p[1..] + s;
      assert forall c :: c in p[1..] ==> c in p;
      SearchSkips(p[1..], s);
    } else {
      assert p + s == s;
    }
  }

  /** The search finds a rendering of non-negative values amid surrounding text. */
  lemma SearchRendered(prefix: string, vals: seq<int>, suffix: string)
    requires |vals| == |Pattern| && AllNonNegative(vals)
    requires 'L' !in prefix
    requires suffix == [] || !IsDigit(suffix[0])
    ensures Search(prefix + Render(Pattern, vals) + suffix) == Success(Decimals(vals))
  {
    var txt := Render(Pattern, vals);
    PatternWellFormed();
    MatchRendered(Pattern, vals, suffix);
    Assoc(prefix, txt, suffix);
    SearchSkips(prefix, txt + suffix);
  }

  lemma DecimalsFive(l: int, t: int, r: int, b: int, h: int)
    ensures Decimals([l, t, r, b, h]) ==
      [IntToString(l), IntToString(t), IntToString(r), IntToString(b), IntToString(h)]
  {
    assert [h][1..] == [];
    assert Decimals([h]) == [IntToString(h)];
    assert [b, h][1..] == [h];
    assert Decimals([b, h]) == [IntToString(b), IntToString(h)];
    assert [r, b, h][1..] == [b, h];
    assert Decimals([r, b, h]) == [IntToString(r), IntToString(b), IntToString(h)];
    assert [t, r, b, h][1..] == [r, b, h];
    assert Decimals([t, r, b, h]) == [IntToString(t), IntToString(r), IntToString(b), IntToString(h)];
    assert [l, t, r, b, h][1..] == [t, r, b, h];
  }

  /** The search finds the label's five numbers amid the surrounding text. */
  lemma SearchAmidText(prefix: string, l: int, t: int, r: int, b: int, h: int, suffix: string)
    requires 0 <= l && 0 <= t && 0 <= r && 0 <= b && 0 <= h
    requires 'L' !in prefix
    requires suffix == [] || !IsDigit(suffix[0])
    ensures Search(prefix + Extensions.Label(l, t, r, b, h) + suffix) ==
      Success([IntToString(l), IntToString(t), IntToString(r), IntToString(b), IntToString(h)])
  {
    LabelIsRendered(l, t, r, b, h);
    SearchRendered(prefix, [l, t, r, b, h], suffix);
    DecimalsFive(l, t, r, b, h);
  }

  /** Round trip with surrounding text: the label parses back to its five values
      when none is negative or above `int.MaxValue`, whatever text precedes it
      (as long as that text holds no 'L' to start an earlier match) and whatever
      follows it (as long as it does not extend the last number). */
  lemma ParseAmidText(prefix: string, l: int, t: int, r: int, b: int, h: int, suffix: string)
    requires 'L' !in prefix
    requires suffix == [] || !IsDigit(suffix[0])
    requires 0 <= l <= Int32Max && 0 <= t <= Int32Max && 0 <= r <= Int32Max
    requires 0 <= b <= Int32Max && 0 <= h <= Int32Max
    ensures GetSafeAreaInsets(prefix + Extensions.Label(l, t, r, b, h) + suffix) == Ok(Insets(l, t, r, b, h))
  {
    SearchAmidText(prefix, l, t, r, b, h, suffix);
    ParseGroups(prefix + Extensions.Label(l, t, r, b, h) + suffix, l, t, r, b, h);
  }

  /** Round trip: parsing the label gives back the five values it was made from. */
  lemma LabelRoundTrip(l: int, t: int, r: int, b: int, h: int)
    requires 0 <= l <= Int32Max && 0 <= t <= Int32Max && 0 <= r <= Int32Max
    requires 0 <= b <= Int32Max && 0 <= h <= Int32Max
    ensures GetSafeAreaInsets(Extensions.Label(l, t, r, b, h)) == Ok(Insets(l, t, r, b, h))
  {
    ParseAmidText([], l, t, r, b, h, []);
    NothingAround(Extensions.Label(l, t, r, b, h));
  }

  lemma NothingAround(x: string)
    ensures [] + x + [] == x
  {
  }

  /** When two labels are in the text, the first one is read. */
  lemma FirstLabelWins(l: int, t: int, r: int, b: int, h: int, later: string)
    requires 0 <= l <= Int32Max && 0 <= t <= Int32Max && 0 <= r <= Int32Max
    requires 0 <= b <= Int32Max && 0 <= h <= Int32Max
    ensures GetSafeAreaInsets(Extensions.Label(l, t, r, b, h) + " " + later) == Ok(Insets(l, t, r, b, h))
  {
    var txt := Extensions.Label(l, t, r, b, h);
    ParseAmidText([], l, t, r, b, h, " " + later);
    Assoc(txt, " ", later);
    assert [] + txt == txt;
  }

  /** Literals without an 'L' and decimal texts render to text without an 'L'. */
  lemma {:induction false} RenderWithoutL(lits: seq<string>, vals: seq<int>)
    requires |lits| == |vals|
    requires forall i :: 0 <= i < |lits| ==> 'L' !in lits[i]
    ensures 'L' !in Render(lits, vals)
    decreases |lits|
  {
    if lits != [] {
      assert forall i :: 0 <= i < |lits| - 1 ==> lits[1..][i] == lits[i + 1];
      RenderWithoutL(lits[1..], vals[1..]);
      assert 'L' !in lits[0];
    }
  }

  lemma HeadOfJoin(a: string, x: string, y: string)
    requires |a| > 0
    ensures (a + x + y)[0] == a[0] && (a + x + y)[1..] == a[1..] + x + y
  {
  }

  /** A rendering of the pattern is an 'L' followed by text without an 'L'. */
  lemma RenderedTail(vals: seq<int>)
    requires |vals| == |Pattern|
    ensures |Render(Pattern, vals)| > 0 && Render(Pattern, vals)[0] == 'L'
    ensures 'L' !in Render(Pattern, vals)[1..]
  {
    var d := IntToString(vals[0]);
    var rest := Render(Pattern[1..], vals[1..]);
    assert Render(Pattern, vals) == Pattern[0] + d + rest;
    HeadOfJoin(Pattern[0], d, rest);
    assert Pattern[0][1..] == ":";
    assert 'L' !in rest by {
      assert forall i :: 0 <= i < |Pattern[1..]| ==> 'L' !in Pattern[1..][i];
      RenderWithoutL(Pattern[1..], vals[1..]);
    }
  }

  /** A rendering with a negative value holds no match: the only 'L' is its first
      character, and the greedy match from there fails at the '-'. */
  lemma SearchRenderedNegative(vals: seq<int>)
    requires |vals| == |Pattern| && !AllNonNegative(vals)
    ensures Search(Render(Pattern, vals)) == Failure
  {
    var txt := Render(Pattern, vals);
    PatternWellFormed();
    MatchRendered(Pattern, vals, []);
    assert txt + [] == txt;
    RenderedTail(vals);
    var tail := txt[1..];
    SearchSkips(tail, []);
    assert tail + [] == tail;
  }

  /** A label with a negative value does not match anywhere: the test throws. */
  lemma NegativeFieldNeverParses(l: int, t: int, r: int, b: int, h: int)
    requires l < 0 || t < 0 || r < 0 || b < 0 || h < 0
    ensures GetSafeAreaInsets(Extensions.Label(l, t, r, b, h)) == Threw(InvalidOperation)
  {
    var vs := [l, t, r, b, h];
    LabelIsRendered(l, t, r, b, h);
    assert !AllNonNegative(vs) by {
      if l < 0 { assert vs[0] < 0; }
      else if t < 0 { assert vs[1] < 0; }
      else if r < 0 { assert vs[2] < 0; }
      else if b < 0 { assert vs[3] < 0; }
      else { assert vs[4] < 0; }
    }
    SearchRenderedNegative(vs);
  }

  /** The fallback text reads as all zeros, keyboard height included. */
  lemma FallbackParsesToZeros(platform: Extensions.Platform, read: Extensions.InsetRead)
    requires read.Unreadable? || platform.OtherPlatform?
    ensures Extensions.GetSafeAreaInfo(platform, read) == Extensions.Fallback
    ensures GetSafeAreaInsets(Extensions.Fallback) == Ok(Insets(0, 0, 0, 0, 0))
  {
    Extensions.FallbackIsZeroLabel();
    LabelRoundTrip(0, 0, 0, 0, 0);
  }

  /** The four system-bar insets are non-negative C# `int`s. */
  predicate InsetsInRange(read: Extensions.InsetRead)
    requires read.Read?
  {
    0 <= read.left <= Int32Max && 0 <= read.top <= Int32Max && 0 <= read.right <= Int32Max &&
    0 <= read.bottom <= Int32Max
  }

  /** The four insets and the keyboard's bottom inset are non-negative C# `int`s. */
  predicate ReadInRange(read: Extensions.InsetRead)
    requires read.Read?
  {
    InsetsInRange(read) && 0 <= read.imeBottom <= Int32Max
  }

  /** On Android the test reads back the system-bar insets and the keyboard height. */
  lemma AndroidLabelParses(read: Extensions.InsetRead)
    requires read.Read? && ReadInRange(read)
    ensures GetSafeAreaInsets(Extensions.GetSafeAreaInfo(Extensions.Android, read)) ==
      Ok(Insets(read.left, read.top, read.right, read.bottom, read.imeBottom))
  {
    LabelRoundTrip(read.left, read.top, read.right, read.bottom, read.imeBottom);
  }

  /** On iOS and Mac Catalyst the keyboard height reads as 0, whatever the keyboard does;
      the keyboard's inset is never printed, so only the four insets need to be in range. */
  lemma AppleKeyboardHeightIsZero(read: Extensions.InsetRead)
    requires read.Read? && InsetsInRange(read)
    ensures GetSafeAreaInsets(Extensions.GetSafeAreaInfo(Extensions.Apple, read)) ==
      Ok(Insets(read.left, read.top, read.right, read.bottom, 0))
  {
    LabelRoundTrip(read.left, read.top, read.right, read.bottom, 0);
  }
}
