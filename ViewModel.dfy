/** `SafeAreaViewModel`: the page's safe-area state, four per-edge regions plus a
    padding and a background, whose setters act only on a real change and then
    raise `PropertyChanged` for the properties that changed. */
module ViewModel {
  import opened Regions

  /** `Thickness`: a padding per side. The harness only uses whole numbers. */
  datatype Thickness = Thickness(left: int, top: int, right: int, bottom: int)

  /** `new Thickness(size)`: the same padding on every side. */
  function UniformThickness(size: int): (t: Thickness)
    ensures t.left == size && t.top == size && t.right == size && t.bottom == size
  {
    Thickness(size, size, size, size)
  }

  /** A `LinearGradientBrush` object. Only its identity matters here: C# compares
      brushes by reference, so every newly created brush differs from every other. */
  class GradientBrush {
    constructor() {
    }
  }

  /** The background: `Brush.White`, a gradient brush object, or `null`. */
  datatype Brush = White | Gradient(brush: GradientBrush) | NoBrush

  /** The property names passed to `PropertyChanged`. */
  const EffectiveName: string := "EffectiveSafeAreaEdges"
  const DisplayName: string := "DisplayString"
  const PaddingName: string := "Padding"
  const BackgroundName: string := "Background"

  /** The name of the property that holds an edge's region. */
  function EdgePropertyName(e: Edge): (s: string)
    ensures s != EffectiveName && s != DisplayName && s != PaddingName && s != BackgroundName
  {
    match e
    case Left => "LeftEdge"
    case Top => "TopEdge"
    case Right => "RightEdge"
    case Bottom => "BottomEdge"
  }

  /** The notifications of an edge change, in the order they are raised. */
  function EdgeChangeEvents(e: Edge): seq<string> {
    [EdgePropertyName(e), EffectiveName, DisplayName]
  }

  /** The view model's state as a value: its six properties and the log of every
      notification raised so far. */
  datatype ViewState = ViewState(edges: SafeAreaEdges, padding: Thickness,
                                 background: Brush, raised: seq<string>)

  /** A new view model: every edge `None`, no padding, a white background, nothing raised. */
  const Initial: ViewState := ViewState(Uniform(None), UniformThickness(0), White, [])

  /** Setting one edge's region. */
  function AssignEdge(s: ViewState, e: Edge, v: SafeAreaRegions): (t: ViewState)
    ensures t.edges.Get(e) == v
    ensures forall f :: f != e ==> t.edges.Get(f) == s.edges.Get(f)
    ensures t.padding == s.padding && t.background == s.background
    ensures s.edges.Get(e) == v ==> t == s
    ensures s.edges.Get(e) != v ==> t.raised == s.raised + EdgeChangeEvents(e)
  {
    if s.edges.Get(e) == v then s
    else s.(edges := s.edges.With(e, v), raised := s.raised + EdgeChangeEvents(e))
  }

  /** Setting the padding. */
  function AssignPadding(s: ViewState, p: Thickness): (t: ViewState)
    ensures t.padding == p
    ensures t.edges == s.edges && t.background == s.background
    ensures s.padding == p ==> t == s
    ensures s.padding != p ==> t.raised == s.raised + [PaddingName]
  {
    if s.padding == p then s else s.(padding := p, raised := s.raised + [PaddingName])
  }

  /** Setting the background. */
  function AssignBackground(s: ViewState, b: Brush): (t: ViewState)
    ensures t.background == b
    ensures t.edges == s.edges && t.padding == s.padding
    ensures s.background == b ==> t == s
    ensures s.background != b ==> t.raised == s.raised + [BackgroundName]
  {
    if s.background == b then s else s.(background := b, raised := s.raised + [BackgroundName])
  }

  /** Setting the four edges to one region, left, top, right, bottom in turn. */
  function AssignAll(s: ViewState, r: SafeAreaRegions): (t: ViewState)
    ensures t.edges == Uniform(r)
    ensures t.padding == s.padding && t.background == s.background
    ensures s.edges == Uniform(r) ==> t == s
    ensures |s.raised| <= |t.raised| && t.raised[..|s.raised|] == s.raised
  {
    AssignEdge(AssignEdge(AssignEdge(AssignEdge(s, Left, r), Top, r), Right, r), Bottom, r)
  }

  /** `DisplayString`: the bare region name when every edge agrees, otherwise
      the per-edge text. Only the per-edge form holds a ':', so the text tells
      the two forms apart. */
  function Display(edges: SafeAreaEdges): (s: string)
    ensures |s| > 0
    ensures edges.IsUniform() <==> ':' !in s
    ensures edges.IsUniform() ==> s == Name(edges.left)
  {
    if edges.IsUniform() then Name(edges.left) else PerEdgeText(edges)
  }

  /** The per-edge form `L:x, T:y, R:z, B:w`. */
  function PerEdgeText(edges: SafeAreaEdges): (s: string)
    ensures |s| > 1 && s[1] == ':'
    ensures "L:" + Name(edges.left) + ", T:" <= s
    ensures |", B:" + Name(edges.bottom)| <= |s|
    ensures s[|s| - |", B:" + Name(edges.bottom)|..] == ", B:" + Name(edges.bottom)
  {
    "L:" + (Name(edges.left) + (", T:" + (Name(edges.top) +
      (", R:" + (Name(edges.right) + (", B:" + Name(edges.bottom)))))))
  }

  // ---- Properties of the notifications ----

  /** Setting an edge changes that edge and nothing else but the log. */
  lemma AssignEdgeOnlyOwnEdge(s: ViewState, e: Edge, v: SafeAreaRegions)
    ensures AssignEdge(s, e, v).edges == s.edges.With(e, v)
  {
    EdgesExtensional(AssignEdge(s, e, v).edges, s.edges.With(e, v));
  }

  /** Setting an edge is a no-op exactly when the edge already holds the value:
      then nothing is raised, otherwise exactly the three edge notifications. */
  lemma AssignEdgeNoOpIff(s: ViewState, e: Edge, v: SafeAreaRegions)
    ensures AssignEdge(s, e, v) == s <==> s.edges.Get(e) == v
    ensures |AssignEdge(s, e, v).raised| == |s.raised| + (if s.edges.Get(e) == v then 0 else 3)
  {
  }

  /** Repeating an edge assignment changes nothing more. */
  lemma AssignEdgeIdempotent(s: ViewState, e: Edge, v: SafeAreaRegions)
    ensures AssignEdge(AssignEdge(s, e, v), e, v) == AssignEdge(s, e, v)
  {
  }

  /** Whenever an edge assignment changes the edges, `DisplayString` and
      `EffectiveSafeAreaEdges` are both notified, after the edge's own name. */
  lemma EdgeChangeNotifiesDisplay(s: ViewState, e: Edge, v: SafeAreaRegions)
    requires AssignEdge(s, e, v).edges != s.edges
    ensures AssignEdge(s, e, v).raised[|s.raised|..] == [EdgePropertyName(e), EffectiveName, DisplayName]
  {
  }

  /** Padding and background changes notify only their own name, never the
      display string or the effective edges. */
  lemma PaddingAndBackgroundDoNotNotifyDisplay(s: ViewState, p: Thickness, b: Brush)
    ensures DisplayName !in AssignPadding(s, p).raised[|s.raised|..]
    ensures EffectiveName !in AssignPadding(s, p).raised[|s.raised|..]
    ensures DisplayName !in AssignBackground(s, b).raised[|s.raised|..]
    ensures EffectiveName !in AssignBackground(s, b).raised[|s.raised|..]
  {
    assert AssignPadding(s, p).raised[|s.raised|..] == (if s.padding == p then [] else [PaddingName]);
    assert AssignBackground(s, b).raised[|s.raised|..] == (if s.background == b then [] else [BackgroundName]);
  }

  /** After setting every edge to `r`, the display is `r`'s bare name. */
  lemma AssignAllDisplay(s: ViewState, r: SafeAreaRegions)
    ensures Display(AssignAll(s, r).edges) == Name(r)
  {
  }

  /** Setting every edge to `r` twice is the same as once. */
  lemma AssignAllIdempotent(s: ViewState, r: SafeAreaRegions)
    ensures AssignAll(AssignAll(s, r), r) == AssignAll(s, r)
  {
  }

  /** A fresh view model displays "None". */
  lemma InitialDisplay()
    ensures Display(Initial.edges) == "None"
    ensures Initial.padding == UniformThickness(0)
  {
  }

  // ---- Properties of the display string ----

  /** The per-edge form of the test's first per-edge scenario, one edge per piece. */
  lemma DisplayTopContainerOnly()
    ensures Display(SafeAreaEdges(None, Container, None, None)) == "L:None" + ", T:Container" + ", R:None" + ", B:None"
  {
    var e := SafeAreaEdges(None, Container, None, None);
    assert "L:" + Name(None) == "L:None";
    assert ", T:" + Name(Container) == ", T:Container";
    assert ", R:" + Name(None) == ", R:None";
    assert ", B:" + Name(None) == ", B:None";
    PerEdgePieces(Name(None), Name(Container), Name(None), Name(None));
  }

  /** The per-edge text is the four "edge:name" pieces in order. */
  lemma PerEdgePieces(l: string, t: string, r: string, b: string)
    ensures "L:" + (l + (", T:" + (t + (", R:" + (r + (", B:" + b)))))) ==
      ("L:" + l) + (", T:" + t) + (", R:" + r) + (", B:" + b)
  {
  }

  /** Splitting two texts at their first comma. */
  lemma SplitAtComma(x1: string, r1: string, x2: string, r2: string)
    requires ',' !in x1 && ',' !in x2
    requires |r1| > 0 && r1[0] == ',' && |r2| > 0 && r2[0] == ','
    requires x1 + r1 == x2 + r2
    ensures x1 == x2 && r1 == r2
  {
    var w := x1 + r1;
    assert x1 == w[..|x1|] && x2 == w[..|x2|];
    assert r1 == w[|x1|..] && r2 == w[|x2|..];
  }

  /** The per-edge text determines the four names. */
  lemma PerEdgeTextInjective(a: SafeAreaEdges, b: SafeAreaEdges)
    requires !a.IsUniform() && !b.IsUniform() && Display(a) == Display(b)
    ensures a == b
  {
    var ra := ", T:" + (Name(a.top) + (", R:" + (Name(a.right) + (", B:" + Name(a.bottom)))));
    var rb := ", T:" + (Name(b.top) + (", R:" + (Name(b.right) + (", B:" + Name(b.bottom)))));
    assert Display(a)[2..] == Name(a.left) + ra;
    assert Display(b)[2..] == Name(b.left) + rb;
    SplitAtComma(Name(a.left), ra, Name(b.left), rb);
    var sa := ", R:" + (Name(a.right) + (", B:" + Name(a.bottom)));
    var sb := ", R:" + (Name(b.right) + (", B:" + Name(b.bottom)));
    assert ra[4..] == Name(a.top) + sa && rb[4..] == Name(b.top) + sb;
    SplitAtComma(Name(a.top), sa, Name(b.top), sb);
    var ta := ", B:" + Name(a.bottom);
    var tb := ", B:" + Name(b.bottom);
    assert sa[4..] == Name(a.right) + ta && sb[4..] == Name(b.right) + tb;
    SplitAtComma(Name(a.right), ta, Name(b.right), tb);
    assert ta[4..] == Name(a.bottom) && tb[4..] == Name(b.bottom);
    NameInjective(a.left, b.left);
    NameInjective(a.top, b.top);
    NameInjective(a.right, b.right);
    NameInjective(a.bottom, b.bottom);
  }

  /** Distinct edge configurations display differently: the display string
      identifies the configuration. */
  lemma DisplayInjective(a: SafeAreaEdges, b: SafeAreaEdges)
    requires Display(a) == Display(b)
    ensures a == b
  {
    if a.IsUniform() && b.IsUniform() {
      NameInjective(a.left, b.left);
    } else if !a.IsUniform() && !b.IsUniform() {
      PerEdgeTextInjective(a, b);
    }
  }

  /** `SafeAreaViewModel`: the fields behind the properties, plus the log of the
      names passed to `PropertyChanged`, in order. */
  class SafeAreaViewModel {
    var leftEdge: SafeAreaRegions
    var topEdge: SafeAreaRegions
    var rightEdge: SafeAreaRegions
    var bottomEdge: SafeAreaRegions
    var padding: Thickness
    var background: Brush
    var raised: seq<string>

    /** The whole state as a value. */
    function State(): ViewState
      reads this
    {
      ViewState(SafeAreaEdges(leftEdge, topEdge, rightEdge, bottomEdge), padding, background, raised)
    }

    constructor()
      ensures State() == Initial
    {
      leftEdge, topEdge, rightEdge, bottomEdge := None, None, None, None;
      padding := UniformThickness(0);
      background := White;
      raised := [];
    }

    /** `OnPropertyChanged`: raise one notification. */
    method OnPropertyChanged(propertyName: string)
      modifies this`raised
      ensures raised == old(raised) + [propertyName]
    {
      raised := raised + [propertyName];
    }

    /** Raise the three notifications of an edge change, in order. */
    method RaiseEdgeChange(e: Edge)
      modifies this`raised
      ensures raised == old(raised) + EdgeChangeEvents(e)
    {
      OnPropertyChanged(EdgePropertyName(e));
      OnPropertyChanged(EffectiveName);
      OnPropertyChanged(DisplayName);
    }

    /** The `LeftEdge` setter. */
    method SetLeftEdge(value: SafeAreaRegions)
      modifies this
      ensures State() == AssignEdge(old(State()), Left, value)
    {
      if leftEdge != value {
        leftEdge := value;
        RaiseEdgeChange(Left);
      }
    }

    /** The `TopEdge` setter. */
    method SetTopEdge(value: SafeAreaRegions)
      modifies this
      ensures State() == AssignEdge(old(State()), Top, value)
    {
      if topEdge != value {
        topEdge := value;
        RaiseEdgeChange(Top);
      }
    }

    /** The `RightEdge` setter. */
    method SetRightEdge(value: SafeAreaRegions)
      modifies this
      ensures State() == AssignEdge(old(State()), Right, value)
    {
      if rightEdge != value {
        rightEdge := value;
        RaiseEdgeChange(Right);
      }
    }

    /** The `BottomEdge` setter. */
    method SetBottomEdge(value: SafeAreaRegions)
      modifies this
      ensures State() == AssignEdge(old(State()), Bottom, value)
    {
      if bottomEdge != value {
        bottomEdge := value;
        RaiseEdgeChange(Bottom);
      }
    }

    /** The `Padding` setter. */
    method SetPadding(value: Thickness)
      modifies this
      ensures State() == AssignPadding(old(State()), value)
    {
      if padding != value {
        padding := value;
        OnPropertyChanged(PaddingName);
      }
    }

    /** The `Background` setter. */
    method SetBackground(value: Brush)
      modifies this
      ensures State() == AssignBackground(old(State()), value)
    {
      if background != value {
        background := value;
        OnPropertyChanged(BackgroundName);
      }
    }

    /** `EffectiveSafeAreaEdges`: the four edges in left, top, right, bottom order. */
    function EffectiveSafeAreaEdges(): (edges: SafeAreaEdges)
      reads this
      ensures edges.Get(Left) == leftEdge && edges.Get(Top) == topEdge
      ensures edges.Get(Right) == rightEdge && edges.Get(Bottom) == bottomEdge
    {
      SafeAreaEdges(leftEdge, topEdge, rightEdge, bottomEdge)
    }

    /** `DisplayString`. */
    function DisplayString(): (s: string)
      reads this
      ensures s == Display(State().edges)
    {
      Display(EffectiveSafeAreaEdges())
    }
  }
}
