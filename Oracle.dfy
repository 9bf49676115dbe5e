/** The positions the UI test expects for the four edge indicators of the content
    page, given each edge's region, the insets read from the label, the screen
    size and the keyboard. The left indicator's X, the top indicator's Y, the
    right indicator's right edge and the bottom indicator's bottom edge are
    compared. This is the specification the assertions encode; the layout engine
    that should meet it is not part of this model. */
module Oracle {
  import opened Regions
  import opened InsetParser
  import Extensions
  import LabelProofs
  import ViewModel
  import OptionsPage
  import ContentPage

  /** The soft keyboard: hidden, or shown with its top edge at `keyboardY`. */
  datatype Keyboard = Hidden | Shown(keyboardY: int)

  /** The window size the test queries. */
  datatype Screen = Screen(width: int, height: int)

  /** One coordinate per edge indicator. */
  datatype Positions = Positions(left: int, top: int, right: int, bottom: int) {
    function Get(e: Edge): int {
      match e
      case Left => left
      case Top => top
      case Right => right
      case Bottom => bottom
    }
  }

  /** Left indicator X: at the screen edge for `None`, inset by the left inset otherwise. */
  function ExpectedLeft(r: SafeAreaRegions, insets: Insets): int {
    if r == None then 0 else insets.left
  }

  /** Top indicator Y: at the screen edge for `None`, below the top inset otherwise. */
  function ExpectedTop(r: SafeAreaRegions, insets: Insets): int {
    if r == None then 0 else insets.top
  }

  /** Right indicator's right edge: the screen width for `None`, less the right inset otherwise. */
  function ExpectedRight(r: SafeAreaRegions, insets: Insets, screen: Screen): int {
    if r == None then screen.width else screen.width - insets.right
  }

  /** Bottom indicator's bottom edge. `None` reaches the screen bottom even under
      the keyboard; `Container` and `Default` stop above the bottom inset even
      with the keyboard shown; `All` stops above the bottom inset, or at the
      keyboard when shown; `SoftInput` reaches the screen bottom, or stops at the
      keyboard when shown. */
  function ExpectedBottom(r: SafeAreaRegions, insets: Insets, screen: Screen, kb: Keyboard): int {
    match r
    case None => screen.height
    case Container => screen.height - insets.bottom
    case Default => screen.height - insets.bottom
    case All => if kb.Shown? then kb.keyboardY else screen.height - insets.bottom
    case SoftInput => if kb.Shown? then kb.keyboardY else screen.height
  }

  /** The four expected coordinates; each edge's depends on its own region only.
      The ensures only name the per-edge function that decides each coordinate;
      what the table means is stated by `ExpectedByAvoidance` and the lemmas below. */
  function Expected(edges: SafeAreaEdges, insets: Insets, screen: Screen, kb: Keyboard): (p: Positions)
    ensures p.left == ExpectedLeft(edges.left, insets) && p.top == ExpectedTop(edges.top, insets)
    ensures p.right == ExpectedRight(edges.right, insets, screen)
    ensures p.bottom == ExpectedBottom(edges.bottom, insets, screen, kb)
  {
    Positions(ExpectedLeft(edges.left, insets), ExpectedTop(edges.top, insets),
              ExpectedRight(edges.right, insets, screen),
              ExpectedBottom(edges.bottom, insets, screen, kb))
  }

  /** The positions with the page's padding on top of the safe area: insets and
      padding add up, each indicator moving inward by its own side's padding. */
  function ExpectedWithPadding(edges: SafeAreaEdges, insets: Insets, screen: Screen, kb: Keyboard,
                               padding: ViewModel.Thickness): (p: Positions)
    ensures padding == ViewModel.UniformThickness(0) ==> p == Expected(edges, insets, screen, kb)
  {
    var q := Expected(edges, insets, screen, kb);
    Positions(q.left + padding.left, q.top + padding.top, q.right - padding.right, q.bottom - padding.bottom)
  }

  // ---- A reference definition by what each region avoids ----

  /** Whether a region keeps the content clear of the system bars at an edge:
      every region but `None` does at the top and sides; at the bottom only
      `Container`, `All` and `Default` do. */
  predicate AvoidsSystemBars(r: SafeAreaRegions, e: Edge) {
    r != None && (e != Bottom || r != SoftInput)
  }

  /** Whether a region keeps the content clear of the keyboard: `All` and `SoftInput`. */
  predicate AvoidsKeyboard(r: SafeAreaRegions) {
    r == All || r == SoftInput
  }

  /** The screen-edge coordinate of an edge, and the inset that moves it inward. */
  function ScreenEdge(e: Edge, screen: Screen): int {
    match e
    case Left => 0
    case Top => 0
    case Right => screen.width
    case Bottom => screen.height
  }

  function Inward(e: Edge, insets: Insets): int {
    match e
    case Left => insets.left
    case Top => insets.top
    case Right => -insets.right
    case Bottom => -insets.bottom
  }

  /** The expected coordinate of one edge, from what its region avoids. */
  function ByAvoidance(e: Edge, r: SafeAreaRegions, insets: Insets, screen: Screen, kb: Keyboard): int {
    if e == Bottom && AvoidsKeyboard(r) && kb.Shown? then kb.keyboardY
    else if AvoidsSystemBars(r, e) then ScreenEdge(e, screen) + Inward(e, insets)
    else ScreenEdge(e, screen)
  }

  /** The per-region table agrees with the avoidance reading on every edge. */
  lemma ExpectedByAvoidance(edges: SafeAreaEdges, insets: Insets, screen: Screen, kb: Keyboard, e: Edge)
    ensures Expected(edges, insets, screen, kb).Get(e) == ByAvoidance(e, edges.Get(e), insets, screen, kb)
  {
  }

  // ---- Properties the tests rely on ----

  /** With every edge `None` the content is edge to edge, keyboard or not. */
  lemma NoneIsEdgeToEdge(insets: Insets, screen: Screen, kb: Keyboard)
    ensures Expected(Uniform(None), insets, screen, kb) == Positions(0, 0, screen.width, screen.height)
  {
  }

  /** With every edge `All` and no keyboard, every indicator sits inside the insets. */
  lemma AllInsetsEveryEdge(insets: Insets, screen: Screen)
    ensures Expected(Uniform(All), insets, screen, Hidden) ==
      Positions(insets.left, insets.top, screen.width - insets.right, screen.height - insets.bottom)
  {
  }

  /** Changing one edge's region moves at most that edge's indicator. */
  lemma EdgesAreIndependent(edges: SafeAreaEdges, e: Edge, v: SafeAreaRegions,
                            insets: Insets, screen: Screen, kb: Keyboard)
    ensures forall f :: f != e ==>
      Expected(edges.With(e, v), insets, screen, kb).Get(f) == Expected(edges, insets, screen, kb).Get(f)
  {
  }

  /** Showing the keyboard moves only the bottom indicator, and only for `All` and
      `SoftInput`, to the keyboard's top; so dismissing it restores every edge. */
  lemma KeyboardMovesOnlyBottom(edges: SafeAreaEdges, insets: Insets, screen: Screen, y: int)
    ensures Expected(edges, insets, screen, Shown(y)).left == Expected(edges, insets, screen, Hidden).left
    ensures Expected(edges, insets, screen, Shown(y)).top == Expected(edges, insets, screen, Hidden).top
    ensures Expected(edges, insets, screen, Shown(y)).right == Expected(edges, insets, screen, Hidden).right
    ensures Expected(edges, insets, screen, Shown(y)).bottom ==
      if AvoidsKeyboard(edges.bottom) then y else Expected(edges, insets, screen, Hidden).bottom
  {
  }

  /** The assertions treat `Default` exactly like `Container`, with or without
      the keyboard, on every edge. */
  lemma DefaultActsAsContainer(e: Edge, insets: Insets, screen: Screen, kb: Keyboard)
    ensures ByAvoidance(e, Default, insets, screen, kb) == ByAvoidance(e, Container, insets, screen, kb)
    ensures Expected(Uniform(Default), insets, screen, kb) == Expected(Uniform(Container), insets, screen, kb)
  {
  }

  /** ... and not like `None`: with a non-zero top inset the top indicators differ. */
  lemma DefaultUnlikeNone(insets: Insets, screen: Screen, kb: Keyboard)
    requires insets.top != 0
    ensures Expected(Uniform(Default), insets, screen, kb).top != Expected(Uniform(None), insets, screen, kb).top
  {
  }

  /** Insets and padding are additive: under any region but `None`, a positive top
      padding puts the top indicator strictly below the top inset. */
  lemma PaddingIsAdditive(edges: SafeAreaEdges, insets: Insets, screen: Screen, kb: Keyboard,
                          padding: ViewModel.Thickness)
    requires edges.top != None && padding.top > 0
    ensures ExpectedWithPadding(edges, insets, screen, kb, padding).top > insets.top
  {
  }

  /** The test's padding scenario: open the options page, choose `All` for every
      edge and check the padding box. The content page then displays "All", its
      padding is 20 on every side, and the top indicator is expected 20 below the
      top inset. */
  method AllWithPadding(page: ContentPage.SafeAreaContentPage, insets: Insets, screen: Screen)
    returns (display: string, top: int)
    modifies page
    ensures display == "All"
    ensures page.viewModel.padding == ViewModel.UniformThickness(20)
    ensures top == insets.top + 20 && top > insets.top
  {
    var options := page.NavigateToOptionsPage();
    options.OnUniformChanged(true, OptionsPage.RadioGroup(false, false, false, true, false));
    options.OnPaddingCheckBoxChanged(true);
    display := page.viewModel.DisplayString();
    var vm := page.viewModel;
    top := ExpectedWithPadding(vm.EffectiveSafeAreaEdges(), insets, screen, Hidden, vm.padding).top;
    PaddingIsAdditive(vm.EffectiveSafeAreaEdges(), insets, screen, Hidden, vm.padding);
  }

  /** On Android the keyboard's top is read from the label: with the label in the
      shared format, an `All` or `SoftInput` bottom under the shown keyboard sits
      the keyboard's height above the screen bottom. */
  lemma AndroidBottomAboveKeyboard(read: Extensions.InsetRead, screen: Screen, r: SafeAreaRegions)
    requires read.Read? && LabelProofs.ReadInRange(read)
    requires AvoidsKeyboard(r)
    ensures var text := Extensions.GetSafeAreaInfo(Extensions.Android, read);
      AndroidKeyboardY(screen.height, text).Ok? &&
      ExpectedBottom(r, GetSafeAreaInsets(text).value, screen,
                     Shown(AndroidKeyboardY(screen.height, text).value)) ==
        screen.height - read.imeBottom
  {
    var text := Extensions.GetSafeAreaInfo(Extensions.Android, read);
    LabelProofs.AndroidLabelParses(read);
    assert GetSafeAreaInsets(text).value.keyboardHeight == read.imeBottom;
    assert AndroidKeyboardY(screen.height, text).value == screen.height - read.imeBottom;
  }
}
