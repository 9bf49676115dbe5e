/** `SafeAreaContentPage`: five buttons that set every edge of the shared view
    model to one region, a button that opens the options page on a fresh view
    model, and the inset label the UI test reads. */
module ContentPage {
  import opened Decimal
  import opened InsetParser
  import opened Regions
  import opened ViewModel
  import opened OptionsPage
  import Extensions
  import LabelProofs

  /** The label text the page itself writes: four fields, no keyboard height.
      It never holds a 'K', the first letter of the missing `KeyboardHeight`. */
  function ContentLabel(l: int, t: int, r: int, b: int): (s: string)
    ensures |s| > 2 && s[..2] == "L:"
    ensures 'K' !in s
  {
    ContentLabelShape(IntToString(l), IntToString(t), IntToString(r), IntToString(b));
    "L:" + IntToString(l) + ",T:" + IntToString(t) + ",R:" + IntToString(r) + ",B:" + IntToString(b)
  }

  /** The four-field frame around any field texts without a 'K'. */
  lemma ContentLabelShape(a: string, b: string, c: string, d: string)
    requires 'K' !in a && 'K' !in b && 'K' !in c && 'K' !in d
    ensures var s := "L:" + a + ",T:" + b + ",R:" + c + ",B:" + d;
      |s| > 2 && s[..2] == "L:" && 'K' !in s
  {
    var s := "L:" + a + ",T:" + b + ",R:" + c + ",B:" + d;
    assert s[..2] == "L:";
  }

  /** The page's own fallback text. */
  const ContentFallback: string := "L:0,T:0,R:0,B:0"

  /** The page's private `GetSafeAreaInfo`, as written: on Android and on iOS or
      Mac Catalyst the system-bar insets in the four-field format, otherwise the
      four-field fallback. The keyboard inset is never read, so every text it
      writes is a four-field label. */
  function GetSafeAreaInfo(platform: Extensions.Platform, read: Extensions.InsetRead): (s: string)
    ensures exists l, t, r, b :: s == ContentLabel(l, t, r, b)
  {
    if read.Unreadable? then ContentFallbackIsZeroLabel(); ContentFallback
    else match platform
      case Android => ContentLabel(read.left, read.top, read.right, read.bottom)
      case Apple => ContentLabel(read.left, read.top, read.right, read.bottom)
      case OtherPlatform => ContentFallbackIsZeroLabel(); ContentFallback
  }

  /** The page's fallback is its four-field label of zeros. */
  lemma ContentFallbackIsZeroLabel()
    ensures ContentFallback == ContentLabel(0, 0, 0, 0)
  {
    assert NatToString(0) == "0";
    assert IntToString(0) == "0";
  }

  /** As written, every text the page writes makes the test's `GetSafeAreaInsets`
      throw: the pattern requires `,KeyboardHeight:`, whose 'K' the page never
      writes. */
  lemma ContentLabelNeverParses(platform: Extensions.Platform, read: Extensions.InsetRead)
    ensures GetSafeAreaInsets(GetSafeAreaInfo(platform, read)) == Threw(InvalidOperation)
  {
    var l, t, r, b :| GetSafeAreaInfo(platform, read) == ContentLabel(l, t, r, b);
    WithoutKNeverParses(GetSafeAreaInfo(platform, read));
  }

  /** A concrete instance: the page's fallback text does not parse, while the same
      zeros in the shared format do. */
  lemma ContentFallbackCounterexample()
    ensures GetSafeAreaInsets(ContentFallback) == Threw(InvalidOperation)
    ensures GetSafeAreaInsets(Extensions.Fallback) == Ok(Insets(0, 0, 0, 0, 0))
  {
    ContentLabelNeverParses(Extensions.OtherPlatform, Extensions.Unreadable);
    LabelProofs.FallbackParsesToZeros(Extensions.OtherPlatform, Extensions.Unreadable);
  }

  /** The page's text is the shared label with its keyboard field cut off: the
      same four insets, or the same zeros when nothing could be read. So the
      values it shows are those the shared label carries, and only the missing
      `,KeyboardHeight:` field keeps the test from reading them. */
  lemma PageLabelIsSharedWithoutKeyboard(platform: Extensions.Platform, read: Extensions.InsetRead)
    ensures Extensions.GetSafeAreaInfo(platform, read) ==
      GetSafeAreaInfo(platform, read) + ",KeyboardHeight:" +
      IntToString(if read.Read? && platform.Android? then read.imeBottom else 0)
  {
    if read.Unreadable? || platform.OtherPlatform? {
      Extensions.FallbackIsZeroLabel();
      ContentFallbackIsZeroLabel();
    }
  }

  /** The label text as intended: the shared `SafeAreaExtensions` format, which
      carries the keyboard height the test reads. When nothing could be read it
      parses to zeros. When the four insets (and, on Android, the keyboard's
      bottom inset) are non-negative and at most `Int32.MaxValue` it parses to
      the four insets, with the keyboard height on Android and 0 elsewhere. A
      negative field prints with a '-', which `\d+` cannot match, so the parse
      then throws. */
  function CorrectedSafeAreaInfo(platform: Extensions.Platform, read: Extensions.InsetRead): (s: string)
    ensures read.Unreadable? || platform.OtherPlatform? ==>
              GetSafeAreaInsets(s) == Ok(Insets(0, 0, 0, 0, 0))
    ensures read.Read? && LabelProofs.ReadInRange(read) && platform.Android? ==>
              GetSafeAreaInsets(s) == Ok(Insets(read.left, read.top, read.right, read.bottom, read.imeBottom))
    ensures read.Read? && LabelProofs.InsetsInRange(read) && platform.Apple? ==>
              GetSafeAreaInsets(s) == Ok(Insets(read.left, read.top, read.right, read.bottom, 0))
    ensures read.Read? && !platform.OtherPlatform? &&
            (read.left < 0 || read.top < 0 || read.right < 0 || read.bottom < 0 ||
             (platform.Android? && read.imeBottom < 0)) ==>
              GetSafeAreaInsets(s) == Threw(InvalidOperation)
  {
    if read.Unreadable? || platform.OtherPlatform? then
      LabelProofs.FallbackParsesToZeros(platform, read);
      Extensions.GetSafeAreaInfo(platform, read)
    else if read.left < 0 || read.top < 0 || read.right < 0 || read.bottom < 0 ||
            (platform.Android? && read.imeBottom < 0) then
      var h := if platform.Android? then read.imeBottom else 0;
      LabelProofs.NegativeFieldNeverParses(read.left, read.top, read.right, read.bottom, h);
      Extensions.GetSafeAreaInfo(platform, read)
    else if platform.Apple? then
      if LabelProofs.InsetsInRange(read) then
        LabelProofs.AppleKeyboardHeightIsZero(read);
        Extensions.GetSafeAreaInfo(platform, read)
      else
        Extensions.GetSafeAreaInfo(platform, read)
    else if LabelProofs.ReadInRange(read) then
      LabelProofs.AndroidLabelParses(read);
      Extensions.GetSafeAreaInfo(platform, read)
    else
      Extensions.GetSafeAreaInfo(platform, read)
  }

  /** The five region buttons of the page. */
  datatype RegionButton = NoneButton | AllButton | ContainerButton | SoftInputButton | DefaultButton

  /** The region each button applies. */
  function ButtonRegion(b: RegionButton): SafeAreaRegions {
    match b
    case NoneButton => None
    case AllButton => All
    case ContainerButton => Container
    case SoftInputButton => SoftInput
    case DefaultButton => Default
  }

  /** The button that applies a region. */
  function ButtonFor(r: SafeAreaRegions): RegionButton {
    match r
    case None => NoneButton
    case All => AllButton
    case Container => ContainerButton
    case SoftInput => SoftInputButton
    case Default => DefaultButton
  }

  /** The buttons and the regions correspond one to one. */
  lemma ButtonRegionBijective(b: RegionButton, r: SafeAreaRegions)
    ensures ButtonFor(ButtonRegion(b)) == b
    ensures ButtonRegion(ButtonFor(r)) == r
  {
  }

  /** `SafeAreaContentPage`: the view model it shows and the text of its inset label. */
  class SafeAreaContentPage {
    var viewModel: SafeAreaViewModel
    var safeAreaInsetsLabel: string

    constructor(vm: SafeAreaViewModel)
      ensures viewModel == vm && safeAreaInsetsLabel == ""
    {
      viewModel := vm;
      safeAreaInsetsLabel := "";
    }

    /** `SetAllEdges`: the four setters, left, top, right, bottom in turn. */
    method SetAllEdges(region: SafeAreaRegions)
      modifies viewModel
      ensures viewModel.State() == AssignAll(old(viewModel.State()), region)
      ensures viewModel.DisplayString() == Name(region)
    {
      viewModel.SetLeftEdge(region);
      viewModel.SetTopEdge(region);
      viewModel.SetRightEdge(region);
      viewModel.SetBottomEdge(region);
      AssignAllDisplay(old(viewModel.State()), region);
    }

    method OnSafeAreaNoneClicked()
      modifies viewModel
      ensures viewModel.State() == AssignAll(old(viewModel.State()), ButtonRegion(NoneButton))
    {
      SetAllEdges(None);
    }

    method OnSafeAreaAllClicked()
      modifies viewModel
      ensures viewModel.State() == AssignAll(old(viewModel.State()), ButtonRegion(AllButton))
    {
      SetAllEdges(All);
    }

    method OnSafeAreaContainerClicked()
      modifies viewModel
      ensures viewModel.State() == AssignAll(old(viewModel.State()), ButtonRegion(ContainerButton))
    {
      SetAllEdges(Container);
    }

    method OnSafeAreaSoftInputClicked()
      modifies viewModel
      ensures viewModel.State() == AssignAll(old(viewModel.State()), ButtonRegion(SoftInputButton))
    {
      SetAllEdges(SoftInput);
    }

    method OnSafeAreaDefaultClicked()
      modifies viewModel
      ensures viewModel.State() == AssignAll(old(viewModel.State()), ButtonRegion(DefaultButton))
    {
      SetAllEdges(Default);
    }

    /** `NavigateToOptionsPage_Clicked`: a new view model, shown by this page and
        shared with the new options page; the old one is dropped, so every edge
        is `None` again whatever it was. */
    method NavigateToOptionsPage() returns (options: SafeAreaOptionsPage)
      modifies this
      ensures fresh(viewModel) && viewModel.State() == Initial
      ensures fresh(options) && options.viewModel == viewModel
      ensures viewModel.DisplayString() == "None"
      ensures safeAreaInsetsLabel == old(safeAreaInsetsLabel)
    {
      viewModel := new SafeAreaViewModel();
      options := new SafeAreaOptionsPage(viewModel);
      InitialDisplay();
    }

    /** `UpdateSafeAreaInsets`: write the inset label, in the page's own
        four-field format, which the test's parser never accepts. */
    method UpdateSafeAreaInsets(platform: Extensions.Platform, read: Extensions.InsetRead)
      modifies this`safeAreaInsetsLabel
      ensures safeAreaInsetsLabel == GetSafeAreaInfo(platform, read)
      ensures GetSafeAreaInsets(safeAreaInsetsLabel) == Threw(InvalidOperation)
    {
      safeAreaInsetsLabel := GetSafeAreaInfo(platform, read);
      ContentLabelNeverParses(platform, read);
    }

    /** The intended `UpdateSafeAreaInsets`: the label in the shared format, which
        the test's parser reads back. */
    method UpdateSafeAreaInsetsCorrected(platform: Extensions.Platform, read: Extensions.InsetRead)
      modifies this`safeAreaInsetsLabel
      ensures safeAreaInsetsLabel == CorrectedSafeAreaInfo(platform, read)
      ensures (read.Read? && platform.Android? ==> LabelProofs.ReadInRange(read)) &&
              (read.Read? && platform.Apple? ==> LabelProofs.InsetsInRange(read)) ==>
                GetSafeAreaInsets(safeAreaInsetsLabel).Ok?
    {
      safeAreaInsetsLabel := CorrectedSafeAreaInfo(platform, read);
    }
  }

  /** The test's first per-edge scenario: open the options page, check Top's
      Container button and Bottom's None button. The options page writes to the
      view model the content page shows, which then displays the per-edge form. */
  method TopContainerOnly(page: SafeAreaContentPage) returns (display: string)
    modifies page
    ensures display == "L:None" + ", T:Container" + ", R:None" + ", B:None"
    ensures page.viewModel.State().edges == SafeAreaEdges(None, Container, None, None)
  {
    var options := page.NavigateToOptionsPage();
    options.OnTopEdgeChanged(false, RadioGroup(false, true, false, false, false));
    options.OnTopEdgeChanged(true, RadioGroup(false, true, false, false, false));
    options.OnBottomEdgeChanged(true, RadioGroup(true, false, false, false, false));
    display := page.viewModel.DisplayString();
    DisplayTopContainerOnly();
  }
}
