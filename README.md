# Safe-area feature matrix, modelled in Dafny

This project models the .NET MAUI safe-area "feature matrix" test harness. The harness has four parts:

- **The view model.** `SafeAreaViewModel` holds four per-edge `SafeAreaRegions` values, a padding and a background. It raises property-change notifications and formats a display string.
- **The content page.** `SafeAreaContentPage` has five buttons that set every edge to one region. Its navigation button opens the options page on a fresh view model. It also writes an inset label that the UI test reads.
- **The options page.** `SafeAreaOptionsPage` sets the edges from radio-button groups, either uniformly or one edge at a time. Its check boxes set the padding and the background.
- **The UI test.** It parses the inset label with a regular expression and checks the indicator positions against an expected-position table.

The modules:

- `Decimal`: C# `int` range and decimal rendering of integers (`ToString()`), with the digit-value round trip.
- `InsetParser`: the test's `GetSafeAreaInsets`.
  - The unanchored pattern `L:(\d+),T:(\d+),R:(\d+),B:(\d+),KeyboardHeight:(\d+)` is matched by a greedy matcher that tries each start position in turn.
  - That matcher is proved sound and complete against a relational reading of the pattern.
  - `int.Parse` overflow becomes an error result, and a failed match becomes `InvalidOperationException`.
  - Also here: the Android keyboard-top arithmetic of `GetKeyboardY`.
- `Extensions`: the shared label format of `SafeAreaExtensions.GetSafeAreaInfo`, with the platform's inset read as an input.
- `LabelProofs`: round trips between that label and the parser, including a label surrounded by other text. Negative fields never parse. The fallback parses to zeros.
- `Regions`: `SafeAreaRegions`, its names, edges, and `SafeAreaEdges`.
- `ViewModel`: the view model as a class, specified against a value-level `ViewState`. The notification log is a real `seq<string>` field.
- `OptionsPage` and `ContentPage`: the two pages as classes sharing one view model object.
- `Oracle`: the expected-position table read off the test's assertions, with a reference definition by what each region avoids, and the table with the page's padding added.

## Model

| member | source | states |
|---|---|---|
| Decimal.NatToStringRoundTrip | src/Controls/tests/TestCases.HostApp/FeatureMatrix/SafeArea/SafeAreaExtensions.cs:26 | the decimal digits of every natural number read back, digit by digit, as that number |
| Decimal.IntToString | src/Controls/tests/TestCases.HostApp/FeatureMatrix/SafeArea/SafeAreaExtensions.cs:26 | an interpolated integer is a non-empty string of digits and '-', and starts with a digit exactly when the value is non-negative |
| Decimal.IntToStringInjective | src/Controls/tests/TestCases.HostApp/FeatureMatrix/SafeArea/SafeAreaExtensions.cs:26 | different integers never print alike, so a label determines its values |
| InsetParser.MatchFields | src/Controls/tests/TestCases.Shared.Tests/Tests/FeatureMatrix/SafeArea_ContentPageFeatureTests.cs:27 | matching the pattern at one position yields, on success, exactly one non-empty run of ASCII digits per field |
| InsetParser.Search | src/Controls/tests/TestCases.Shared.Tests/Tests/FeatureMatrix/SafeArea_ContentPageFeatureTests.cs:27 | the unanchored `Regex.Match` yields, on success, five non-empty digit runs |
| InsetParser.MatchFieldsSound | src/Controls/tests/TestCases.Shared.Tests/Tests/FeatureMatrix/SafeArea_ContentPageFeatureTests.cs:27 | whatever the greedy matcher accepts at a position is a genuine match of the pattern's literals and digit groups there |
| InsetParser.MatchFieldsComplete | src/Controls/tests/TestCases.Shared.Tests/Tests/FeatureMatrix/SafeArea_ContentPageFeatureTests.cs:27 | wherever the pattern matches at a position the greedy matcher succeeds, with the same groups except that the last is the longest digit run |
| InsetParser.SearchLeftmost | src/Controls/tests/TestCases.Shared.Tests/Tests/FeatureMatrix/SafeArea_ContentPageFeatureTests.cs:27 | the unanchored search returns the match at the first position where one exists |
| InsetParser.SearchFails | src/Controls/tests/TestCases.Shared.Tests/Tests/FeatureMatrix/SafeArea_ContentPageFeatureTests.cs:27-29 | the search fails exactly when the pattern matches at no position of the text |
| InsetParser.ParseInt32 | src/Controls/tests/TestCases.Shared.Tests/Tests/FeatureMatrix/SafeArea_ContentPageFeatureTests.cs:30-36 | `int.Parse` of a digit run succeeds exactly when its value fits in an `int`, yields that value, and otherwise fails with overflow |
| InsetParser.ParseFields | src/Controls/tests/TestCases.Shared.Tests/Tests/FeatureMatrix/SafeArea_ContentPageFeatureTests.cs:30-36 | the five groups parse exactly when every one fits in an `int`, and then give left, top, right, bottom and keyboard height in that order |
| InsetParser.GetSafeAreaInsets | src/Controls/tests/TestCases.Shared.Tests/Tests/FeatureMatrix/SafeArea_ContentPageFeatureTests.cs:24-37 | `InvalidOperationException` exactly when the pattern occurs nowhere; no partial result; every value returned is a non-negative `int` |
| InsetParser.WithoutKNeverParses | src/Controls/tests/TestCases.Shared.Tests/Tests/FeatureMatrix/SafeArea_ContentPageFeatureTests.cs:27-29 | a text without the letter 'K' (so without `,KeyboardHeight:`) always makes the parser throw `InvalidOperationException` |
| InsetParser.ParseOfMatch | src/Controls/tests/TestCases.Shared.Tests/Tests/FeatureMatrix/SafeArea_ContentPageFeatureTests.cs:30-36 | once the pattern has matched, the result is the parse of its five groups |
| InsetParser.AndroidKeyboardY | src/Controls/tests/TestCases.Shared.Tests/Tests/FeatureMatrix/SafeArea_ContentPageFeatureTests.cs:39-49 | on Android the keyboard top is the screen height less the parsed keyboard height; it fails exactly when the parse fails, never lies below the screen height and fits in an `int` |
| Extensions.Label | src/Controls/tests/TestCases.HostApp/FeatureMatrix/SafeArea/SafeAreaExtensions.cs:26 | the shared label starts with `L:` and holds no space (the code writes none, unlike the doc comment) |
| Extensions.FallbackIsZeroLabel | src/Controls/tests/TestCases.HostApp/FeatureMatrix/SafeArea/SafeAreaExtensions.cs:42 | the fallback text is the label of five zeros, keyboard height included |
| Extensions.GetSafeAreaInfo | src/Controls/tests/TestCases.HostApp/FeatureMatrix/SafeArea/SafeAreaExtensions.cs:14-44 | every text written is a five-field label, and off Android its keyboard height is always 0 |
| LabelProofs.LabelIsRendered | src/Controls/tests/TestCases.HostApp/FeatureMatrix/SafeArea/SafeAreaExtensions.cs:26 | the shared label is the pattern's five literals, each followed by its field |
| LabelProofs.MatchRendered | src/Controls/tests/TestCases.Shared.Tests/Tests/FeatureMatrix/SafeArea_ContentPageFeatureTests.cs:27 | a rendered label of non-negative fields matches the pattern with the fields' decimal strings as groups |
| LabelProofs.SearchSkips | src/Controls/tests/TestCases.Shared.Tests/Tests/FeatureMatrix/SafeArea_ContentPageFeatureTests.cs:27 | text before the label that holds no 'L' cannot start a match, so the search skips it |
| LabelProofs.SearchAmidText | src/Controls/tests/TestCases.Shared.Tests/Tests/FeatureMatrix/SafeArea_ContentPageFeatureTests.cs:27 | the unanchored pattern finds the shared label inside surrounding text |
| LabelProofs.ParseAmidText | src/Controls/tests/TestCases.Shared.Tests/Tests/FeatureMatrix/SafeArea_ContentPageFeatureTests.cs:24-37 | the parser reads the five values back from a label surrounded by other text |
| LabelProofs.LabelRoundTrip | src/Controls/tests/TestCases.HostApp/FeatureMatrix/SafeArea/SafeAreaExtensions.cs:26 | round trip: parsing the shared label of non-negative `int` fields gives back exactly those fields |
| LabelProofs.FirstLabelWins | src/Controls/tests/TestCases.Shared.Tests/Tests/FeatureMatrix/SafeArea_ContentPageFeatureTests.cs:27 | with a second label after the first, the first one's values are returned |
| LabelProofs.SearchRenderedNegative | src/Controls/tests/TestCases.Shared.Tests/Tests/FeatureMatrix/SafeArea_ContentPageFeatureTests.cs:27 | a rendered label with a negative field matches nowhere, since '-' is not a digit |
| LabelProofs.NegativeFieldNeverParses | src/Controls/tests/TestCases.Shared.Tests/Tests/FeatureMatrix/SafeArea_ContentPageFeatureTests.cs:27-29 | the shared label with any negative field makes the parser throw `InvalidOperationException` |
| LabelProofs.FallbackParsesToZeros | src/Controls/tests/TestCases.HostApp/FeatureMatrix/SafeArea/SafeAreaExtensions.cs:42 | when nothing could be read, or on another platform, the label is the fallback and it parses to five zeros, keyboard height included |
| LabelProofs.AndroidLabelParses | src/Controls/tests/TestCases.HostApp/FeatureMatrix/SafeArea/SafeAreaExtensions.cs:26 | the Android label parses to the system-bar insets and the keyboard's bottom inset |
| LabelProofs.AppleKeyboardHeightIsZero | src/Controls/tests/TestCases.HostApp/FeatureMatrix/SafeArea/SafeAreaExtensions.cs:37 | the iOS and Mac Catalyst label parses to the safe-area insets with a keyboard height of 0, whenever the four insets are in range, whatever the unused keyboard inset is |
| Regions.Name | src/Controls/tests/TestCases.HostApp/FeatureMatrix/SafeArea/SafeAreaViewModel.cs:117-126 | each region's interpolated name is non-empty and holds no ',', ':' or space |
| Regions.NameInjective | src/Controls/tests/TestCases.HostApp/FeatureMatrix/SafeArea/SafeAreaViewModel.cs:122 | different regions have different names |
| Regions.SafeAreaEdges.With | src/Controls/tests/TestCases.HostApp/FeatureMatrix/SafeArea/SafeAreaViewModel.cs:19-77 | replacing one edge sets that edge and keeps the other three |
| Regions.UniformIff | src/Controls/tests/TestCases.HostApp/FeatureMatrix/SafeArea/SafeAreaViewModel.cs:121 | the four edges agree exactly when they equal the uniform value of the left edge |
| ViewModel.UniformThickness | src/Controls/tests/TestCases.HostApp/FeatureMatrix/SafeArea/SafeAreaOptionsPage.xaml.cs:90 | `new Thickness(n)` puts n on all four sides |
| ViewModel.EdgePropertyName | src/Controls/tests/TestCases.HostApp/FeatureMatrix/SafeArea/SafeAreaViewModel.cs:27 | an edge's property name differs from the names of the derived properties, padding and background |
| ViewModel.AssignEdge | src/Controls/tests/TestCases.HostApp/FeatureMatrix/SafeArea/SafeAreaViewModel.cs:19-77 | an edge assignment sets that edge only; when the value is unchanged nothing, not even the notification log, changes; otherwise the edge's three notifications are appended |
| ViewModel.AssignPadding | src/Controls/tests/TestCases.HostApp/FeatureMatrix/SafeArea/SafeAreaViewModel.cs:79-90 | the padding assignment sets padding only and notifies `Padding` exactly when it changes |
| ViewModel.AssignBackground | src/Controls/tests/TestCases.HostApp/FeatureMatrix/SafeArea/SafeAreaViewModel.cs:92-103 | the background assignment sets the background only and notifies `Background` exactly when it changes |
| ViewModel.AssignAll | src/Controls/tests/TestCases.HostApp/FeatureMatrix/SafeArea/ContentPage/SafeAreaContentPage.xaml.cs:77-83 | the four edge assignments in turn make every edge the given region, keep padding and background, only extend the log, and change nothing when every edge already holds it |
| ViewModel.AssignEdgeOnlyOwnEdge | src/Controls/tests/TestCases.HostApp/FeatureMatrix/SafeArea/SafeAreaViewModel.cs:19-77 | an edge setter's new edges are the old edges with that one edge replaced |
| ViewModel.AssignEdgeNoOpIff | src/Controls/tests/TestCases.HostApp/FeatureMatrix/SafeArea/SafeAreaViewModel.cs:24 | an edge setter changes the state exactly when the value differs; it adds 0 notifications when equal and 3 when not |
| ViewModel.AssignEdgeIdempotent | src/Controls/tests/TestCases.HostApp/FeatureMatrix/SafeArea/SafeAreaViewModel.cs:39 | setting an edge twice to one value is the same as setting it once |
| ViewModel.EdgeChangeNotifiesDisplay | src/Controls/tests/TestCases.HostApp/FeatureMatrix/SafeArea/SafeAreaViewModel.cs:26-29 | a real edge change appends, in order, the edge's name, `EffectiveSafeAreaEdges` and `DisplayString` |
| ViewModel.PaddingAndBackgroundDoNotNotifyDisplay | src/Controls/tests/TestCases.HostApp/FeatureMatrix/SafeArea/SafeAreaViewModel.cs:79-103 | padding and background changes never notify `DisplayString` or `EffectiveSafeAreaEdges` |
| ViewModel.AssignAllDisplay | src/Controls/tests/TestCases.HostApp/FeatureMatrix/SafeArea/ContentPage/SafeAreaContentPage.xaml.cs:77-83 | after setting all four edges to one region the display string is that region's bare name |
| ViewModel.AssignAllIdempotent | src/Controls/tests/TestCases.HostApp/FeatureMatrix/SafeArea/ContentPage/SafeAreaContentPage.xaml.cs:77-83 | applying the same region button twice is the same as applying it once |
| ViewModel.InitialDisplay | src/Controls/tests/TestCases.HostApp/FeatureMatrix/SafeArea/SafeAreaViewModel.cs:12-17 | a fresh view model displays "None" and has zero padding |
| ViewModel.Display | src/Controls/tests/TestCases.HostApp/FeatureMatrix/SafeArea/SafeAreaViewModel.cs:117-126 | the display is non-empty and has no ':' exactly when all four edges agree, and in that case it is the bare name of the shared region |
| ViewModel.PerEdgeText | src/Controls/tests/TestCases.HostApp/FeatureMatrix/SafeArea/SafeAreaViewModel.cs:117-126 | the per-edge text starts with `L:`, the left edge's name and `, T:`, and ends with `, B:` and the bottom edge's name |
| ViewModel.DisplayTopContainerOnly | src/Controls/tests/TestCases.Shared.Tests/Tests/FeatureMatrix/SafeArea_ContentPageFeatureTests.cs:197-224 | a Container top with None elsewhere displays "L:None, T:Container, R:None, B:None" |
| ViewModel.PerEdgeTextInjective | src/Controls/tests/TestCases.HostApp/FeatureMatrix/SafeArea/SafeAreaViewModel.cs:124 | the per-edge text determines all four edges |
| ViewModel.DisplayInjective | src/Controls/tests/TestCases.HostApp/FeatureMatrix/SafeArea/SafeAreaViewModel.cs:117-126 | the display string determines the four edges: no two configurations display alike |
| ViewModel.SafeAreaViewModel.constructor | src/Controls/tests/TestCases.HostApp/FeatureMatrix/SafeArea/SafeAreaViewModel.cs:12-17 | a new view model: every edge None, padding 0, a white background, no notifications |
| ViewModel.SafeAreaViewModel.OnPropertyChanged | src/Controls/tests/TestCases.HostApp/FeatureMatrix/SafeArea/SafeAreaViewModel.cs:128-131 | raising a notification appends exactly its name to the log |
| ViewModel.SafeAreaViewModel.SetLeftEdge | src/Controls/tests/TestCases.HostApp/FeatureMatrix/SafeArea/SafeAreaViewModel.cs:19-32 | the `LeftEdge` setter performs the edge assignment of the value-level specification |
| ViewModel.SafeAreaViewModel.SetTopEdge | src/Controls/tests/TestCases.HostApp/FeatureMatrix/SafeArea/SafeAreaViewModel.cs:34-47 | the `TopEdge` setter performs the edge assignment of the value-level specification |
| ViewModel.SafeAreaViewModel.SetRightEdge | src/Controls/tests/TestCases.HostApp/FeatureMatrix/SafeArea/SafeAreaViewModel.cs:49-62 | the `RightEdge` setter performs the edge assignment of the value-level specification |
| ViewModel.SafeAreaViewModel.SetBottomEdge | src/Controls/tests/TestCases.HostApp/FeatureMatrix/SafeArea/SafeAreaViewModel.cs:64-77 | the `BottomEdge` setter performs the edge assignment of the value-level specification |
| ViewModel.SafeAreaViewModel.SetPadding | src/Controls/tests/TestCases.HostApp/FeatureMatrix/SafeArea/SafeAreaViewModel.cs:79-90 | the `Padding` setter performs the padding assignment |
| ViewModel.SafeAreaViewModel.SetBackground | src/Controls/tests/TestCases.HostApp/FeatureMatrix/SafeArea/SafeAreaViewModel.cs:92-103 | the `Background` setter performs the background assignment, comparing brushes by identity |
| ViewModel.SafeAreaViewModel.EffectiveSafeAreaEdges | src/Controls/tests/TestCases.HostApp/FeatureMatrix/SafeArea/SafeAreaViewModel.cs:109-112 | the four edges in left, top, right, bottom order, read from the edge fields alone |
| ViewModel.SafeAreaViewModel.DisplayString | src/Controls/tests/TestCases.HostApp/FeatureMatrix/SafeArea/SafeAreaViewModel.cs:117-126 | the display string of the current edges |
| OptionsPage.FirstChecked | src/Controls/tests/TestCases.HostApp/FeatureMatrix/SafeArea/SafeAreaOptionsPage.xaml.cs:77-86 | the region picked is checked or is the `None` fallback; it comes from the given order; it is `None` when nothing in the order is checked |
| OptionsPage.FirstCheckedIsFirst | src/Controls/tests/TestCases.HostApp/FeatureMatrix/SafeArea/SafeAreaOptionsPage.xaml.cs:77-86 | no region earlier in the order than the one picked is checked |
| OptionsPage.GetSelectedRegion | src/Controls/tests/TestCases.HostApp/FeatureMatrix/SafeArea/SafeAreaOptionsPage.xaml.cs:77-86 | the region returned is checked or is the `None` fallback, and in a proper radio group it is the checked one |
| OptionsPage.UniformRegion | src/Controls/tests/TestCases.HostApp/FeatureMatrix/SafeArea/SafeAreaOptionsPage.xaml.cs:27-36 | the uniform handler's region is checked or is the `None` fallback, and in a proper radio group it is the checked one |
| OptionsPage.GetSelectedRegionIsFirstChecked | src/Controls/tests/TestCases.HostApp/FeatureMatrix/SafeArea/SafeAreaOptionsPage.xaml.cs:77-86 | `GetSelectedRegion` is the first checked of None, Container, SoftInput, All, Default, or `None` |
| OptionsPage.UniformRegionIsFirstChecked | src/Controls/tests/TestCases.HostApp/FeatureMatrix/SafeArea/SafeAreaOptionsPage.xaml.cs:27-36 | the uniform handler's region is the first checked of All, Container, SoftInput, Default, or `None` |
| OptionsPage.PrioritiesAgreeOnRadioGroup | src/Controls/tests/TestCases.HostApp/FeatureMatrix/SafeArea/SafeAreaOptionsPage.xaml.cs:29-36 | when at most one button is checked, both orders pick the checked region |
| OptionsPage.PrioritiesDiffer | src/Controls/tests/TestCases.HostApp/FeatureMatrix/SafeArea/SafeAreaOptionsPage.xaml.cs:29-36 | with Container and All both checked, the per-edge handlers pick Container and the uniform handler picks All |
| OptionsPage.NoneFirstOnlyPerEdge | src/Controls/tests/TestCases.HostApp/FeatureMatrix/SafeArea/SafeAreaOptionsPage.xaml.cs:79 | a checked None button wins per edge but is only the fallback for the uniform handler |
| OptionsPage.SafeAreaOptionsPage.constructor | src/Controls/tests/TestCases.HostApp/FeatureMatrix/SafeArea/SafeAreaOptionsPage.xaml.cs:10-15 | the page keeps the view model it was opened with |
| OptionsPage.SafeAreaOptionsPage.OnUniformChanged | src/Controls/tests/TestCases.HostApp/FeatureMatrix/SafeArea/SafeAreaOptionsPage.xaml.cs:22-43 | nothing when the button became unchecked; otherwise all four edges get the uniform region and the display is its bare name |
| OptionsPage.SafeAreaOptionsPage.OnLeftEdgeChanged | src/Controls/tests/TestCases.HostApp/FeatureMatrix/SafeArea/SafeAreaOptionsPage.xaml.cs:45-51 | nothing when unchecked; otherwise only the left edge is assigned the selected region |
| OptionsPage.SafeAreaOptionsPage.OnTopEdgeChanged | src/Controls/tests/TestCases.HostApp/FeatureMatrix/SafeArea/SafeAreaOptionsPage.xaml.cs:53-59 | nothing when unchecked; otherwise only the top edge is assigned the selected region |
| OptionsPage.SafeAreaOptionsPage.OnRightEdgeChanged | src/Controls/tests/TestCases.HostApp/FeatureMatrix/SafeArea/SafeAreaOptionsPage.xaml.cs:61-67 | nothing when unchecked; otherwise only the right edge is assigned the selected region |
| OptionsPage.SafeAreaOptionsPage.OnBottomEdgeChanged | src/Controls/tests/TestCases.HostApp/FeatureMatrix/SafeArea/SafeAreaOptionsPage.xaml.cs:69-75 | nothing when unchecked; otherwise only the bottom edge is assigned the selected region |
| OptionsPage.SafeAreaOptionsPage.OnPaddingCheckBoxChanged | src/Controls/tests/TestCases.HostApp/FeatureMatrix/SafeArea/SafeAreaOptionsPage.xaml.cs:88-91 | the padding becomes a uniform 20 when checked and 0 when unchecked |
| OptionsPage.SafeAreaOptionsPage.OnBackgroundCheckBoxChanged | src/Controls/tests/TestCases.HostApp/FeatureMatrix/SafeArea/SafeAreaOptionsPage.xaml.cs:93-112 | when checked, a new gradient brush, so `Background` is always notified; when unchecked, null; edges and padding untouched |
| ContentPage.ContentLabel | src/Controls/tests/TestCases.HostApp/FeatureMatrix/SafeArea/ContentPage/SafeAreaContentPage.xaml.cs:51 | the page's own label starts with `L:` and never holds a 'K', so never the `KeyboardHeight` field |
| ContentPage.GetSafeAreaInfo | src/Controls/tests/TestCases.HostApp/FeatureMatrix/SafeArea/ContentPage/SafeAreaContentPage.xaml.cs:40-68 | every text the page writes, fallback included, is its four-field label |
| ContentPage.PageLabelIsSharedWithoutKeyboard | src/Controls/tests/TestCases.HostApp/FeatureMatrix/SafeArea/ContentPage/SafeAreaContentPage.xaml.cs:40-68 | the page's text is the shared label with its `,KeyboardHeight:` field cut off, on every platform and read: the same four read insets, or the same zeros when nothing could be read or the platform is another one |
| ContentPage.ContentFallbackIsZeroLabel | src/Controls/tests/TestCases.HostApp/FeatureMatrix/SafeArea/ContentPage/SafeAreaContentPage.xaml.cs:67 | the page's fallback is its four-field label of zeros |
| ContentPage.ContentLabelNeverParses | src/Controls/tests/TestCases.HostApp/FeatureMatrix/SafeArea/ContentPage/SafeAreaContentPage.xaml.cs:40-68 | every label the page writes as written makes the test's parser throw `InvalidOperationException` |
| ContentPage.ContentFallbackCounterexample | src/Controls/tests/TestCases.HostApp/FeatureMatrix/SafeArea/ContentPage/SafeAreaContentPage.xaml.cs:67 | the page's fallback fails to parse while the shared fallback parses to zeros |
| ContentPage.CorrectedSafeAreaInfo | src/Controls/tests/TestCases.HostApp/FeatureMatrix/SafeArea/SafeAreaExtensions.cs:14-44 | the intended label, in the shared format: when nothing could be read it parses to zeros; when the four insets (and, on Android, the IME bottom) are non-negative and at most `Int32.MaxValue` it parses to the insets, with the keyboard height on Android and 0 on iOS; when a printed field is negative the parse throws `InvalidOperationException` |
| ContentPage.ButtonRegionBijective | src/Controls/tests/TestCases.HostApp/FeatureMatrix/SafeArea/ContentPage/SafeAreaContentPage.xaml.cs:85-89 | the five buttons and the five regions correspond one to one |
| ContentPage.SafeAreaContentPage.constructor | src/Controls/tests/TestCases.HostApp/FeatureMatrix/SafeArea/ContentPage/SafeAreaContentPage.xaml.cs:11-23 | the page shows the view model it was given |
| ContentPage.SafeAreaContentPage.SetAllEdges | src/Controls/tests/TestCases.HostApp/FeatureMatrix/SafeArea/ContentPage/SafeAreaContentPage.xaml.cs:77-83 | all four edges become the region, and the display is its bare name |
| ContentPage.SafeAreaContentPage.OnSafeAreaNoneClicked | src/Controls/tests/TestCases.HostApp/FeatureMatrix/SafeArea/ContentPage/SafeAreaContentPage.xaml.cs:85 | every edge becomes None |
| ContentPage.SafeAreaContentPage.OnSafeAreaAllClicked | src/Controls/tests/TestCases.HostApp/FeatureMatrix/SafeArea/ContentPage/SafeAreaContentPage.xaml.cs:86 | every edge becomes All |
| ContentPage.SafeAreaContentPage.OnSafeAreaContainerClicked | src/Controls/tests/TestCases.HostApp/FeatureMatrix/SafeArea/ContentPage/SafeAreaContentPage.xaml.cs:87 | every edge becomes Container |
| ContentPage.SafeAreaContentPage.OnSafeAreaSoftInputClicked | src/Controls/tests/TestCases.HostApp/FeatureMatrix/SafeArea/ContentPage/SafeAreaContentPage.xaml.cs:88 | every edge becomes SoftInput |
| ContentPage.SafeAreaContentPage.OnSafeAreaDefaultClicked | src/Controls/tests/TestCases.HostApp/FeatureMatrix/SafeArea/ContentPage/SafeAreaContentPage.xaml.cs:89 | every edge becomes Default |
| ContentPage.SafeAreaContentPage.NavigateToOptionsPage | src/Controls/tests/TestCases.HostApp/FeatureMatrix/SafeArea/ContentPage/SafeAreaContentPage.xaml.cs:70-75 | a fresh view model, shared with the new options page: every edge None again and the display "None", whatever came before |
| ContentPage.SafeAreaContentPage.UpdateSafeAreaInsets | src/Controls/tests/TestCases.HostApp/FeatureMatrix/SafeArea/ContentPage/SafeAreaContentPage.xaml.cs:35-38 | the inset label becomes the page's own `GetSafeAreaInfo` text, which the test's parser always rejects with `InvalidOperationException` |
| ContentPage.SafeAreaContentPage.UpdateSafeAreaInsetsCorrected | src/Controls/tests/TestCases.HostApp/FeatureMatrix/SafeArea/ContentPage/SafeAreaContentPage.xaml.cs:35-38 | the intended update (see Findings): the label becomes the shared-format text, which parses whenever the four insets (and, on Android, the IME bottom) are non-negative and at most `Int32.MaxValue` |
| ContentPage.TopContainerOnly | src/Controls/tests/TestCases.Shared.Tests/Tests/FeatureMatrix/SafeArea_ContentPageFeatureTests.cs:197-224 | opening the options page and choosing Container for the top edge displays "L:None, T:Container, R:None, B:None" on the content page |
| Oracle.Expected | src/Controls/tests/TestCases.Shared.Tests/Tests/FeatureMatrix/SafeArea_ContentPageFeatureTests.cs:81-188 | without padding, each indicator's expected coordinate is the per-region value the assertions give, read from its own edge's region only |
| Oracle.ExpectedWithPadding | src/Controls/tests/TestCases.Shared.Tests/Tests/FeatureMatrix/SafeArea_ContentPageFeatureTests.cs:975-998 | insets and padding add up: each indicator moves inward by its own side's padding, and with zero padding the positions are the unpadded table |
| Oracle.PaddingIsAdditive | src/Controls/tests/TestCases.Shared.Tests/Tests/FeatureMatrix/SafeArea_ContentPageFeatureTests.cs:994-997 | under any region but None a positive top padding puts the top indicator strictly below the top inset |
| Oracle.AllWithPadding | src/Controls/tests/TestCases.Shared.Tests/Tests/FeatureMatrix/SafeArea_ContentPageFeatureTests.cs:977-998 | choosing All and checking the padding box displays "All", sets a uniform padding of 20, and expects the top indicator 20 below the top inset |
| Oracle.ExpectedByAvoidance | src/Controls/tests/TestCases.Shared.Tests/Tests/FeatureMatrix/SafeArea_ContentPageFeatureTests.cs:1836-1848 | the per-region table is the reading "keep clear of the system bars unless None, at the bottom only for Container, All and Default; keep clear of the keyboard for All and SoftInput" |
| Oracle.NoneIsEdgeToEdge | src/Controls/tests/TestCases.Shared.Tests/Tests/FeatureMatrix/SafeArea_ContentPageFeatureTests.cs:1036-1051 | with every edge None the content is edge to edge, keyboard or not |
| Oracle.AllInsetsEveryEdge | src/Controls/tests/TestCases.Shared.Tests/Tests/FeatureMatrix/SafeArea_ContentPageFeatureTests.cs:107-115 | with every edge All and no keyboard each indicator sits inside its inset |
| Oracle.EdgesAreIndependent | src/Controls/tests/TestCases.Shared.Tests/Tests/FeatureMatrix/SafeArea_ContentPageFeatureTests.cs:1839-1848 | changing one edge's region never moves another edge's indicator |
| Oracle.KeyboardMovesOnlyBottom | src/Controls/tests/TestCases.Shared.Tests/Tests/FeatureMatrix/SafeArea_ContentPageFeatureTests.cs:445-470 | showing the keyboard moves only the bottom indicator, only for All and SoftInput, to the keyboard's top; dismissing it restores every edge |
| Oracle.DefaultActsAsContainer | src/Controls/tests/TestCases.Shared.Tests/Tests/FeatureMatrix/SafeArea_ContentPageFeatureTests.cs:1607-1611 | Default is expected exactly where Container is, with or without the keyboard |
| Oracle.DefaultUnlikeNone | src/Controls/tests/TestCases.Shared.Tests/Tests/FeatureMatrix/SafeArea_ContentPageFeatureTests.cs:180-183 | with a non-zero top inset Default's top differs from None's |
| Oracle.AndroidBottomAboveKeyboard | src/Controls/tests/TestCases.Shared.Tests/Tests/FeatureMatrix/SafeArea_ContentPageFeatureTests.cs:43-47 | on Android, with the label in the shared format, an All or SoftInput bottom under the keyboard is expected the keyboard's height above the screen bottom |

## Left out

- Appium driving (`App.Tap`, `WaitForElement`, `GetRect`, orientation changes, `DismissKeyboard`, `Thread.Sleep`) and the window-size query: device I/O. The screen size, insets and keyboard state are inputs of the oracle. The test methods themselves are not modelled; the oracle is the table their assertions encode.
- The platform inset queries (AndroidX `WindowInsetsCompat`, UIKit `SafeAreaInsets`), the window and handler checks, and the `catch {}` around them: foreign calls. Their outcome is the `InsetRead` input, either `Unreadable` or five integers.
- The iOS `(int)` cast of `nfloat` insets: floating point. The read values are already integers.
- iOS `GetKeyboardY`, which reads the "Done" button's position: device I/O. The keyboard top is an input of the oracle.
- `Dispatcher.DispatchDelayed` (100 ms and 500 ms) and the `SizeChanged`/`Appearing` wiring: event-loop timing. `UpdateSafeAreaInsets` is a method callers invoke.
- `PushModalAsync`, `PopModalAsync` and `ApplyButton_Clicked`: asynchronous navigation with no effect on the modelled state.
- `BindingContext` and XAML bindings: the display label is the view model's `DisplayString`, and the radio buttons' checked states are the `RadioGroup` input of each handler.
- `SetSoftInputMode(AdjustNothing)` in the page constructor: a platform window call.
- `LinearGradientBrush` contents (start and end points, gradient stops): rendering only. A brush is modelled by its identity, which is what the setter's `!=` compares.
- The numeric values of `SafeAreaRegions`: they are not part of this model; only the five names are used.
- `Thickness` holds doubles; it is modelled with integer sides, and only 0 and 20 are ever set.
- `\d` is read as the ASCII digits 0-9; .NET's `\d` also accepts other Unicode decimal digits.
- A null label text (`?? string.Empty`): a string is never null here.
- `Math.Abs` in the assertions: the oracle states the coordinate itself.
- The MAUI layout engine that should meet the oracle is not part of this model.
- ContentPage.SafeAreaContentPage.constructor: the label starts as the empty string; the XAML's initial text is not part of this model.
- Extensions.GetSafeAreaInfo: the doc comment at SafeAreaExtensions.cs line 12 shows `, KeyboardHeight` with a space; the model follows the code, which writes none.
- Oracle.ExpectedWithPadding: the test asserts only that the padded top lies below the top inset; the other three sides, and the bottom under a shown keyboard, follow its "additive" description rather than an assertion.
- Decimal.IntToString: a negative value is written with '-'; C# uses the current culture's negative sign. Either way the sign is not a digit, so no negative field ever parses.
- Oracle.DefaultActsAsContainer: the test's description at line 167 says the content page defaults to None, but its assertions treat Default like Container. The model follows the assertions.

## Findings

| source | as written | input that shows it | evidently intended | confidence | as-written member | corrected member |
|---|---|---|---|---|---|---|
| src/Controls/tests/TestCases.HostApp/FeatureMatrix/SafeArea/ContentPage/SafeAreaContentPage.xaml.cs:51-67 | the content page writes `L:{l},T:{t},R:{r},B:{b}` with no `,KeyboardHeight:` field, and its fallback is `L:0,T:0,R:0,B:0`; the test's pattern requires that field, so `GetSafeAreaInsets` throws `InvalidOperationException` on every text the page writes | the fallback `L:0,T:0,R:0,B:0` (no window) | the shared `SafeAreaExtensions` format, `L:{l},T:{t},R:{r},B:{b},KeyboardHeight:{h}`, which the parser reads back | medium, not executed | ContentPage.ContentLabelNeverParses | ContentPage.CorrectedSafeAreaInfo |
