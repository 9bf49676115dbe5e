/** `SafeAreaOptionsPage`: radio buttons that set the shared view model's edges,
    uniformly or one edge at a time, and check boxes for padding and background. */
module OptionsPage {
  import opened Regions
  import opened ViewModel

  /** The checked states of one group of five radio buttons: None, Container,
      SoftInput, All, Default. */
  datatype RadioGroup = RadioGroup(none: bool, container: bool, softInput: bool,
                                   all: bool, defaultBtn: bool)
  {
    /** Whether the button for a region is checked. */
    predicate IsChecked(r: SafeAreaRegions) {
      match r
      case None => none
      case Container => container
      case SoftInput => softInput
      case All => all
      case Default => defaultBtn
    }

    /** At most one button is checked, as a radio group keeps it. */
    predicate AtMostOneChecked() {
      forall r, q :: IsChecked(r) && IsChecked(q) ==> r == q
    }
  }

  /** The order in which the per-edge handlers test the buttons. */
  const EdgeOrder: seq<SafeAreaRegions> := [None, Container, SoftInput, All, Default]

  /** The order in which the uniform handler tests the buttons; when none of them
      is checked the region stays `None`. */
  const UniformOrder: seq<SafeAreaRegions> := [All, Container, SoftInput, Default]

  /** Reference definition: the first region in `order` whose button is checked,
      or `None` when there is none. */
  function FirstChecked(g: RadioGroup, order: seq<SafeAreaRegions>): (r: SafeAreaRegions)
    ensures r == None || g.IsChecked(r)
    ensures r != None ==> r in order
    ensures (forall q :: q in order ==> !g.IsChecked(q)) ==> r == None
  {
    if order == [] then None
    else if g.IsChecked(order[0]) then order[0]
    else FirstChecked(g, order[1..])
  }

  /** `FirstChecked` picks the checked region that comes first in `order`. */
  lemma {:induction false} FirstCheckedIsFirst(g: RadioGroup, order: seq<SafeAreaRegions>, i: nat)
    requires i < |order| && g.IsChecked(order[i])
    ensures g.IsChecked(FirstChecked(g, order))
    ensures exists j :: 0 <= j <= i && order[j] == FirstChecked(g, order) &&
                        (forall k :: 0 <= k < j ==> !g.IsChecked(order[k]))
    decreases i
  {
    if !g.IsChecked(order[0]) {
      FirstCheckedIsFirst(g, order[1..], i - 1);
      var j :| 0 <= j <= i - 1 && order[1..][j] == FirstChecked(g, order[1..]) &&
        forall k :: 0 <= k < j ==> !g.IsChecked(order[1..][k]);
      assert order[j + 1] == FirstChecked(g, order);
      forall k | 0 <= k < j + 1 ensures !g.IsChecked(order[k]) {
        if k > 0 {
          assert order[k] == order[1..][k - 1];
        }
      }
    } else {
      assert order[0] == FirstChecked(g, order);
    }
  }

  /** `GetSelectedRegion`: None, Container, SoftInput, All, Default checked in that
      order; `None` when no button is checked. */
  function GetSelectedRegion(g: RadioGroup): (r: SafeAreaRegions)
    ensures r == None || g.IsChecked(r)
    ensures g.AtMostOneChecked() ==> forall q :: g.IsChecked(q) ==> r == q
  {
    assert g.IsChecked(None) == g.none && g.IsChecked(Container) == g.container;
    assert g.IsChecked(SoftInput) == g.softInput && g.IsChecked(All) == g.all;
    assert g.IsChecked(Default) == g.defaultBtn;
    if g.none then None
    else if g.container then Container
    else if g.softInput then SoftInput
    else if g.all then All
    else if g.defaultBtn then Default
    else None
  }

  /** The region `OnUniformChanged` picks: All, Container, SoftInput, Default
      checked in that order, `None` otherwise. */
  function UniformRegion(g: RadioGroup): (r: SafeAreaRegions)
    ensures r == None || g.IsChecked(r)
    ensures g.AtMostOneChecked() ==> forall q :: g.IsChecked(q) ==> r == q
  {
    assert g.IsChecked(None) == g.none && g.IsChecked(Container) == g.container;
    assert g.IsChecked(SoftInput) == g.softInput && g.IsChecked(All) == g.all;
    assert g.IsChecked(Default) == g.defaultBtn;
    if g.all then All
    else if g.container then Container
    else if g.softInput then SoftInput
    else if g.defaultBtn then Default
    else None
  }

  /** The per-edge if-chain is the first checked button in the per-edge order. */
  lemma GetSelectedRegionIsFirstChecked(g: RadioGroup)
    ensures GetSelectedRegion(g) == FirstChecked(g, EdgeOrder)
  {
    var o := EdgeOrder;
    assert o[1..] == [Container, SoftInput, All, Default];
    assert o[1..][1..] == [SoftInput, All, Default];
    assert o[1..][1..][1..] == [All, Default];
    assert o[1..][1..][1..][1..] == [Default];
    assert o[1..][1..][1..][1..][1..] == [];
    assert FirstChecked(g, [Default]) == if g.defaultBtn then Default else None;
    assert FirstChecked(g, [All, Default]) == if g.all then All else FirstChecked(g, [Default]);
    assert FirstChecked(g, [SoftInput, All, Default]) ==
      if g.softInput then SoftInput else FirstChecked(g, [All, Default]);
    assert FirstChecked(g, [Container, SoftInput, All, Default]) ==
      if g.container then Container else FirstChecked(g, [SoftInput, All, Default]);
  }

  /** The uniform if-chain is the first checked button in the uniform order. */
  lemma UniformRegionIsFirstChecked(g: RadioGroup)
    ensures UniformRegion(g) == FirstChecked(g, UniformOrder)
  {
    var o := UniformOrder;
    assert o[1..] == [Container, SoftInput, Default];
    assert o[1..][1..] == [SoftInput, Default];
    assert o[1..][1..][1..] == [Default];
    assert o[1..][1..][1..][1..] == [];
    assert FirstChecked(g, [Default]) == if g.defaultBtn then Default else None;
    assert FirstChecked(g, [SoftInput, Default]) ==
      if g.softInput then SoftInput else FirstChecked(g, [Default]);
  }

  /** With a proper radio group (at most one button checked) both handlers read
      the same region: the checked one, or `None`. */
  lemma PrioritiesAgreeOnRadioGroup(g: RadioGroup)
    requires g.AtMostOneChecked()
    ensures GetSelectedRegion(g) == UniformRegion(g)
    ensures forall r :: g.IsChecked(r) ==> GetSelectedRegion(g) == r
  {
    assert g.IsChecked(None) == g.none && g.IsChecked(Container) == g.container;
    assert g.IsChecked(SoftInput) == g.softInput && g.IsChecked(All) == g.all;
    assert g.IsChecked(Default) == g.defaultBtn;
  }

  /** The two priority orders differ: with both Container and All checked the
      per-edge handlers pick Container and the uniform handler picks All. */
  lemma PrioritiesDiffer()
    ensures GetSelectedRegion(RadioGroup(false, true, false, true, false)) == Container
    ensures UniformRegion(RadioGroup(false, true, false, true, false)) == All
  {
  }

  /** A checked None button wins for the per-edge handlers but is only the
      fallback for the uniform one. */
  lemma NoneFirstOnlyPerEdge(g: RadioGroup)
    requires g.none
    ensures GetSelectedRegion(g) == None
    ensures UniformRegion(g) == None <==> !(g.all || g.container || g.softInput || g.defaultBtn)
  {
  }

  /** `SafeAreaOptionsPage`: the view model it was opened with; it never replaces it. */
  class SafeAreaOptionsPage {
    const viewModel: SafeAreaViewModel

    constructor(vm: SafeAreaViewModel)
      ensures viewModel == vm
    {
      viewModel := vm;
    }

    /** `OnUniformChanged`: nothing when the button became unchecked; otherwise
        every edge gets the uniform region. */
    method OnUniformChanged(value: bool, uniform: RadioGroup)
      modifies viewModel
      ensures !value ==> viewModel.State() == old(viewModel.State())
      ensures value ==> viewModel.State() == AssignAll(old(viewModel.State()), UniformRegion(uniform))
      ensures value ==> viewModel.DisplayString() == Name(UniformRegion(uniform))
    {
      if !value {
        return;
      }
      var region := None;
      if uniform.all {
        region := All;
      } else if uniform.container {
        region := Container;
      } else if uniform.softInput {
        region := SoftInput;
      } else if uniform.defaultBtn {
        region := Default;
      }
      viewModel.SetLeftEdge(region);
      viewModel.SetTopEdge(region);
      viewModel.SetRightEdge(region);
      viewModel.SetBottomEdge(region);
      AssignAllDisplay(old(viewModel.State()), region);
    }

    /** `OnLeftEdgeChanged`. */
    method OnLeftEdgeChanged(value: bool, left: RadioGroup)
      modifies viewModel
      ensures !value ==> viewModel.State() == old(viewModel.State())
      ensures value ==> viewModel.State() == AssignEdge(old(viewModel.State()), Left, GetSelectedRegion(left))
    {
      if !value {
        return;
      }
      viewModel.SetLeftEdge(GetSelectedRegion(left));
    }

    /** `OnTopEdgeChanged`. */
    method OnTopEdgeChanged(value: bool, top: RadioGroup)
      modifies viewModel
      ensures !value ==> viewModel.State() == old(viewModel.State())
      ensures value ==> viewModel.State() == AssignEdge(old(viewModel.State()), Top, GetSelectedRegion(top))
    {
      if !value {
        return;
      }
      viewModel.SetTopEdge(GetSelectedRegion(top));
    }

    /** `OnRightEdgeChanged`. */
    method OnRightEdgeChanged(value: bool, right: RadioGroup)
      modifies viewModel
      ensures !value ==> viewModel.State() == old(viewModel.State())
      ensures value ==> viewModel.State() == AssignEdge(old(viewModel.State()), Right, GetSelectedRegion(right))
    {
      if !value {
        return;
      }
      viewModel.SetRightEdge(GetSelectedRegion(right));
    }

    /** `OnBottomEdgeChanged`. */
    method OnBottomEdgeChanged(value: bool, bottom: RadioGroup)
      modifies viewModel
      ensures !value ==> viewModel.State() == old(viewModel.State())
      ensures value ==> viewModel.State() == AssignEdge(old(viewModel.State()), Bottom, GetSelectedRegion(bottom))
    {
      if !value {
        return;
      }
      viewModel.SetBottomEdge(GetSelectedRegion(bottom));
    }

    /** `OnPaddingCheckBoxChanged`: a uniform padding of 20 when checked, 0 when not. */
    method OnPaddingCheckBoxChanged(value: bool)
      modifies viewModel
      ensures viewModel.State() ==
        AssignPadding(old(viewModel.State()), UniformThickness(if value then 20 else 0))
    {
      viewModel.SetPadding(if value then UniformThickness(20) else UniformThickness(0));
    }

    /** `OnBackgroundCheckBoxChanged`: a newly created gradient brush when checked,
        so the background always changes and `Background` is always notified;
        `null` when unchecked. */
    method OnBackgroundCheckBoxChanged(value: bool)
      modifies viewModel
      ensures value ==> viewModel.background.Gradient? && fresh(viewModel.background.brush)
      ensures value ==> viewModel.raised == old(viewModel.raised) + [BackgroundName]
      ensures !value ==> viewModel.State() == AssignBackground(old(viewModel.State()), NoBrush)
      ensures viewModel.State().edges == old(viewModel.State().edges)
      ensures viewModel.padding == old(viewModel.padding)
    {
      if value {
        var brush := new GradientBrush();
        viewModel.SetBackground(Gradient(brush));
      } else {
        viewModel.SetBackground(NoBrush);
      }
    }
  }
}
