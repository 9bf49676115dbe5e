/** `SafeAreaRegions` and `SafeAreaEdges`: which kinds of system UI each edge of a
    page keeps its content away from. */
module Regions {

  /** The five regions the harness offers. Their numeric values are not modelled:
      the harness only compares them for equality and prints their names. */
  datatype SafeAreaRegions = None | Container | SoftInput | All | Default

  /** The enum member's name, as string interpolation writes it. */
  function Name(r: SafeAreaRegions): (s: string)
    ensures |s| > 0
    ensures ',' !in s && ':' !in s && ' ' !in s
  {
    match r
    case None => "None"
    case Container => "Container"
    case SoftInput => "SoftInput"
    case All => "All"
    case Default => "Default"
  }

  /** Different regions print differently, so a printed name identifies its region. */
  lemma NameInjective(a: SafeAreaRegions, b: SafeAreaRegions)
    requires Name(a) == Name(b)
    ensures a == b
  {
  }

  /** The four edges of a page. */
  datatype Edge = Left | Top | Right | Bottom

  /** `SafeAreaEdges(left, top, right, bottom)`: one region per edge. */
  datatype SafeAreaEdges = SafeAreaEdges(left: SafeAreaRegions, top: SafeAreaRegions,
                                         right: SafeAreaRegions, bottom: SafeAreaRegions)
  {
    /** The region of one edge. */
    function Get(e: Edge): SafeAreaRegions {
      match e
      case Left => left
      case Top => top
      case Right => right
      case Bottom => bottom
    }

    /** These edges with one edge's region replaced. */
    function With(e: Edge, v: SafeAreaRegions): (r: SafeAreaEdges)
      ensures r.Get(e) == v
      ensures forall f :: f != e ==> r.Get(f) == Get(f)
    {
      match e
      case Left => this.(left := v)
      case Top => this.(top := v)
      case Right => this.(right := v)
      case Bottom => this.(bottom := v)
    }

    /** All four edges hold the same region. */
    predicate IsUniform() {
      left == top && top == right && right == bottom
    }
  }

  /** Every edge set to one region. */
  function Uniform(r: SafeAreaRegions): (edges: SafeAreaEdges)
    ensures forall e :: edges.Get(e) == r
    ensures edges.IsUniform()
  {
    SafeAreaEdges(r, r, r, r)
  }

  /** Two edge sets are equal exactly when they agree on every edge. */
  lemma EdgesExtensional(a: SafeAreaEdges, b: SafeAreaEdges)
    requires forall e :: a.Get(e) == b.Get(e)
    ensures a == b
  {
    assert a.Get(Left) == b.Get(Left) && a.Get(Top) == b.Get(Top);
    assert a.Get(Right) == b.Get(Right) && a.Get(Bottom) == b.Get(Bottom);
  }

  /** The uniform edge sets are exactly those of the form `Uniform(r)`. */
  lemma UniformIff(edges: SafeAreaEdges)
    ensures edges.IsUniform() <==> edges == Uniform(edges.left)
  {
  }
}
