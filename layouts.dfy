/** Storage locations produced by the data-layout pass, and the labels that
    name them. A global lives in the data section under a fixed label; a local
    or a parameter lives at an offset from the frame pointer. */
module Layouts {

  /** The three layout records the pass attaches to a symbol. Sizes are in
      bytes; `fpreloff` is relative to the frame pointer. */
  datatype SymbolLayout =
    | GlobalSymbolLayout(symname: string, bsize: nat)
    | LocalSymbolLayout(symname: string, fpreloff: int, bsize: nat)
    | ParameterSymbolLayout(symname: string, fpreloff: int, bsize: nat)

  /** Label of a top-level symbol. */
  function GlobalLabel(name: string): (r: string)
    ensures |r| == 3 + |name|
    ensures r[..3] == "_g_" && r[3..] == name
  {
    "_g_" + name
  }

  /** Label of a local of function `fname`. */
  function LocalLabel(fname: string, name: string): (r: string)
    ensures |r| == 4 + |fname| + |name|
    ensures r[..3] == "_l_" && r[3..3 + |fname|] == fname
    ensures r[3 + |fname|] == '_' && r[4 + |fname|..] == name
  {
    "_l_" + fname + "_" + name
  }

  /** Label of a parameter of function `fname`. */
  function ParamLabel(fname: string, name: string): (r: string)
    ensures |r| == 4 + |fname| + |name|
    ensures r[..3] == "_p_" && r[3..3 + |fname|] == fname
    ensures r[3 + |fname|] == '_' && r[4 + |fname|..] == name
  {
    "_p_" + fname + "_" + name
  }

  /** Labels of different storage classes never coincide, whatever the names:
      the second character tells them apart. */
  lemma LabelKindsDiffer(f: string, g: string, x: string, y: string)
    ensures LocalLabel(f, x) != ParamLabel(g, y)
    ensures LocalLabel(f, x) != GlobalLabel(y)
    ensures ParamLabel(f, x) != GlobalLabel(y)
  {
    assert LocalLabel(f, x)[..3][1] == 'l';
    assert ParamLabel(g, y)[..3][1] == 'p';
    assert ParamLabel(f, x)[..3][1] == 'p';
    assert GlobalLabel(y)[..3][1] == 'g';
  }

  /** Within one function, a label determines the symbol name. */
  lemma ScopedLabelsInjective(f: string, x: string, y: string)
    ensures LocalLabel(f, x) == LocalLabel(f, y) <==> x == y
    ensures ParamLabel(f, x) == ParamLabel(f, y) <==> x == y
  {
    if LocalLabel(f, x) == LocalLabel(f, y) {
      assert x == LocalLabel(f, x)[4 + |f|..];
    }
    if ParamLabel(f, x) == ParamLabel(f, y) {
      assert x == ParamLabel(f, x)[4 + |f|..];
    }
  }

  /** Two functions' same-named locals (or parameters) get different labels:
      a shared label means a shared function name. */
  lemma SameNameInDifferentFunctions(f: string, g: string, x: string)
    ensures LocalLabel(f, x) == LocalLabel(g, x) ==> f == g
    ensures ParamLabel(f, x) == ParamLabel(g, x) ==> f == g
  {
    if LocalLabel(f, x) == LocalLabel(g, x) {
      assert |f| == |g|;
      assert f == LocalLabel(f, x)[3..3 + |f|] == LocalLabel(g, x)[3..3 + |g|];
    }
    if ParamLabel(f, x) == ParamLabel(g, x) {
      assert |f| == |g|;
      assert f == ParamLabel(f, x)[3..3 + |f|] == ParamLabel(g, x)[3..3 + |g|];
    }
  }

  /** Across functions, labels are not unique once names contain `_`: the
      symbol `y` of function `f_x` and the symbol `x_y` of function `f` are
      different symbols with the same label. */
  lemma UnderscoreLabelsCollide(f: string, x: string, y: string)
    ensures f + "_" + x != f && y != x + "_" + y
    ensures LocalLabel(f + "_" + x, y) == LocalLabel(f, x + "_" + y)
    ensures ParamLabel(f + "_" + x, y) == ParamLabel(f, x + "_" + y)
  {
    assert |f + "_" + x| != |f|;
    assert "_l_" + (f + "_" + x) + "_" + y == "_l_" + f + "_" + (x + "_" + y);
    assert "_p_" + (f + "_" + x) + "_" + y == "_p_" + f + "_" + (x + "_" + y);
  }

  /** Distinct top-level names give distinct global labels. */
  lemma GlobalLabelsInjective(x: string, y: string)
    ensures GlobalLabel(x) == GlobalLabel(y) <==> x == y
  {
    if GlobalLabel(x) == GlobalLabel(y) {
      assert x == GlobalLabel(x)[3..];
    }
  }
}
