/** What the layout of a function and of the program guarantees: which
    symbols get a location and of which kind, where local and parameter slots
    lie relative to the frame pointer and to each other, how big the frame
    is, and when labels are distinct: differently named symbols of one
    function, same-named symbols of different functions, and labels of
    different kinds never share a label. */
module LayoutProperties {
  import opened Layouts
  import opened IR
  import opened CallSpaceAnalysis
  import opened DataLayout

  // ----------------------------------------------------------------------
  // Running sums

  lemma LocalBytesStep(t: seq<Symbol>, k: nat)
    requires k < |t|
    ensures LocalBytes(t[..k + 1]) == LocalBytes(t[..k]) + (if IsLocal(t[k]) then ByteSize(t[k]) else 0)
  {
    assert t[..k + 1][..k] == t[..k];
  }

  /** The local bytes of a longer prefix are never fewer. */
  lemma {:induction false} LocalBytesMonotone(t: seq<Symbol>, a: nat, b: nat)
    requires a <= b <= |t|
    ensures LocalBytes(t[..a]) <= LocalBytes(t[..b])
    decreases b - a
  {
    if a < b {
      LocalBytesMonotone(t, a, b - 1);
      LocalBytesStep(t, b - 1);
    }
  }

  lemma ParamBytesStep(t: seq<Symbol>, k: nat)
    requires k < |t|
    ensures ParamBytes(t[k..]) == (if t[k].alloct == Param then ByteSize(t[k]) else 0) + ParamBytes(t[k + 1..])
  {
    assert t[k..][1..] == t[k + 1..];
  }

  /** The parameter bytes of a longer suffix are never fewer. */
  lemma {:induction false} ParamBytesMonotone(t: seq<Symbol>, a: nat, b: nat)
    requires a <= b <= |t|
    ensures ParamBytes(t[b..]) <= ParamBytes(t[a..])
    decreases b - a
  {
    if a < b {
      ParamBytesStep(t, a);
      ParamBytesMonotone(t, a + 1, b);
    }
  }

  /** Symbols that get no parameter slot (other classes, or zero size)
      contribute no parameter bytes. */
  lemma {:induction false} ParamBytesWithoutParams(t: seq<Symbol>)
    requires forall k :: 0 <= k < |t| ==> !IsParam(t[k])
    ensures ParamBytes(t) == 0
  {
    if t != [] {
      ParamBytesWithoutParams(t[1..]);
    }
  }

  /** A function's parameters take no bytes exactly when each of its
      parameters is narrower than a byte (or of size 0). */
  lemma {:induction false} ParamBytesZero(t: seq<Symbol>)
    ensures ParamBytes(t) == 0 <==> forall k :: 0 <= k < |t| && t[k].alloct == Param ==> ByteSize(t[k]) == 0
  {
    if t != [] {
      ParamBytesZero(t[1..]);
      assert forall k :: 1 <= k < |t| ==> t[1..][k - 1] == t[k];
    }
  }

  /** A function's locals take no bytes exactly when each of them is
      narrower than a byte. */
  lemma {:induction false} LocalBytesZero(t: seq<Symbol>)
    ensures LocalBytes(t) == 0 <==> forall k :: 0 <= k < |t| && IsLocal(t[k]) ==> ByteSize(t[k]) == 0
  {
    if t != [] {
      var init := t[..|t| - 1];
      LocalBytesZero(init);
      assert forall k :: 0 <= k < |init| ==> init[k] == t[k];
    }
  }

  // ----------------------------------------------------------------------
  // Which symbols get which layout

  /** Every function symbol of nonzero size gets exactly one layout and
      zero-size symbols get none; a parameter gets a parameter slot labelled
      `_p_<function>_<name>`, any other symbol (registers included) a local
      slot labelled `_l_<function>_<name>`; the size recorded is its bytes. */
  lemma FunctionLayoutCoverage(fname: Name, symtab: seq<Symbol>)
    ensures forall j: nat :: j in FunctionLayout(fname, symtab) <==> j < |symtab| && symtab[j].size != 0
    ensures forall j :: j in FunctionLayout(fname, symtab) ==>
              var l := FunctionLayout(fname, symtab)[j];
              && (l.LocalSymbolLayout? <==> symtab[j].alloct != Param)
              && (l.ParameterSymbolLayout? <==> symtab[j].alloct == Param)
              && l.bsize == ByteSize(symtab[j])
              && l.symname == (if symtab[j].alloct == Param then ParamLabel(fname, symtab[j].name)
                               else LocalLabel(fname, symtab[j].name))
  {
  }

  /** The layout of symbol `j` alone: a local slot, a parameter slot or
      nothing, according to its class and size. */
  lemma FunctionLayoutAt(fname: Name, symtab: seq<Symbol>, j: nat)
    requires j < |symtab|
    ensures j in FunctionLayout(fname, symtab) <==> symtab[j].size != 0
    ensures IsLocal(symtab[j]) ==> FunctionLayout(fname, symtab)[j] == LocalSlot(fname, symtab, j)
    ensures IsParam(symtab[j]) ==> FunctionLayout(fname, symtab)[j] == ParamSlot(fname, symtab, j)
  {
  }

  /** Every top-level symbol of nonzero size, whatever its class, gets a
      global labelled `_g_<name>` with its bytes; zero-size symbols get none. */
  lemma GlobalLayoutCoverage(symtab: seq<Symbol>)
    ensures forall j: nat :: j in GlobalLayouts(symtab, |symtab|) <==> j < |symtab| && symtab[j].size != 0
    ensures forall j :: j in GlobalLayouts(symtab, |symtab|) ==>
              GlobalLayouts(symtab, |symtab|)[j] == GlobalSymbolLayout(GlobalLabel(symtab[j].name), ByteSize(symtab[j]))
  {
  }

  // ----------------------------------------------------------------------
  // Local slots

  /** A local's slot ends where the bytes of the locals before it end, and it
      lies in the locals' area [-(local bytes), 0) below the frame pointer.
      In particular the first local is at minus its own bytes. */
  lemma LocalSlotPlacement(fname: Name, symtab: seq<Symbol>, j: nat)
    requires j < |symtab| && IsLocal(symtab[j])
    ensures j in FunctionLayout(fname, symtab)
    ensures var l := FunctionLayout(fname, symtab)[j];
            && l.fpreloff + l.bsize == -(LocalBytes(symtab[..j]) as int)
            && -(LocalBytes(symtab) as int) <= l.fpreloff
            && l.fpreloff + l.bsize <= 0
  {
    FunctionLayoutAt(fname, symtab, j);
    LocalBytesStep(symtab, j);
    LocalBytesMonotone(symtab, j + 1, |symtab|);
    assert symtab[..|symtab|] == symtab;
  }

  /** Locals do not overlap: a later-declared local lies entirely below an
      earlier one, so local offsets never increase in table order. */
  lemma LocalSlotsDisjoint(fname: Name, symtab: seq<Symbol>, j: nat, k: nat)
    requires j < k < |symtab| && IsLocal(symtab[j]) && IsLocal(symtab[k])
    ensures j in FunctionLayout(fname, symtab) && k in FunctionLayout(fname, symtab)
    ensures var r := FunctionLayout(fname, symtab);
            r[k].fpreloff + r[k].bsize <= r[j].fpreloff
  {
    FunctionLayoutAt(fname, symtab, j);
    FunctionLayoutAt(fname, symtab, k);
    LocalBytesBelow(symtab, j, k);
  }

  /** The bytes of the locals up to any symbol, plus those of a later local,
      fit within the bytes of the locals up to that later local. */
  lemma LocalBytesBelow(t: seq<Symbol>, j: nat, k: nat)
    requires j < k < |t| && IsLocal(t[k])
    ensures LocalBytes(t[..j + 1]) + ByteSize(t[k]) <= LocalBytes(t[..k + 1])
  {
    LocalBytesStep(t, k);
    LocalBytesMonotone(t, j + 1, k);
  }

  // ----------------------------------------------------------------------
  // Parameter slots

  /** A parameter's slot starts where the bytes of the parameters declared
      after it end, and it lies in the parameter area [0, parameter bytes)
      above the frame pointer. */
  lemma ParamSlotPlacement(fname: Name, symtab: seq<Symbol>, j: nat)
    requires j < |symtab| && IsParam(symtab[j])
    ensures j in FunctionLayout(fname, symtab)
    ensures var l := FunctionLayout(fname, symtab)[j];
            && l.fpreloff + l.bsize == ParamBytes(symtab[j..])
            && 0 <= l.fpreloff
            && l.fpreloff + l.bsize <= ParamBytes(symtab)
  {
    FunctionLayoutAt(fname, symtab, j);
    ParamBytesStep(symtab, j);
    ParamBytesMonotone(symtab, 0, j);
    assert symtab[0..] == symtab;
  }

  /** Parameters do not overlap, and the order is reversed: an
      earlier-declared parameter lies entirely above a later one. */
  lemma ParamSlotsDisjoint(fname: Name, symtab: seq<Symbol>, j: nat, k: nat)
    requires j < k < |symtab| && IsParam(symtab[j]) && IsParam(symtab[k])
    ensures j in FunctionLayout(fname, symtab) && k in FunctionLayout(fname, symtab)
    ensures var r := FunctionLayout(fname, symtab);
            r[k].fpreloff + r[k].bsize <= r[j].fpreloff
  {
    FunctionLayoutAt(fname, symtab, j);
    FunctionLayoutAt(fname, symtab, k);
    ParamBytesAbove(symtab, j, k);
  }

  /** A parameter's bytes and those of everything after it fit within the
      bytes after any earlier symbol. */
  lemma ParamBytesAbove(t: seq<Symbol>, j: nat, k: nat)
    requires j < k < |t| && t[k].alloct == Param
    ensures ByteSize(t[k]) + ParamBytes(t[k + 1..]) <= ParamBytes(t[j + 1..])
  {
    ParamBytesStep(t, k);
    ParamBytesMonotone(t, j + 1, k);
  }

  /** The last-declared parameter sits at offset 0, next to the frame
      pointer. */
  lemma LastParamAtFramePointer(fname: Name, symtab: seq<Symbol>, j: nat)
    requires j < |symtab| && IsParam(symtab[j])
    requires forall k :: j < k < |symtab| ==> !IsParam(symtab[k])
    ensures j in FunctionLayout(fname, symtab)
    ensures FunctionLayout(fname, symtab)[j].fpreloff == 0
  {
    FunctionLayoutAt(fname, symtab, j);
    var after := symtab[j + 1..];
    assert forall k :: 0 <= k < |after| ==> after[k] == symtab[j + 1 + k];
    ParamBytesWithoutParams(after);
  }

  /** Locals and parameters never share bytes: every local slot ends at or
      below the frame pointer and every parameter slot starts at or above
      it. */
  lemma LocalsBelowParams(fname: Name, symtab: seq<Symbol>, j: nat, k: nat)
    requires j < |symtab| && IsLocal(symtab[j])
    requires k < |symtab| && IsParam(symtab[k])
    ensures j in FunctionLayout(fname, symtab) && k in FunctionLayout(fname, symtab)
    ensures var r := FunctionLayout(fname, symtab);
            r[j].fpreloff + r[j].bsize <= 0 <= r[k].fpreloff
  {
    LocalSlotPlacement(fname, symtab, j);
    ParamSlotPlacement(fname, symtab, k);
  }

  // ----------------------------------------------------------------------
  // Frame size

  /** The frame holds every local slot, and what it reserves beyond the
      locals is enough for the parameters of every call the body makes. */
  lemma FrameHoldsLocalsAndCalls(fname: Name, symtab: seq<Symbol>, stat: Stat, callees: Callees)
    requires Resolves(Nodes(stat), callees)
    ensures FrameSize(symtab, stat, callees) >= LocalBytes(symtab)
    ensures forall j: nat :: j < |symtab| && IsLocal(symtab[j]) ==>
              j in FunctionLayout(fname, symtab) &&
              -FrameSize(symtab, stat, callees) <= FunctionLayout(fname, symtab)[j].fpreloff
    ensures forall n :: n in Nodes(stat) && IsCall(n) ==>
              ParamBytes(callees[n.target]) <= FrameSize(symtab, stat, callees) - LocalBytes(symtab)
  {
    CallSpaceIsMax(stat, callees);
    forall j: nat | j < |symtab| && IsLocal(symtab[j])
      ensures j in FunctionLayout(fname, symtab)
      ensures -FrameSize(symtab, stat, callees) <= FunctionLayout(fname, symtab)[j].fpreloff
    {
      LocalSlotPlacement(fname, symtab, j);
    }
  }

  // ----------------------------------------------------------------------
  // Labels

  /** Within one function, symbols with different names get different
      labels. */
  lemma FunctionLabelsDistinct(fname: Name, symtab: seq<Symbol>, j: nat, k: nat)
    requires j < |symtab| && symtab[j].size != 0 && k < |symtab| && symtab[k].size != 0
    requires symtab[j].name != symtab[k].name
    ensures j in FunctionLayout(fname, symtab) && k in FunctionLayout(fname, symtab)
    ensures FunctionLayout(fname, symtab)[j].symname != FunctionLayout(fname, symtab)[k].symname
  {
    FunctionLayoutCoverage(fname, symtab);
    var x, y := symtab[j].name, symtab[k].name;
    ScopedLabelsInjective(fname, x, y);
    LabelKindsDiffer(fname, fname, x, y);
    LabelKindsDiffer(fname, fname, y, x);
  }

  /** Same-named symbols of two different functions get different labels. */
  lemma LabelsAcrossFunctionsDistinct(f: Name, s: seq<Symbol>, g: Name, t: seq<Symbol>, j: nat, k: nat)
    requires f != g
    requires j < |s| && s[j].size != 0 && k < |t| && t[k].size != 0
    requires s[j].name == t[k].name
    ensures j in FunctionLayout(f, s) && k in FunctionLayout(g, t)
    ensures FunctionLayout(f, s)[j].symname != FunctionLayout(g, t)[k].symname
  {
    FunctionLayoutCoverage(f, s);
    FunctionLayoutCoverage(g, t);
    var x := s[j].name;
    SameNameInDifferentFunctions(f, g, x);
    LabelKindsDiffer(f, g, x, x);
    LabelKindsDiffer(g, f, x, x);
  }

  /** No function symbol's label is a global's label. */
  lemma GlobalAndFunctionLabelsDistinct(globals: seq<Symbol>, fname: Name, symtab: seq<Symbol>, j: nat, k: nat)
    requires j < |globals| && globals[j].size != 0 && k < |symtab| && symtab[k].size != 0
    ensures j in GlobalLayouts(globals, |globals|) && k in FunctionLayout(fname, symtab)
    ensures GlobalLayouts(globals, |globals|)[j].symname != FunctionLayout(fname, symtab)[k].symname
  {
    FunctionLayoutCoverage(fname, symtab);
    LabelKindsDiffer(fname, fname, symtab[k].name, globals[j].name);
  }

  /** Top-level symbols with different names get different labels. */
  lemma GlobalLabelsDistinct(globals: seq<Symbol>, j: nat, k: nat)
    requires j < |globals| && globals[j].size != 0 && k < |globals| && globals[k].size != 0
    requires globals[j].name != globals[k].name
    ensures j in GlobalLayouts(globals, |globals|) && k in GlobalLayouts(globals, |globals|)
    ensures GlobalLayouts(globals, |globals|)[j].symname != GlobalLayouts(globals, |globals|)[k].symname
  {
    GlobalLabelsInjective(globals[j].name, globals[k].name);
  }
}
