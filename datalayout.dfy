/** The data-layout pass. Every sized top-level symbol becomes a global; in
    each function, every sized symbol that is not a parameter gets a slot
    below the frame pointer and every sized parameter a slot above it, and
    the function's frame is sized for its locals plus its outgoing calls.

    The spec functions below say, in closed form, which layout each symbol
    receives; the methods perform the source's scans with a running offset
    and are proved to attach exactly those layouts. */
module DataLayout {
  import opened Layouts
  import opened IR
  import opened CallSpaceAnalysis

  /** A symbol the forward scan gives a stack slot below the frame pointer. */
  predicate IsLocal(s: Symbol) {
    s.size != 0 && s.alloct != Param
  }

  /** A symbol the reverse scan gives a parameter slot. */
  predicate IsParam(s: Symbol) {
    s.size != 0 && s.alloct == Param
  }

  /** Bytes taken by the locals among `symtab`. */
  function LocalBytes(symtab: seq<Symbol>): (r: nat)
  {
    if symtab == [] then 0
    else
      var last := symtab[|symtab| - 1];
      LocalBytes(symtab[..|symtab| - 1]) + (if IsLocal(last) then ByteSize(last) else 0)
  }

  /** The slot of local `j`: its offset is minus the local bytes up to and
      including it. */
  function LocalSlot(fname: Name, symtab: seq<Symbol>, j: nat): (r: SymbolLayout)
    requires j < |symtab|
  {
    LocalSymbolLayout(LocalLabel(fname, symtab[j].name), -(LocalBytes(symtab[..j + 1]) as int), ByteSize(symtab[j]))
  }

  /** The slot of parameter `j`: its offset is the parameter bytes of the
      symbols declared after it. */
  function ParamSlot(fname: Name, symtab: seq<Symbol>, j: nat): (r: SymbolLayout)
    requires j < |symtab|
  {
    ParameterSymbolLayout(ParamLabel(fname, symtab[j].name), ParamBytes(symtab[j + 1..]), ByteSize(symtab[j]))
  }

  /** Layouts of the locals among the first `n` symbols, by symbol index. */
  function LocalLayouts(fname: Name, symtab: seq<Symbol>, n: nat): (r: map<nat, SymbolLayout>)
    requires n <= |symtab|
  {
    map j: nat | j < n && IsLocal(symtab[j]) :: LocalSlot(fname, symtab, j)
  }

  /** Layouts of the parameters among the symbols from index `lo` on. */
  function ParamLayouts(fname: Name, symtab: seq<Symbol>, lo: nat): (r: map<nat, SymbolLayout>)
    requires lo <= |symtab|
  {
    map j: nat | lo <= j < |symtab| && IsParam(symtab[j]) :: ParamSlot(fname, symtab, j)
  }

  /** The layouts a function's symbols receive: the locals' slots and the
      parameters' slots, by symbol index. */
  function FunctionLayout(fname: Name, symtab: seq<Symbol>): (r: map<nat, SymbolLayout>)
  {
    LocalLayouts(fname, symtab, |symtab|) + ParamLayouts(fname, symtab, 0)
  }

  /** The room a function's frame needs: its locals plus its call space. */
  function FrameSize(symtab: seq<Symbol>, stat: Stat, callees: Callees): (r: int)
    requires Resolves(Nodes(stat), callees)
  {
    LocalBytes(symtab) + CallSpace(stat, callees)
  }

  /** Layouts of the sized symbols among the first `n` top-level symbols:
      all of them are globals, whatever their class. */
  function GlobalLayouts(symtab: seq<Symbol>, n: nat): (r: map<nat, SymbolLayout>)
    requires n <= |symtab|
  {
    map j: nat | j < n && symtab[j].size != 0 :: GlobalSymbolLayout(GlobalLabel(symtab[j].name), ByteSize(symtab[j]))
  }

  /** One more symbol adds at most its own layout. */
  lemma GlobalLayoutsStep(symtab: seq<Symbol>, i: nat)
    requires i < |symtab|
    ensures GlobalLayouts(symtab, i + 1) ==
            if symtab[i].size != 0
            then GlobalLayouts(symtab, i)[i := GlobalSymbolLayout(GlobalLabel(symtab[i].name), ByteSize(symtab[i]))]
            else GlobalLayouts(symtab, i)
  {
  }

  /** A step of the program scan: recording a sized symbol's global layout
      extends the layouts handed out so far by one symbol. */
  lemma GlobalScanStep(base: map<nat, SymbolLayout>, symtab: seq<Symbol>, i: nat)
    requires i < |symtab|
    ensures symtab[i].size != 0 ==>
              (base + GlobalLayouts(symtab, i))[i := GlobalSymbolLayout("_g_" + symtab[i].name, symtab[i].size / 8)]
              == base + GlobalLayouts(symtab, i + 1)
    ensures symtab[i].size == 0 ==> base + GlobalLayouts(symtab, i) == base + GlobalLayouts(symtab, i + 1)
  {
    GlobalLayoutsStep(symtab, i);
    UpdateUnion(base, GlobalLayouts(symtab, i), i, GlobalSymbolLayout(GlobalLabel(symtab[i].name), ByteSize(symtab[i])));
  }

  /** A step of the forward scan: the running offset moves down by the
      symbol's bytes exactly when it is a local, and recording that local's
      slot extends the layouts handed out so far by one symbol. */
  lemma LocalScanStep(base: map<nat, SymbolLayout>, fname: Name, symtab: seq<Symbol>, i: nat, offs: int)
    requires i < |symtab| && offs == -(LocalBytes(symtab[..i]) as int)
    ensures IsLocal(symtab[i]) ==>
              && offs - ByteSize(symtab[i]) == -(LocalBytes(symtab[..i + 1]) as int)
              && (base + LocalLayouts(fname, symtab, i))[i := LocalSymbolLayout(LocalLabel(fname, symtab[i].name), offs - ByteSize(symtab[i]), ByteSize(symtab[i]))]
                 == base + LocalLayouts(fname, symtab, i + 1)
    ensures !IsLocal(symtab[i]) ==>
              && offs == -(LocalBytes(symtab[..i + 1]) as int)
              && base + LocalLayouts(fname, symtab, i) == base + LocalLayouts(fname, symtab, i + 1)
  {
    assert symtab[..i + 1][..i] == symtab[..i];
    LocalLayoutsStep(fname, symtab, i);
    UpdateUnion(base, LocalLayouts(fname, symtab, i), i, LocalSlot(fname, symtab, i));
  }

  /** A step of the reverse scan: the parameter offset grows by the symbol's
      bytes exactly when it is a parameter, and recording that parameter's
      slot extends the layouts handed out so far by one symbol. */
  lemma ParamScanStep(base: map<nat, SymbolLayout>, fname: Name, symtab: seq<Symbol>, i: nat, offs: int)
    requires i < |symtab| && offs == ParamBytes(symtab[i + 1..])
    ensures IsParam(symtab[i]) ==>
              && offs + ByteSize(symtab[i]) == ParamBytes(symtab[i..])
              && (base + ParamLayouts(fname, symtab, i + 1))[i := ParameterSymbolLayout(ParamLabel(fname, symtab[i].name), offs, ByteSize(symtab[i]))]
                 == base + ParamLayouts(fname, symtab, i)
    ensures !IsParam(symtab[i]) ==>
              && offs == ParamBytes(symtab[i..])
              && base + ParamLayouts(fname, symtab, i + 1) == base + ParamLayouts(fname, symtab, i)
  {
    assert symtab[i..][1..] == symtab[i + 1..];
    ParamLayoutsStep(fname, symtab, i);
    UpdateUnion(base, ParamLayouts(fname, symtab, i + 1), i, ParamSlot(fname, symtab, i));
  }

  lemma LocalLayoutsStep(fname: Name, symtab: seq<Symbol>, i: nat)
    requires i < |symtab|
    ensures LocalLayouts(fname, symtab, i + 1) ==
            if IsLocal(symtab[i])
            then LocalLayouts(fname, symtab, i)[i := LocalSlot(fname, symtab, i)]
            else LocalLayouts(fname, symtab, i)
  {
  }

  lemma ParamLayoutsStep(fname: Name, symtab: seq<Symbol>, i: nat)
    requires i < |symtab|
    ensures ParamLayouts(fname, symtab, i) ==
            if IsParam(symtab[i])
            then ParamLayouts(fname, symtab, i + 1)[i := ParamSlot(fname, symtab, i)]
            else ParamLayouts(fname, symtab, i + 1)
  {
  }

  lemma UpdateUnion(a: map<nat, SymbolLayout>, b: map<nat, SymbolLayout>, k: nat, v: SymbolLayout)
    ensures (a + b)[k := v] == a + b[k := v]
  {
  }

  /** The labels the scans build from the scope prefix `_<fname>_`. */
  lemma ScopePrefixLabels(fname: Name, name: Name)
    ensures "_l" + ("_" + fname + "_") + name == LocalLabel(fname, name)
    ensures "_p" + ("_" + fname + "_") + name == ParamLabel(fname, name)
  {
  }

  lemma UnionAssociative(a: map<nat, SymbolLayout>, b: map<nat, SymbolLayout>, c: map<nat, SymbolLayout>)
    ensures (a + b) + c == a + (b + c)
  {
  }

  // ----------------------------------------------------------------------
  // The pass

  /** Lays out the program's top level: a global for every sized symbol,
      then the room for the calls the top level makes. */
  method PerformDataLayoutOfProgram(root: Block, callees: Callees)
    requires Resolves(Nodes(root.stat), callees)
    modifies root
    ensures root.allocInfo == old(root.allocInfo) + GlobalLayouts(root.symtab, |root.symtab|)
    ensures root.stackroom == CallSpace(root.stat, callees)
  {
    LayOutGlobals(root);
    root.stackroom := ComputeSpaceForParameterPassing(root.stat, callees);
  }

  /** The program scan: every sized top-level symbol, whatever its class,
      gets a global labelled with its name. */
  method LayOutGlobals(root: Block)
    modifies root`allocInfo
    ensures root.allocInfo == old(root.allocInfo) + GlobalLayouts(root.symtab, |root.symtab|)
  {
    var prefix := "_g_";
    var i := 0;
    while i < |root.symtab|
      invariant 0 <= i <= |root.symtab|
      invariant root.allocInfo == old(root.allocInfo) + GlobalLayouts(root.symtab, i)
    {
      var v := root.symtab[i];
      GlobalScanStep(old(root.allocInfo), root.symtab, i);
      if v.size != 0 {
        root.allocInfo := root.allocInfo[i := GlobalSymbolLayout(prefix + v.name, v.size / 8)];
      }
      i := i + 1;
    }
  }

  /** Lays out one function: the forward scan gives the locals their slots,
      the frame is sized for the locals and the function's calls, and the
      reverse scan gives the parameters theirs. */
  method PerformDataLayoutOfFunction(funcroot: FunctionDef, callees: Callees)
    requires Resolves(Nodes(funcroot.body.stat), callees)
    modifies funcroot.body
    ensures funcroot.body.allocInfo == old(funcroot.body.allocInfo) + FunctionLayout(funcroot.name, funcroot.body.symtab)
    ensures funcroot.body.stackroom == FrameSize(funcroot.body.symtab, funcroot.body.stat, callees)
  {
    var body := funcroot.body;
    var offs := LayOutLocals(funcroot);
    var space := ComputeSpaceForParameterPassing(body.stat, callees);
    body.stackroom := -offs + space;
    LayOutParameters(funcroot);
    UnionAssociative(old(body.allocInfo), LocalLayouts(funcroot.name, body.symtab, |body.symtab|),
                     ParamLayouts(funcroot.name, body.symtab, 0));
  }

  /** The forward scan: in table order, every local moves the running offset
      down by its bytes and then takes the slot at the new offset. Returns
      the final offset, minus the locals' total bytes. */
  method LayOutLocals(funcroot: FunctionDef) returns (offs: int)
    modifies funcroot.body`allocInfo
    ensures funcroot.body.allocInfo == old(funcroot.body.allocInfo) + LocalLayouts(funcroot.name, funcroot.body.symtab, |funcroot.body.symtab|)
    ensures offs == -(LocalBytes(funcroot.body.symtab) as int)
  {
    var body := funcroot.body;
    var symtab := body.symtab;
    var prefix := "_" + funcroot.name + "_";
    offs := 0;
    var i := 0;
    while i < |symtab|
      invariant 0 <= i <= |symtab|
      invariant offs == -(LocalBytes(symtab[..i]) as int)
      invariant body.allocInfo == old(body.allocInfo) + LocalLayouts(funcroot.name, symtab, i)
    {
      var v := symtab[i];
      LocalScanStep(old(body.allocInfo), funcroot.name, symtab, i, offs);
      ScopePrefixLabels(funcroot.name, v.name);
      if v.size != 0 && v.alloct != Param {
        var bsize := v.size / 8;
        offs := offs - bsize;
        body.allocInfo := body.allocInfo[i := LocalSymbolLayout("_l" + prefix + v.name, offs, bsize)];
      }
      i := i + 1;
    }
    assert symtab[..i] == symtab;
  }

  /** The reverse scan: from the last-declared symbol to the first, every
      parameter takes the slot at the running offset, which then moves up
      by its bytes; the last-declared parameter is at offset 0. */
  method LayOutParameters(funcroot: FunctionDef)
    modifies funcroot.body`allocInfo
    ensures funcroot.body.allocInfo == old(funcroot.body.allocInfo) + ParamLayouts(funcroot.name, funcroot.body.symtab, 0)
  {
    var body := funcroot.body;
    var symtab := body.symtab;
    var prefix := "_" + funcroot.name + "_";
    var offs := 0;
    var i := |symtab|;
    while i > 0
      invariant 0 <= i <= |symtab|
      invariant offs == ParamBytes(symtab[i..])
      invariant body.allocInfo == old(body.allocInfo) + ParamLayouts(funcroot.name, symtab, i)
    {
      i := i - 1;
      var v := symtab[i];
      ParamScanStep(old(body.allocInfo), funcroot.name, symtab, i, offs);
      ScopePrefixLabels(funcroot.name, v.name);
      if v.size != 0 && v.alloct == Param {
        var bsize := v.size / 8;
        body.allocInfo := body.allocInfo[i := ParameterSymbolLayout("_p" + prefix + v.name, offs, bsize)];
        offs := offs + bsize;
      }
    }
  }

  /** Function `fname`, with symbol table `symtab` and statement tree `stat`,
      carries `alloc`, the layout of its symbols on top of `before`, and
      `stackroom`, its frame size. */
  ghost predicate LaidOut(fname: Name, symtab: seq<Symbol>, stat: Stat, callees: Callees,
                          before: map<nat, SymbolLayout>, alloc: map<nat, SymbolLayout>, stackroom: int)
    requires Resolves(Nodes(stat), callees)
  {
    && alloc == before + FunctionLayout(fname, symtab)
    && stackroom == FrameSize(symtab, stat, callees)
  }

  /** The whole pass: the program first, then every function definition in
      the order the program lists them. Each function's layout touches only
      that function's body. */
  method PerformDataLayout(root: Block, callees: Callees)
    requires Resolves(Nodes(root.stat), callees)
    requires forall i :: 0 <= i < |root.defs| ==> Resolves(Nodes(root.defs[i].body.stat), callees)
    requires forall i :: 0 <= i < |root.defs| ==> root.defs[i].body != root
    requires forall i, j :: 0 <= i < j < |root.defs| ==> root.defs[i].body != root.defs[j].body
    modifies root, set i | 0 <= i < |root.defs| :: root.defs[i].body
    ensures root.allocInfo == old(root.allocInfo) + GlobalLayouts(root.symtab, |root.symtab|)
    ensures root.stackroom == CallSpace(root.stat, callees)
    ensures forall i :: 0 <= i < |root.defs| ==>
              var f := root.defs[i];
              LaidOut(f.name, f.body.symtab, f.body.stat, callees, old(f.body.allocInfo), f.body.allocInfo, f.body.stackroom)
  {
    PerformDataLayoutOfProgram(root, callees);
    var defs := root.defs;
    var k := 0;
    while k < |defs|
      invariant 0 <= k <= |defs|
      invariant root.allocInfo == old(root.allocInfo) + GlobalLayouts(root.symtab, |root.symtab|)
      invariant root.stackroom == CallSpace(root.stat, callees)
      invariant forall i :: 0 <= i < k ==>
                  var f := defs[i];
                  LaidOut(f.name, f.body.symtab, f.body.stat, callees, old(f.body.allocInfo), f.body.allocInfo, f.body.stackroom)
      invariant forall i :: k <= i < |defs| ==> defs[i].body.allocInfo == old(defs[i].body.allocInfo)
    {
      PerformDataLayoutOfFunction(defs[k], callees);
      forall i | 0 <= i < k + 1
        ensures var f := defs[i];
                LaidOut(f.name, f.body.symtab, f.body.stat, callees, old(f.body.allocInfo), f.body.allocInfo, f.body.stackroom)
      {
        if i < k {
          assert defs[i].body != defs[k].body;
        }
      }
      k := k + 1;
    }
  }
}
