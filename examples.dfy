/** Worked layouts of small symbol tables and statement trees, each stated as
    a lemma about the specification functions. */
module LayoutExamples {
  import opened Layouts
  import opened IR
  import opened CallSpaceAnalysis
  import opened DataLayout
  import opened LayoutProperties

  /** How labels are spelled. */
  lemma LabelSpelling()
    ensures GlobalLabel("counter") == "_g_counter"
    ensures LocalLabel("main", "i") == "_l_main_i"
    ensures ParamLabel("f", "p1") == "_p_f_p1"
  {
  }

  /** Local `c` of function `a_b` and local `b_c` of function `a` share the
      label `_l_a_b_c`. */
  lemma CollidingLabels()
    ensures LocalLabel("a_b", "c") == LocalLabel("a", "b_c") == "_l_a_b_c"
    ensures ParamLabel("a_b", "c") == ParamLabel("a", "b_c") == "_p_a_b_c"
  {
    UnderscoreLabelsCollide("a", "b", "c");
  }

  /** Parameters p1, p2, p3 of 32, 64 and 32 bits. */
  function ThreeParams(): seq<Symbol> {
    [Symbol("p1", 32, Param), Symbol("p2", 64, Param), Symbol("p3", 32, Param)]
  }

  lemma ThreeParamsBytes()
    ensures ParamBytes(ThreeParams()[3..]) == 0
    ensures ParamBytes(ThreeParams()[2..]) == 4
    ensures ParamBytes(ThreeParams()[1..]) == 12
  {
    var t := ThreeParams();
    assert t[3..] == [];
    assert t[2..][1..] == t[3..];
    assert t[1..][1..] == t[2..];
  }

  /** The last-declared parameter sits at offset 0 and each earlier one above
      all those declared after it: p1 at 12, p2 at 4, p3 at 0. */
  lemma ParameterOrder()
    ensures var r := FunctionLayout("f", ThreeParams());
            && 0 in r && r[0] == ParameterSymbolLayout(ParamLabel("f", "p1"), 12, 4)
            && 1 in r && r[1] == ParameterSymbolLayout(ParamLabel("f", "p2"), 4, 8)
            && 2 in r && r[2] == ParameterSymbolLayout(ParamLabel("f", "p3"), 0, 4)
  {
    ThreeParamsBytes();
    FunctionLayoutAt("f", ThreeParams(), 0);
    FunctionLayoutAt("f", ThreeParams(), 1);
    FunctionLayoutAt("f", ThreeParams(), 2);
  }

  /** Locals a and b of 32 and 64 bits. */
  function TwoLocals(): seq<Symbol> {
    [Symbol("a", 32, Auto), Symbol("b", 64, Auto)]
  }

  lemma TwoLocalsBytes()
    ensures LocalBytes(TwoLocals()[..1]) == 4
    ensures LocalBytes(TwoLocals()[..2]) == 12
    ensures LocalBytes(TwoLocals()) == 12
  {
    var t := TwoLocals();
    assert t[..1][..0] == [];
    assert t[..2] == t && t[..2][..1] == t[..1];
  }

  /** Each local is placed below the ones before it: a at -4, b at -12; the
      locals take 12 bytes. */
  lemma LocalOrder()
    ensures var r := FunctionLayout("f", TwoLocals());
            && 0 in r && r[0] == LocalSymbolLayout(LocalLabel("f", "a"), -4, 4)
            && 1 in r && r[1] == LocalSymbolLayout(LocalLabel("f", "b"), -12, 8)
  {
    TwoLocalsBytes();
    FunctionLayoutAt("f", TwoLocals(), 0);
    FunctionLayoutAt("f", TwoLocals(), 1);
  }

  /** A register variable, a parameter and a zero-size symbol. */
  function MixedClasses(): seq<Symbol> {
    [Symbol("r", 32, Reg), Symbol("x", 32, Param), Symbol("e", 0, Auto)]
  }

  lemma MixedClassesBytes()
    ensures LocalBytes(MixedClasses()[..1]) == 4 && ParamBytes(MixedClasses()[2..]) == 0
  {
    var t := MixedClasses();
    assert t[..1][..0] == [];
    assert t[2..][1..] == [];
  }

  /** The register variable gets a local slot, the parameter a parameter
      slot and the zero-size symbol nothing. */
  lemma MixedClassesLayout()
    ensures var r := FunctionLayout("g", MixedClasses());
            && 0 in r && r[0] == LocalSymbolLayout(LocalLabel("g", "r"), -4, 4)
            && 1 in r && r[1] == ParameterSymbolLayout(ParamLabel("g", "x"), 0, 4)
            && 2 !in r
  {
    MixedClassesBytes();
    FunctionLayoutAt("g", MixedClasses(), 0);
    FunctionLayoutAt("g", MixedClasses(), 1);
    FunctionLayoutAt("g", MixedClasses(), 2);
  }

  /** A one-bit local followed by a 32-bit one. */
  function SubByte(): seq<Symbol> {
    [Symbol("flag", 1, Auto), Symbol("n", 32, Auto)]
  }

  lemma SubByteBytes()
    ensures LocalBytes(SubByte()[..1]) == 0 && LocalBytes(SubByte()[..2]) == 4 && LocalBytes(SubByte()) == 4
  {
    var t := SubByte();
    assert t[..1][..0] == [];
    assert t[..2] == t && t[..2][..1] == t[..1];
  }

  /** A type narrower than a byte takes no bytes: such a local gets an empty
      slot at the frame pointer itself and adds nothing to the frame. */
  lemma SubByteLocal()
    ensures var r := FunctionLayout("h", SubByte());
            && 0 in r && r[0] == LocalSymbolLayout(LocalLabel("h", "flag"), 0, 0)
            && 1 in r && r[1] == LocalSymbolLayout(LocalLabel("h", "n"), -4, 4)
            && LocalBytes(SubByte()) == 4
  {
    SubByteBytes();
    FunctionLayoutAt("h", SubByte(), 0);
    FunctionLayoutAt("h", SubByte(), 1);
  }

  /** Callee g(int, int) and callee h(long) with one local. */
  function TwoCallees(): Callees {
    map["g" := [Symbol("a", 32, Param), Symbol("b", 32, Param)],
        "h" := [Symbol("c", 64, Param), Symbol("t", 32, Auto)]]
  }

  lemma TwoCalleesBytes()
    ensures ParamBytes(TwoCallees()["g"]) == 8 && ParamBytes(TwoCallees()["h"]) == 8
  {
    var g, h := TwoCallees()["g"], TwoCallees()["h"];
    assert g[1..][1..] == [] && h[1..][1..] == [];
  }

  /** A body calling g in one branch and h in another, followed by a plain
      jump. */
  function Branches(): Stat {
    Node([Node([Branch("g", true)]), Node([Branch("h", true)]), Branch("end", false)])
  }

  lemma BranchesNodes()
    ensures Nodes(Branches()) == [Branches(), Node([Branch("g", true)]), Branch("g", true),
                                  Node([Branch("h", true)]), Branch("h", true), Branch("end", false)]
  {
  }

  /** The body reserves the larger of the two callees' parameter bytes, not
      their sum, and the jump asks for nothing. */
  lemma CallSpaceOfBranches()
    ensures Resolves(Nodes(Branches()), TwoCallees()) && CallSpace(Branches(), TwoCallees()) == 8
  {
    TwoCalleesBytes();
    BranchesNodes();
    var ns := Nodes(Branches());
    assert forall n :: n in ns && IsCall(n) ==> n == Branch("g", true) || n == Branch("h", true);
    CallSpaceIsMax(Branches(), TwoCallees());
    assert ns[2] == Branch("g", true);
  }

  /** A top-level variable counter of 32 bits becomes a 4-byte global. */
  lemma GlobalCounter()
    ensures var r := GlobalLayouts([Symbol("counter", 32, Global)], 1);
            0 in r && r[0] == GlobalSymbolLayout(GlobalLabel("counter"), 4)
  {
  }

  /** The frame of a function with locals a and b (12 bytes) whose body calls
      g is 12 + 8 bytes. */
  lemma FrameOfCaller()
    ensures Resolves(Nodes(Node([Branch("g", true)])), TwoCallees())
    ensures FrameSize(TwoLocals(), Node([Branch("g", true)]), TwoCallees()) == 20
  {
    TwoCalleesBytes();
    TwoLocalsBytes();
    var body := Node([Branch("g", true)]);
    assert Nodes(body) == [body, Branch("g", true)];
    CallSpaceIsMax(body, TwoCallees());
    assert Nodes(body)[1] == Branch("g", true);
  }
}
