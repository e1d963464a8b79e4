/** Outgoing-call space: the stack room a block reserves so that the calls it
    makes can pass their parameters. It is the largest parameter footprint
    among the callees of the block's call-and-return branches, found by
    visiting every node of the block's statement tree. */
module CallSpaceAnalysis {
  import opened IR

  /** Resolution of call targets: the symbol table of the function each
      target names in the calling scope. */
  type Callees = map<Name, seq<Symbol>>

  function Max(a: nat, b: nat): (r: nat)
    ensures r >= a && r >= b && (r == a || r == b)
  {
    if a < b then b else a
  }

  /** Bytes a function's parameters take: the byte sizes of the symbols of
      class `Param` in `symtab`, summed. */
  function ParamBytes(symtab: seq<Symbol>): (r: nat)
  {
    if symtab == [] then 0
    else (if symtab[0].alloct == Param then ByteSize(symtab[0]) else 0) + ParamBytes(symtab[1..])
  }

  /** Every call-and-return branch among `ns` names a target that resolves. */
  predicate Resolves(ns: seq<Stat>, callees: Callees) {
    forall n :: n in ns && IsCall(n) ==> n.target in callees
  }

  /** What one visited node asks for: its callee's parameter bytes if it is a
      call-and-return branch, nothing otherwise. */
  function Demand(n: Stat, callees: Callees): (r: nat)
    requires IsCall(n) ==> n.target in callees
  {
    if IsCall(n) then ParamBytes(callees[n.target]) else 0
  }

  /** The running maximum of the demands of `ns`, visited in order. */
  function MaxDemand(ns: seq<Stat>, callees: Callees): (r: nat)
    requires Resolves(ns, callees)
  {
    if ns == [] then 0
    else Max(MaxDemand(ns[..|ns| - 1], callees), Demand(ns[|ns| - 1], callees))
  }

  /** The call space of a block whose statement tree is `s`. */
  function CallSpace(s: Stat, callees: Callees): (r: nat)
    requires Resolves(Nodes(s), callees)
  {
    MaxDemand(Nodes(s), callees)
  }

  /** The targets of the call-and-return branches of `s`. */
  ghost function CallTargets(s: Stat): set<Name> {
    set n | n in Nodes(s) && IsCall(n) :: n.target
  }

  /** The analysis proper: visit every node of the tree and keep the largest
      callee parameter footprint seen so far in an accumulator. */
  method ComputeSpaceForParameterPassing(block: Stat, callees: Callees) returns (maxParamsSize: nat)
    requires Resolves(Nodes(block), callees)
    ensures maxParamsSize == CallSpace(block, callees)
  {
    var nodes := Nodes(block);
    maxParamsSize := 0;
    var i := 0;
    while i < |nodes|
      invariant 0 <= i <= |nodes|
      invariant Resolves(nodes[..i], callees)
      invariant maxParamsSize == MaxDemand(nodes[..i], callees)
    {
      var node := nodes[i];
      if node.Branch? && node.returning {
        maxParamsSize := Max(maxParamsSize, ParamBytes(callees[node.target]));
      }
      assert nodes[..i + 1][..i] == nodes[..i];
      i := i + 1;
    }
    assert nodes[..i] == nodes;
  }

  /** The running maximum bounds every demand and, unless it is 0, is the
      demand of some call-and-return branch. */
  lemma {:induction false} MaxDemandIsMax(ns: seq<Stat>, callees: Callees)
    requires Resolves(ns, callees)
    ensures forall k :: 0 <= k < |ns| ==> Demand(ns[k], callees) <= MaxDemand(ns, callees)
    ensures MaxDemand(ns, callees) == 0 ||
            exists k :: 0 <= k < |ns| && IsCall(ns[k]) && MaxDemand(ns, callees) == Demand(ns[k], callees)
  {
    if ns != [] {
      var init := ns[..|ns| - 1];
      assert forall k :: 0 <= k < |init| ==> init[k] == ns[k];
      MaxDemandIsMax(init, callees);
    }
  }

  /** The call space is the maximum, not the sum: it is at least the callee
      parameter bytes of every call-and-return branch anywhere in the tree,
      and it is either 0 or exactly the bytes of one of them. */
  lemma CallSpaceIsMax(s: Stat, callees: Callees)
    requires Resolves(Nodes(s), callees)
    ensures forall n :: n in Nodes(s) && IsCall(n) ==> ParamBytes(callees[n.target]) <= CallSpace(s, callees)
    ensures CallSpace(s, callees) == 0 ||
            exists n :: n in Nodes(s) && IsCall(n) && CallSpace(s, callees) == ParamBytes(callees[n.target])
  {
    var ns := Nodes(s);
    MaxDemandIsMax(ns, callees);
    forall n | n in ns && IsCall(n)
      ensures ParamBytes(callees[n.target]) <= CallSpace(s, callees)
    {
      var k :| 0 <= k < |ns| && ns[k] == n;
      assert Demand(ns[k], callees) <= MaxDemand(ns, callees);
    }
  }

  /** No call space is reserved exactly when every call in the tree goes to a
      function without parameter bytes; in particular a tree with no
      call-and-return branch needs none. */
  lemma CallSpaceZero(s: Stat, callees: Callees)
    requires Resolves(Nodes(s), callees)
    ensures CallSpace(s, callees) == 0 <==>
            forall n :: n in Nodes(s) && IsCall(n) ==> ParamBytes(callees[n.target]) == 0
    ensures (forall n :: n in Nodes(s) ==> !IsCall(n)) ==> CallSpace(s, callees) == 0
  {
    CallSpaceIsMax(s, callees);
  }

  /** Only the call-and-return branches matter: two trees whose calls name
      the same targets need the same call space, however their other
      statements and non-returning branches differ. */
  lemma CallSpaceDependsOnlyOnCalls(s: Stat, t: Stat, callees: Callees)
    requires Resolves(Nodes(s), callees) && Resolves(Nodes(t), callees)
    requires CallTargets(s) == CallTargets(t)
    ensures CallSpace(s, callees) == CallSpace(t, callees)
  {
    CallSpaceBoundedBy(s, t, callees);
    CallSpaceBoundedBy(t, s, callees);
  }

  lemma CallSpaceBoundedBy(s: Stat, t: Stat, callees: Callees)
    requires Resolves(Nodes(s), callees) && Resolves(Nodes(t), callees)
    requires CallTargets(s) <= CallTargets(t)
    ensures CallSpace(s, callees) <= CallSpace(t, callees)
  {
    CallSpaceIsMax(s, callees);
    CallSpaceIsMax(t, callees);
    if CallSpace(s, callees) != 0 {
      var n :| n in Nodes(s) && IsCall(n) && CallSpace(s, callees) == ParamBytes(callees[n.target]);
      assert n.target in CallTargets(t);
      var m :| m in Nodes(t) && IsCall(m) && m.target == n.target;
    }
  }
}
