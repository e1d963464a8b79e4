/** The parts of the compiler's intermediate representation that the
    data-layout pass reads and annotates: symbol-table entries, the statement
    tree it navigates, and the blocks whose symbols and frame it lays out. The
    IR itself is built elsewhere; only its shape is given here. */
module IR {
  import opened Layouts

  type Name = string

  /** Allocation class of a symbol (`alloct`). */
  datatype AllocClass = Auto | Global | Param | Reg

  /** A symbol-table entry: its name, the size of its type in bits and its
      allocation class. Type sizes are never negative. */
  datatype Symbol = Symbol(name: Name, size: nat, alloct: AllocClass)

  /** The number of bytes a symbol occupies: its bit size divided by 8,
      rounded down, so a type of 1 to 7 bits takes 0 bytes. */
  function ByteSize(s: Symbol): (r: nat)
    ensures 8 * r <= s.size < 8 * r + 8
  {
    s.size / 8
  }

  /** A node of the statement tree as the IR's navigation visits it: a branch
      knows its target and whether it is a call that returns; every other
      statement is a node with children (possibly none). */
  datatype Stat =
    | Branch(target: Name, returning: bool)
    | Node(kids: seq<Stat>)

  /** A call-and-return branch, the only statement the call-space analysis
      looks at. */
  predicate IsCall(n: Stat) {
    n.Branch? && n.returning
  }

  /** The nodes navigation visits: the node itself and every node of its
      children's subtrees. The order chosen here (the node first, then the
      children left to right) does not matter to the pass, which only takes
      a maximum over them. */
  function Nodes(s: Stat): (r: seq<Stat>)
    ensures |r| >= 1 && r[0] == s
    decreases s, 1
  {
    match s
    case Branch(_, _) => [s]
    case Node(kids) => [s] + NodesOf(kids)
  }

  /** The nodes of a sequence of sibling subtrees, left to right. */
  function NodesOf(kids: seq<Stat>): (r: seq<Stat>)
    ensures forall i :: 0 <= i < |kids| ==> kids[i] in r
    decreases kids, 0
  {
    if kids == [] then []
    else Nodes(kids[0]) + NodesOf(kids[1..])
  }

  /** A block: a function body or the program's top level. Its symbol table
      and statement tree are read-only to the pass; the pass attaches a layout
      to symbols (recorded here by their index in `symtab`) and sets the room
      the frame needs. */
  class Block {
    const symtab: seq<Symbol>
    const stat: Stat
    const defs: seq<FunctionDef>
    var allocInfo: map<nat, SymbolLayout>
    var stackroom: int

    constructor (symtab: seq<Symbol>, stat: Stat, defs: seq<FunctionDef>)
      ensures this.symtab == symtab && this.stat == stat && this.defs == defs
      ensures allocInfo == map[] && stackroom == 0
    {
      this.symtab, this.stat, this.defs := symtab, stat, defs;
      allocInfo, stackroom := map[], 0;
    }
  }

  /** A function definition: the function's name and its body. */
  class FunctionDef {
    const name: Name
    const body: Block

    constructor (name: Name, body: Block)
      ensures this.name == name && this.body == body
    {
      this.name, this.body := name, body;
    }
  }
}
