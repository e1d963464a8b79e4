# Data layout of a PL/0 compiler, in Dafny

This project models the compiler's data-layout pass (`datalayout.py`). The pass
decides where every symbol lives at run time:

- Every top-level symbol of nonzero size becomes a **global**, labelled
  `_g_<name>`.
- Inside each function, every sized symbol that is not a parameter
  (automatic or register class) gets a **local slot**. Local slots sit below
  the frame pointer and are labelled `_l_<function>_<name>`.
- Every sized parameter gets a **parameter slot**. Parameter slots sit above
  the frame pointer and are labelled `_p_<function>_<name>`.
- Each block's `stackroom` is set. For a function it is the local bytes plus
  the **call space**: the largest parameter footprint among the functions the
  body calls. For the program it is the call space alone.

Sizes are in bits; a symbol takes `size // 8` bytes.

Files:

- `layouts.dfy` (`Layouts`): the three layout records as one datatype, and
  the label functions with their injectivity and separation lemmas.
- `ir.dfy` (`IR`): what the pass reads from the IR:
  - symbols, with their allocation class;
  - the statement tree, with `Nodes` giving the nodes navigation visits. The
    order is not fixed by the model and does not matter, since the pass only
    takes a maximum over them;
  - the classes `Block` and `FunctionDef`. The layout attached to each
    symbol is `Block.allocInfo`, keyed by symbol index.
- `callspace.dfy` (`CallSpaceAnalysis`): the call-space analysis. It is a
  method with an accumulator loop, proved equal to a running-maximum
  function, and lemmas about that function.
- `datalayout.dfy` (`DataLayout`): the specification functions and the
  imperative pass.
  - `LocalLayouts`, `ParamLayouts`, `FunctionLayout`, `GlobalLayouts` and
    `FrameSize` state in closed form which layout each symbol receives.
  - The methods do the source's scans with a running offset. Each is proved
    to attach exactly those layouts and to set `stackroom` to the frame size.
- `properties.dfy` (`LayoutProperties`): what the layouts guarantee:
  - coverage and class rules;
  - placement and disjointness of slots;
  - the frame bound;
  - when labels are distinct: differently named symbols of one function,
    same-named symbols of different functions, and labels of different kinds.
    Labels are not unique in general. A name containing `_` lets symbols of two
    functions share a label: local `c` of `a_b` and local `b_c` of `a` are both
    `_l_a_b_c` (`Layouts.UnderscoreLabelsCollide`).
- `examples.dfy` (`LayoutExamples`): worked cases.

Parameter order follows the code. The reverse scan at `datalayout.py:58-64`
gives the **last-declared** parameter offset 0. Each earlier parameter sits
above all parameters declared after it. For parameters of 4, 8 and 4 bytes
the offsets are 12, 4 and 0 (`LayoutExamples.ParameterOrder`). A description
of the pass that puts the first-declared parameter at offset 0 does not
match the code; the model follows the code.

The module comment at `datalayout.py:3-5` says register symbols are not
allocated. The code skips only zero-size symbols and parameters
(`datalayout.py:50`), so register symbols do get local slots. The model
follows the code (`LayoutProperties.FunctionLayoutCoverage`,
`LayoutExamples.MixedClassesLayout`).

## Model

| member | source | states |
|---|---|---|
| Layouts.GlobalLabel | datalayout.py:68-72 | a global's label is `_g_` followed by the symbol's name |
| Layouts.LocalLabel | datalayout.py:48-54 | a local's label is `_l_`, the function name, `_`, then the symbol name |
| Layouts.ParamLabel | datalayout.py:48-63 | a parameter's label is `_p_`, the function name, `_`, then the symbol name |
| Layouts.LabelKindsDiffer | datalayout.py:54-72 | local, parameter and global labels never coincide, whatever the names |
| Layouts.ScopedLabelsInjective | datalayout.py:48-63 | within one function, two local labels (or two parameter labels) are equal iff the symbol names are |
| Layouts.SameNameInDifferentFunctions | datalayout.py:48-63 | the same symbol name in two different functions gets two different labels |
| Layouts.GlobalLabelsInjective | datalayout.py:68-72 | global labels are equal iff the names are |
| Layouts.UnderscoreLabelsCollide | datalayout.py:48-63 | across functions labels can coincide: symbol `y` of function `f_x` and symbol `x_y` of function `f` get the same local label, and the same parameter label |
| IR.ByteSize | datalayout.py:52 | a symbol's bytes are its bit size divided by 8, rounded down |
| CallSpaceAnalysis.ParamBytes | datalayout.py:83 | defines a function's parameter bytes: the sum of `size // 8` over its symbols of class parameter; the suffix sum is also a parameter's offset (lines 62-64); its properties are in `LayoutProperties.ParamBytesMonotone`, `ParamBytesZero` and `ParamSlotPlacement` |
| CallSpaceAnalysis.CallSpace | datalayout.py:78-86 | defines the call space as the maximum, over the visited nodes, of the callee parameter bytes of each call-and-return branch (0 when there are none); its properties are in `CallSpaceIsMax`, `CallSpaceZero` and `CallSpaceDependsOnlyOnCalls` |
| CallSpaceAnalysis.ComputeSpaceForParameterPassing | datalayout.py:77-86 | the accumulator loop over the visited nodes returns the call space of the block |
| CallSpaceAnalysis.MaxDemandIsMax | datalayout.py:81-83 | the running maximum bounds each node's demand, and is 0 or the demand of some call-and-return branch |
| CallSpaceAnalysis.CallSpaceIsMax | datalayout.py:77-86 | the call space is at least the callee parameter bytes of every call-and-return branch in the tree, and is 0 or exactly one of them (a max, not a sum) |
| CallSpaceAnalysis.CallSpaceZero | datalayout.py:78-86 | the call space is 0 iff every call goes to a function with no parameter bytes; a body without calls needs none |
| CallSpaceAnalysis.CallSpaceBoundedBy | datalayout.py:81-83 | a tree whose call targets are among another's needs no more call space |
| CallSpaceAnalysis.CallSpaceDependsOnlyOnCalls | datalayout.py:81 | non-returning branches and other statements do not affect the call space; only the call targets do |
| DataLayout.LocalBytes | datalayout.py:50-53 | defines the bytes of a function's locals: the sum of `size // 8` over its sized non-parameter symbols, which is minus the running `offs` after them; its properties are in `LayoutProperties.LocalBytesMonotone`, `LocalBytesZero` and `LocalSlotPlacement` |
| DataLayout.PerformDataLayoutOfProgram | datalayout.py:67-73 | the program's symbols receive exactly the global layouts and its stackroom is the call space of the program body |
| DataLayout.LayOutGlobals | datalayout.py:68-72 | the scan attaches `_g_<name>` with the symbol's bytes to every sized top-level symbol and to nothing else |
| DataLayout.PerformDataLayoutOfFunction | datalayout.py:46-64 | a function's symbols receive exactly the local and parameter slots, and its stackroom is the local bytes plus the call space |
| DataLayout.LayOutLocals | datalayout.py:47-54 | the forward scan gives each local the slot at minus the local bytes up to and including it, and ends at minus the total local bytes |
| DataLayout.LayOutParameters | datalayout.py:58-64 | the reverse scan gives each parameter the slot at the parameter bytes of the symbols declared after it |
| DataLayout.PerformDataLayout | datalayout.py:40-43 | after the driver, the program is laid out and every function definition is laid out as above |
| LayoutProperties.LocalBytesMonotone | datalayout.py:53 | the running local byte count never decreases along the table |
| LayoutProperties.ParamBytesMonotone | datalayout.py:64 | the running parameter byte count never decreases along the reverse scan |
| LayoutProperties.ParamBytesWithoutParams | datalayout.py:60-61 | a run of symbols without sized parameters adds no parameter bytes |
| LayoutProperties.ParamBytesZero | datalayout.py:83 | a function's parameter bytes are 0 iff every one of its parameters takes 0 bytes |
| LayoutProperties.LocalBytesZero | datalayout.py:50-53 | a function's local bytes are 0 iff every one of its locals takes 0 bytes |
| LayoutProperties.FunctionLayoutCoverage | datalayout.py:49-63 | a function symbol gets a layout iff its size is nonzero; the layout is a parameter slot iff its class is parameter and a local slot otherwise (register class included); it records the symbol's bytes and its scoped label |
| LayoutProperties.FunctionLayoutAt | datalayout.py:49-63 | symbol `j` gets the local slot, the parameter slot or nothing, according to its class and size |
| LayoutProperties.GlobalLayoutCoverage | datalayout.py:69-72 | a top-level symbol gets a global iff its size is nonzero, whatever its class, with label `_g_<name>` and its bytes |
| LayoutProperties.LocalSlotPlacement | datalayout.py:47-54 | a local's slot ends at minus the bytes of the earlier locals and lies within [-(local bytes), 0) |
| LayoutProperties.LocalSlotsDisjoint | datalayout.py:53-54 | a later-declared local lies entirely below an earlier one, so local slots do not overlap |
| LayoutProperties.ParamSlotPlacement | datalayout.py:58-64 | a parameter's slot ends at the parameter bytes from it to the end of the table and lies within [0, parameter bytes) |
| LayoutProperties.ParamSlotsDisjoint | datalayout.py:59-64 | an earlier-declared parameter lies entirely above a later one, so parameter slots do not overlap |
| LayoutProperties.LastParamAtFramePointer | datalayout.py:58-63 | the last-declared sized parameter is at offset 0 |
| LayoutProperties.LocalsBelowParams | datalayout.py:47-64 | every local slot ends at or below the frame pointer and every parameter slot starts at or above it |
| LayoutProperties.FrameHoldsLocalsAndCalls | datalayout.py:56 | the frame covers every local slot, and the room beyond the locals fits the parameters of every call the body makes |
| LayoutProperties.FunctionLabelsDistinct | datalayout.py:48-63 | in one function, symbols with different names get different labels |
| LayoutProperties.LabelsAcrossFunctionsDistinct | datalayout.py:48-63 | same-named symbols of different functions get different labels |
| LayoutProperties.GlobalAndFunctionLabelsDistinct | datalayout.py:54-72 | no function symbol's label equals a global's |
| LayoutProperties.GlobalLabelsDistinct | datalayout.py:68-72 | top-level symbols with different names get different global labels |
| LayoutExamples.LabelSpelling | datalayout.py:48-72 | `_g_counter`, `_l_main_i` and `_p_f_p1` are how labels are spelled |
| LayoutExamples.CollidingLabels | datalayout.py:48-63 | local `c` of `a_b` and local `b_c` of `a` are both `_l_a_b_c`, and likewise for parameters |
| LayoutExamples.ParameterOrder | datalayout.py:58-64 | parameters of 32, 64 and 32 bits are at offsets 12, 4 and 0 |
| LayoutExamples.LocalOrder | datalayout.py:47-54 | locals of 32 and 64 bits are at offsets -4 and -12 |
| LayoutExamples.MixedClassesLayout | datalayout.py:49-63 | a register symbol gets a local slot, a parameter a parameter slot, a zero-size symbol nothing |
| LayoutExamples.SubByteLocal | datalayout.py:52-54 | a one-bit local gets an empty slot at offset 0 and adds no bytes |
| LayoutExamples.CallSpaceOfBranches | datalayout.py:77-86 | calls of 8 parameter bytes in two branches need 8 bytes, not 16, and a plain jump needs none |
| LayoutExamples.GlobalCounter | datalayout.py:69-72 | a 32-bit top-level `counter` becomes a 4-byte global |
| LayoutExamples.FrameOfCaller | datalayout.py:56 | 12 bytes of locals and a call needing 8 bytes give a frame of 20 |

## Left out

- Rendering of layouts (the `__repr__` methods, `datalayout.py:21-37`) is not modelled; the model keeps only the record fields.
- The IR module `ir` is not part of this model. Its statement navigation is represented by `IR.Nodes`, the set of nodes visited, listed in an order the pass does not depend on. `set_alloc_info` is the `allocInfo` map keyed by symbol index. A symbol's type is reduced to its bit size.
- Whether navigation enters nested function definitions is decided by the statement tree given to the model; the model does not fix it.
- Function lookup by name (`find_function_in_scope`) is a map from call target to the callee's symbol table, the same for every call in a block. Lexical scoping of that lookup is not modelled.
- A call target that does not resolve makes the source fail. In the model every call-and-return branch must resolve; this is a precondition (`Resolves`).
- DataLayout.PerformDataLayout: requires that the function bodies be distinct objects and differ from the program's block. The IR builds them that way; aliased bodies are not modelled.
- Type sizes are natural numbers. Negative sizes are not modelled.
- Python's unbounded integers need no wrap-around, and none is modelled.
