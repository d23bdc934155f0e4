/**
 * The program model the disassembler builds: segments, functions, instructions with
 * their operands, the symbol table and the reference table, kept together in one
 * Listing value keyed by address.
 */
module ProgramListing {
  import opened Wrappers

  /** An address of the processor's address space (the width-typed DataValue is abstracted to a natural). */
  type Addr = nat

  /** How one address reaches another. */
  datatype RefKind = Flow | Call | Jump | EntryPoint

  predicate IsCall(k: RefKind) { k == Call }

  predicate IsJump(k: RefKind) { k == Jump }

  /** A pending instruction start and the way it was reached. */
  datatype WorkItem = WorkItem(address: Addr, kind: RefKind)

  datatype OperandKind = Register | Immediate | Memory | OtherOperand

  /** An operand: its raw value and, for a register, the display name resolved after decoding. */
  datatype Operand = Operand(kind: OperandKind, value: nat, registerName: string)

  datatype Instruction = Instruction(
    address: Addr,
    opcodeType: nat,
    opcode: nat,
    size: nat,
    mnemonic: string,
    format: string,
    operands: seq<Operand>)

  /** A fresh instruction at `a`, before the processor plugin has looked at it. */
  function NewInstruction(a: Addr, opcodeType: nat): Instruction {
    Instruction(a, opcodeType, 0, 0, "", "", [])
  }

  datatype FunctionKind = NormalFunction | EntryPointFunction

  datatype Function = Function(name: Option<string>, kind: FunctionKind, address: Addr)

  datatype SymbolKind = LibrarySymbol | JumpSymbol

  datatype Symbol = Symbol(kind: SymbolKind, name: string)

  datatype Segment = Segment(name: string, segmentType: int, start: Addr, size: nat, baseOffset: nat)

  datatype Reference = Reference(source: Addr, target: Addr, kind: RefKind)

  datatype Listing = Listing(
    segments: seq<Segment>,
    functions: map<Addr, Function>,
    instructions: map<Addr, Instruction>,
    symbols: map<Addr, Symbol>,
    references: set<Reference>)

  const EmptyListing: Listing := Listing([], map[], map[], map[], {})

  /** Records instruction `i` at address `a`, replacing whatever instruction was there. */
  function PutInstruction(l: Listing, a: Addr, i: Instruction): (r: Listing)
    ensures r.instructions.Keys == l.instructions.Keys + {a} && r.instructions[a] == i
    ensures forall b :: b in l.instructions && b != a ==> r.instructions[b] == l.instructions[b]
    ensures r.segments == l.segments && r.functions == l.functions
    ensures r.symbols == l.symbols && r.references == l.references
  {
    l.(instructions := l.instructions[a := i])
  }

  /** Makes sure a function starts at `a`; an existing function there is kept as it is. */
  function EnsureFunction(l: Listing, a: Addr, kind: FunctionKind, name: Option<string>): (r: Listing)
    ensures r.functions.Keys == l.functions.Keys + {a}
    ensures forall b :: b in l.functions ==> r.functions[b] == l.functions[b]
    ensures a !in l.functions ==> r.functions[a] == Function(name, kind, a)
    ensures r.segments == l.segments && r.instructions == l.instructions
    ensures r.symbols == l.symbols && r.references == l.references
  {
    if a in l.functions then l else l.(functions := l.functions[a := Function(name, kind, a)])
  }

  /** True when a library symbol, which generated names may not replace, sits at `a`. */
  predicate Locked(l: Listing, a: Addr) {
    a in l.symbols && l.symbols[a].kind == LibrarySymbol
  }

  /**
   * Names address `a`. A library symbol locks its address: only another library
   * symbol may replace it; any other kind of symbol leaves the table as it is.
   */
  function PutSymbol(l: Listing, a: Addr, kind: SymbolKind, name: string): (r: Listing)
    ensures kind == LibrarySymbol || !Locked(l, a) ==> r.symbols == l.symbols[a := Symbol(kind, name)]
    ensures kind != LibrarySymbol && Locked(l, a) ==> r.symbols == l.symbols
    ensures r.segments == l.segments && r.functions == l.functions
    ensures r.instructions == l.instructions && r.references == l.references
  {
    if kind != LibrarySymbol && Locked(l, a) then l
    else l.(symbols := l.symbols[a := Symbol(kind, name)])
  }

  function AppendSegment(l: Listing, s: Segment): (r: Listing)
    ensures r.segments == l.segments + [s]
    ensures r.functions == l.functions && r.instructions == l.instructions
    ensures r.symbols == l.symbols && r.references == l.references
  {
    l.(segments := l.segments + [s])
  }

  /** True when some recorded reference points at `a`. */
  predicate IsReferenced(l: Listing, a: Addr) {
    exists r :: r in l.references && r.target == a
  }

  function AddReferences(l: Listing, refs: seq<Reference>): (r: Listing)
    ensures r.references == l.references + set i | 0 <= i < |refs| :: refs[i]
    ensures r.segments == l.segments && r.functions == l.functions
    ensures r.instructions == l.instructions && r.symbols == l.symbols
  {
    l.(references := l.references + set i | 0 <= i < |refs| :: refs[i])
  }
}
