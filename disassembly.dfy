/**
 * The disassembly state machine as pure functions: one step of the decode loop,
 * the loop itself, and the map script's callbacks. The ProcessorLoader class
 * is proved to follow these definitions.
 */
module Disassembly {
  import opened Wrappers
  import opened Numerals
  import opened ProgramListing
  import opened Plugins

  /** The sentinel mnemonic of an instruction whose opcode the processor does not know. */
  const InvalidMnemonic: string := "???"

  /** The two warnings the decode loop writes to the log. */
  datatype Warning =
    | UnknownInstruction(address: Addr, skipped: nat)
    | UnknownOpcode(opcode: nat, address: Addr)

  /** What the decode loop changes: the listing, the emulator's worklist and the log. */
  datatype Session = Session(listing: Listing, worklist: seq<WorkItem>, log: seq<Warning>)

  /** The number of bytes skipped after an analyze result `size` <= 0: max(1, |size|). */
  function SkipSize(size: int): (skip: nat)
    ensures skip >= 1 && skip >= size && skip >= -size
    ensures skip == 1 || skip == size || skip == -size
  {
    var magnitude := if size < 0 then -size else size;
    if magnitude > 1 then magnitude else 1
  }

  function ResolveOperand(o: Operand, registerName: nat -> string): Operand {
    if o.kind == Register then o.(registerName := registerName(o.value)) else o
  }

  /** Gives every register operand its display name; other operands are kept. */
  function ResolveRegisters(ops: seq<Operand>, registerName: nat -> string): (r: seq<Operand>)
    ensures |r| == |ops|
    ensures forall i :: 0 <= i < |ops| && ops[i].kind == Register ==>
              r[i] == ops[i].(registerName := registerName(ops[i].value))
    ensures forall i :: 0 <= i < |ops| && ops[i].kind != Register ==> r[i] == ops[i]
  {
    if ops == [] then [] else [ResolveOperand(ops[0], registerName)] + ResolveRegisters(ops[1..], registerName)
  }

  /** The label generated for a jump target. */
  function JumpLabel(a: Addr): string {
    "j_" + Hex(a)
  }

  /**
   * The instruction object keeps the start address and opcode type it was created with;
   * the plugins fill in everything else.
   */
  function Pinned(i: Instruction, a: Addr, opcodeType: nat): (r: Instruction)
    ensures r.address == a && r.opcodeType == opcodeType
    ensures r.opcode == i.opcode && r.size == i.size && r.mnemonic == i.mnemonic
    ensures r.format == i.format && r.operands == i.operands
  {
    i.(address := a, opcodeType := opcodeType)
  }

  /** What the processor's analyze makes of a fresh instruction at `a`: its size and the filled-in instruction. */
  function Analysis(p: ProcessorDefinition, base: Addr, buffer: Buffer, a: Addr): (int, Instruction) {
    var (size, analyzed) := p.analyze(NewInstruction(a, p.opcodeType), base, buffer);
    (size, Pinned(analyzed, a, p.opcodeType))
  }

  /** What the processor's decode makes of an analyzed instruction: whether it knew the opcode, and the instruction. */
  function Decoding(p: ProcessorDefinition, i: Instruction): (bool, Instruction) {
    var (ok, decoded) := p.decode(i);
    (ok, Pinned(decoded, i.address, i.opcodeType))
  }

  /** A call target becomes a function; an unreferenced jump target gets a generated label. */
  function Classify(l: Listing, item: WorkItem): Listing {
    if IsCall(item.kind) then EnsureFunction(l, item.address, NormalFunction, None)
    else if IsJump(item.kind) && !IsReferenced(l, item.address) then
      PutSymbol(l, item.address, JumpSymbol, JumpLabel(item.address))
    else l
  }

  /** An instruction demoted to "unrecognized": no operands, no format, the sentinel mnemonic. */
  function Invalidate(i: Instruction): Instruction {
    i.(operands := [], format := "", mnemonic := InvalidMnemonic)
  }

  /** The step after analyze reported `size` <= 0: skip max(1, |size|) bytes with a Flow item. */
  function SkipStep(s: Session, a: Addr, size: int, analyzed: Instruction): Session
    requires s.worklist != []
  {
    var skip := SkipSize(size);
    Session(PutInstruction(s.listing, a, analyzed),
            s.worklist[1..] + [WorkItem(a + skip, Flow)],
            s.log + [UnknownInstruction(a, skip)])
  }

  /** The step after a successful decode: name registers, classify the item, let emulate push successors. */
  function DecodedStep(p: ProcessorDefinition, buffer: Buffer, s: Session, decoded: Instruction): Session
    requires s.worklist != []
  {
    var item := s.worklist[0];
    var named := decoded.(operands := ResolveRegisters(decoded.operands, p.registerName));
    var classified := Classify(PutInstruction(s.listing, item.address, named), item);
    var emulated := p.emulate(named, buffer);
    Session(AddReferences(classified, emulated.references), s.worklist[1..] + emulated.pushes, s.log)
  }

  /** The step after decode rejected the opcode: the instruction becomes the invalid marker. */
  function RejectedStep(s: Session, a: Addr, decoded: Instruction): Session
    requires s.worklist != []
  {
    Session(PutInstruction(s.listing, a, Invalidate(decoded)), s.worklist[1..],
            s.log + [UnknownOpcode(decoded.opcode, a)])
  }

  /** One iteration of the decode loop. */
  function Step(p: ProcessorDefinition, base: Addr, buffer: Buffer, s: Session): Session
    requires s.worklist != []
  {
    var a := s.worklist[0].address;
    var (size, analyzed) := Analysis(p, base, buffer, a);
    if size <= 0 then SkipStep(s, a, size, analyzed)
    else
      var (ok, decoded) := Decoding(p, analyzed);
      if ok then DecodedStep(p, buffer, s, decoded) else RejectedStep(s, a, decoded)
  }

  /** One iteration as a total function on sessions; a session with an empty worklist is left alone. */
  function Stepper(p: ProcessorDefinition, base: Addr, buffer: Buffer): Session -> Session {
    (s: Session) => if s.worklist == [] then s else Step(p, base, buffer, s)
  }

  /** Repeats `next` until the worklist is empty or `fuel` steps are spent. */
  function Iterate(next: Session -> Session, s: Session, fuel: nat): Session
    decreases fuel
  {
    if s.worklist == [] || fuel == 0 then s else Iterate(next, next(s), fuel - 1)
  }

  /** The decode loop, run until the worklist is empty or `fuel` steps are spent. */
  function Run(p: ProcessorDefinition, base: Addr, buffer: Buffer, s: Session, fuel: nat): Session {
    Iterate(Stepper(p, base, buffer), s, fuel)
  }

  /** The effect of one callback of the map script. */
  function ApplyMapCall(s: Session, c: MapCall): Session {
    match c
    case CreateSegmentCall(name, segmentType, start, size, baseOffset) =>
      s.(listing := AppendSegment(s.listing, Segment(name, segmentType, start, size, baseOffset)))
    case CreateEntryPointCall(name, a) =>
      s.(listing := EnsureFunction(s.listing, a, EntryPointFunction, Some(name)),
         worklist := s.worklist + [WorkItem(a, EntryPoint)])
    case SetSymbolCall(a, name) =>
      s.(listing := PutSymbol(s.listing, a, LibrarySymbol, name))
  }

  /** The effect of the map script's callbacks, in the order it made them. */
  function ApplyMapCalls(s: Session, calls: seq<MapCall>): Session
    decreases |calls|
  {
    if calls == [] then s else ApplyMapCall(ApplyMapCalls(s, calls[..|calls| - 1]), calls[|calls| - 1])
  }

  /** The work items the entry-point callbacks among `calls` seed, in order. */
  function EntryItems(calls: seq<MapCall>): seq<WorkItem>
    decreases |calls|
  {
    if calls == [] then []
    else
      var last := calls[|calls| - 1];
      EntryItems(calls[..|calls| - 1])
        + (if last.CreateEntryPointCall? then [WorkItem(last.address, EntryPoint)] else [])
  }
}
