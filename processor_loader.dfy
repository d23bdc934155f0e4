/**
 * The ProcessorLoader: binds a format definition and a processor definition,
 * runs the map script that lays out segments and entry points, and drives the
 * decode loop over the emulator's worklist followed by the post-passes.
 */
module Loader {
  import opened Wrappers
  import opened ProgramListing
  import opened Plugins
  import opened Disassembly

  const MapErrorPrefix: string := "ProcessorLoader::callMap(): "
  const ElaborateErrorPrefix: string := "ProcessorLoader::callElaborate(): "
  /** callBaseAddress labels its failures with this prefix. */
  const BaseAddressErrorPrefix: string := "ProcessorLoader::disassemble(): "

  /** How a disassembly run ends. */
  datatype RunOutcome = Completed | Failed(message: string) | FuelExhausted

  /**
   * Sets the display name of every register operand from the processor's register set,
   * walking the operands in order and leaving the others alone.
   */
  method NameRegisterOperands(operands: seq<Operand>, registerName: nat -> string) returns (named: seq<Operand>)
    ensures |named| == |operands|
    ensures forall i :: 0 <= i < |operands| && operands[i].kind == Register ==>
              named[i] == operands[i].(registerName := registerName(operands[i].value))
    ensures forall i :: 0 <= i < |operands| && operands[i].kind != Register ==> named[i] == operands[i]
    ensures named == ResolveRegisters(operands, registerName)
  {
    named := operands;
    var i := 0;
    while i < |named|
      invariant 0 <= i <= |named| == |operands|
      invariant forall k :: 0 <= k < i ==> named[k] == ResolveOperand(operands[k], registerName)
      invariant forall k :: i <= k < |named| ==> named[k] == operands[k]
    {
      if named[i].kind == Register {
        named := named[i := named[i].(registerName := registerName(named[i].value))];
      }
      i := i + 1;
    }
  }

  lemma PutInstructionTwice(l: Listing, a: Addr, first: Instruction, second: Instruction)
    ensures PutInstruction(PutInstruction(l, a, first), a, second) == PutInstruction(l, a, second)
  {
    assert l.instructions[a := first][a := second] == l.instructions[a := second];
  }

  class ProcessorLoader {
    const processor: ProcessorDefinition
    const format: FormatDefinition
    const hooks: ScriptHooks

    var baseAddress: Addr
    /** None until the first parse (a null pointer). */
    var formatTree: Option<FormatTree>
    /** True once callMap has attached a listing and created the emulator. */
    var attached: bool
    var listing: Listing
    /** The emulator's queue of work items. */
    var worklist: seq<WorkItem>
    var log: seq<Warning>

    function State(): Session
      reads this
    {
      Session(listing, worklist, log)
    }

    constructor (processor: ProcessorDefinition, format: FormatDefinition, hooks: ScriptHooks)
      ensures this.processor == processor && this.format == format && this.hooks == hooks
      ensures baseAddress == 0 && formatTree == None && !attached
      ensures listing == EmptyListing && worklist == [] && log == []
    {
      this.processor := processor;
      this.format := format;
      this.hooks := hooks;
      baseAddress := 0;
      formatTree := None;
      attached := false;
      listing := EmptyListing;
      worklist := [];
      log := [];
    }

    /** The quick validation of the buffer at offset 0. */
    predicate Validate(buffer: Buffer) {
      format.validate(buffer, 0, true)
    }

    /** The base address the hook reports for the current format tree; 0 without a hook. */
    function CallBaseAddress(): (r: Result<Addr, string>)
      reads this
      ensures hooks.baseAddressHook.None? ==> r == Success(0)
      ensures hooks.baseAddressHook.Some? ==>
                (hooks.baseAddressHook.value(formatTree).Success? ==> r == hooks.baseAddressHook.value(formatTree))
      ensures hooks.baseAddressHook.Some? && hooks.baseAddressHook.value(formatTree).Failure? ==>
                r == Failure(BaseAddressErrorPrefix + hooks.baseAddressHook.value(formatTree).error)
    {
      match hooks.baseAddressHook
      case None => Success(0)
      case Some(hook) =>
        match hook(formatTree)
        case Success(a) => Success(a)
        case Failure(message) => Failure(BaseAddressErrorPrefix + message)
    }

    method CreateSegment(name: string, segmentType: int, start: Addr, size: nat, baseOffset: nat)
      requires attached
      modifies this`listing
      ensures listing == AppendSegment(old(listing), Segment(name, segmentType, start, size, baseOffset))
    {
      listing := AppendSegment(listing, Segment(name, segmentType, start, size, baseOffset));
    }

    method CreateEntryPoint(name: string, address: Addr)
      requires attached
      modifies this`listing, this`worklist
      ensures address in listing.functions
      ensures address !in old(listing).functions ==>
                listing.functions[address] == Function(Some(name), EntryPointFunction, address)
      ensures listing == EnsureFunction(old(listing), address, EntryPointFunction, Some(name))
      ensures worklist == old(worklist) + [WorkItem(address, EntryPoint)]
    {
      listing := EnsureFunction(listing, address, EntryPointFunction, Some(name));
      worklist := worklist + [WorkItem(address, EntryPoint)];
    }

    method SetSymbol(address: Addr, name: string)
      requires attached
      modifies this`listing
      ensures listing.symbols == old(listing).symbols[address := Symbol(LibrarySymbol, name)]
      ensures listing == PutSymbol(old(listing), address, LibrarySymbol, name)
    {
      listing := PutSymbol(listing, address, LibrarySymbol, name);
    }

    /** Carries out the callbacks the map script made, in order. */
    method RunMapCalls(calls: seq<MapCall>)
      requires attached
      modifies this`listing, this`worklist
      ensures State() == ApplyMapCalls(old(State()), calls)
    {
      ghost var start := State();
      var i := 0;
      while i < |calls|
        invariant 0 <= i <= |calls|
        invariant State() == ApplyMapCalls(start, calls[..i])
      {
        assert calls[..i + 1][..i] == calls[..i];
        match calls[i] {
          case CreateSegmentCall(name, segmentType, a, size, baseOffset) =>
            CreateSegment(name, segmentType, a, size, baseOffset);
          case CreateEntryPointCall(name, a) =>
            CreateEntryPoint(name, a);
          case SetSymbolCall(a, name) =>
            SetSymbol(a, name);
        }
        i := i + 1;
      }
      assert calls[..|calls|] == calls;
    }

    /**
     * Validates the buffer, resolves the base address, parses the format tree,
     * attaches `target` and a fresh emulator, and runs the map script.
     */
    method CallMap(target: Listing, buffer: Buffer) returns (outcome: Outcome)
      modifies this`baseAddress, this`formatTree, this`attached, this`listing, this`worklist
      ensures !Validate(buffer) || hooks.mapHook.None? ==> outcome == Pass && unchanged(this)
      ensures Validate(buffer) && hooks.mapHook.Some? && old(CallBaseAddress()).Failure? ==>
                outcome == Fail(old(CallBaseAddress()).error) && unchanged(this)
      ensures Validate(buffer) && hooks.mapHook.Some? && old(CallBaseAddress()).Success? ==>
                baseAddress == old(CallBaseAddress()).value && formatTree == Some(format.parse(buffer, 0))
      ensures Validate(buffer) && hooks.mapHook.Some? && old(CallBaseAddress()).Success? &&
              IsEmpty(format.parse(buffer, 0)) ==>
                outcome == Pass && attached == old(attached) && State() == old(State())
      ensures Validate(buffer) && hooks.mapHook.Some? && old(CallBaseAddress()).Success? &&
              !IsEmpty(format.parse(buffer, 0)) ==>
                var script := hooks.mapHook.value(format.parse(buffer, 0));
                && attached
                && State() == ApplyMapCalls(Session(target, [], old(log)), script.calls)
                && outcome == (if script.error.Some? then Fail(MapErrorPrefix + script.error.value) else Pass)
    {
      if !Validate(buffer) || hooks.mapHook.None? {
        return Pass;
      }
      var base := CallBaseAddress();
      if base.Failure? {
        return Fail(base.error);
      }
      baseAddress := base.value;
      var tree := format.parse(buffer, 0);
      formatTree := Some(tree);
      if IsEmpty(tree) {
        return Pass;
      }
      listing := target;
      worklist := [];
      attached := true;
      var script := hooks.mapHook.value(tree);
      RunMapCalls(script.calls);
      if script.error.Some? {
        return Fail(MapErrorPrefix + script.error.value);
      }
      return Pass;
    }

    /** Runs the elaborate script, when one is set, on the listing and the format tree. */
    method CallElaborate() returns (outcome: Outcome)
      modifies this`listing
      ensures hooks.elaborateHook.None? ==> outcome == Pass && listing == old(listing)
      ensures hooks.elaborateHook.Some? ==>
                var run := hooks.elaborateHook.value(old(listing), formatTree);
                && listing == run.listing
                && outcome == (if run.error.Some? then Fail(ElaborateErrorPrefix + run.error.value) else Pass)
    {
      if hooks.elaborateHook.None? {
        return Pass;
      }
      var run := hooks.elaborateHook.value(listing, formatTree);
      listing := run.listing;
      if run.error.Some? {
        return Fail(ElaborateErrorPrefix + run.error.value);
      }
      return Pass;
    }

    /** Pops one work item and decodes the instruction at its address. */
    method DisassembleInstruction(buffer: Buffer)
      requires worklist != []
      modifies this`listing, this`worklist, this`log
      ensures State() == Step(processor, baseAddress, buffer, old(State()))
    {
      ghost var before := State();
      var item := worklist[0];
      worklist := worklist[1..];
      var instruction := NewInstruction(item.address, processor.opcodeType);
      listing := PutInstruction(listing, item.address, instruction);
      var (size, analyzed) := processor.analyze(instruction, baseAddress, buffer);
      instruction := Pinned(analyzed, item.address, processor.opcodeType);
      if size <= 0 {
        var skip := SkipSize(size);
        listing := PutInstruction(listing, item.address, instruction);
        log := log + [UnknownInstruction(item.address, skip)];
        worklist := worklist + [WorkItem(item.address + skip, Flow)];
        PutInstructionTwice(before.listing, item.address, NewInstruction(item.address, processor.opcodeType), instruction);
      } else {
        var (ok, decoded) := processor.decode(instruction);
        instruction := Pinned(decoded, item.address, processor.opcodeType);
        if ok {
          var operands := NameRegisterOperands(instruction.operands, processor.registerName);
          instruction := instruction.(operands := operands);
          listing := PutInstruction(listing, item.address, instruction);
          PutInstructionTwice(before.listing, item.address, NewInstruction(item.address, processor.opcodeType), instruction);
          if IsCall(item.kind) {
            listing := EnsureFunction(listing, item.address, NormalFunction, None);
          } else if IsJump(item.kind) && !IsReferenced(listing, item.address) {
            listing := PutSymbol(listing, item.address, JumpSymbol, JumpLabel(item.address));
          }
          var emulated := processor.emulate(instruction, buffer);
          listing := AddReferences(listing, emulated.references);
          worklist := worklist + emulated.pushes;
        } else {
          log := log + [UnknownOpcode(instruction.opcode, instruction.address)];
          instruction := instruction.(operands := []);
          instruction := instruction.(format := "");
          instruction := instruction.(mnemonic := InvalidMnemonic);
          listing := PutInstruction(listing, item.address, instruction);
          PutInstructionTwice(before.listing, item.address, NewInstruction(item.address, processor.opcodeType), instruction);
        }
      }
    }

    /**
     * Drains the worklist, then runs function bounds, the processor's elaborate,
     * operand analysis and the elaborate script, once each and in that order.
     * At most `fuel` instructions are decoded.
     */
    method Disassemble(buffer: Buffer, passes: ListingPasses, fuel: nat) returns (outcome: RunOutcome)
      requires attached
      modifies this`listing, this`worklist, this`log
      ensures var drained := Run(processor, baseAddress, buffer, old(State()), fuel);
              drained.worklist != [] ==> outcome == FuelExhausted && State() == drained
      ensures var drained := Run(processor, baseAddress, buffer, old(State()), fuel);
              var analyzed := passes.analyzeOperands(processor.elaborate(passes.calcFunctionBounds(drained.listing), buffer));
              drained.worklist == [] ==>
                && worklist == [] && log == drained.log
                && (hooks.elaborateHook.None? ==> listing == analyzed && outcome == Completed)
                && (hooks.elaborateHook.Some? ==>
                      var run := hooks.elaborateHook.value(analyzed, formatTree);
                      && listing == run.listing
                      && outcome == (if run.error.Some? then Failed(ElaborateErrorPrefix + run.error.value) else Completed))
    {
      var steps := 0;
      while worklist != [] && steps < fuel
        invariant steps <= fuel
        invariant Run(processor, baseAddress, buffer, State(), fuel - steps) == Run(processor, baseAddress, buffer, old(State()), fuel)
        decreases fuel - steps
      {
        DisassembleInstruction(buffer);
        steps := steps + 1;
      }
      if worklist != [] {
        return FuelExhausted;
      }
      listing := passes.calcFunctionBounds(listing);
      listing := processor.elaborate(listing, buffer);
      listing := passes.analyzeOperands(listing);
      var elaborated := CallElaborate();
      outcome := if elaborated.Fail? then Failed(elaborated.message) else Completed;
    }
  }
}
