/**
 * The capabilities the loader calls into: the processor definition, the format
 * definition, the scripting hooks and the listing's own post-passes. Their
 * behaviour is written in Lua or lives outside the loader, so each is an
 * arbitrary total function supplied by the caller.
 */
module Plugins {
  import opened Wrappers
  import opened ProgramListing

  /** The loaded binary. */
  type Buffer = seq<bv8>

  /** What the processor's emulate callback does to the emulator: the successors it pushes, in order, and the references it records. */
  datatype EmulateResult = EmulateResult(pushes: seq<WorkItem>, references: seq<Reference>)

  datatype ProcessorDefinition = ProcessorDefinition(
    opcodeType: nat,
    /** Fills the instruction in and returns its size; a size <= 0 means "not an instruction". */
    analyze: (Instruction, Addr, Buffer) -> (int, Instruction),
    /** Fills in mnemonic, format and operands; false when the opcode is unknown. */
    decode: Instruction -> (bool, Instruction),
    registerName: nat -> string,
    emulate: (Instruction, Buffer) -> EmulateResult,
    elaborate: (Listing, Buffer) -> Listing)

  datatype FormatField = FormatField(name: string, offset: nat, size: nat)

  /** The format plugin's parse of the buffer. */
  datatype FormatTree = FormatTree(fields: seq<FormatField>)

  predicate IsEmpty(t: FormatTree) { |t.fields| == 0 }

  datatype FormatDefinition = FormatDefinition(
    validate: (Buffer, nat, bool) -> bool,
    parse: (Buffer, nat) -> FormatTree)

  /** A call the map script makes back into the loader. */
  datatype MapCall =
    | CreateSegmentCall(name: string, segmentType: int, start: Addr, size: nat, baseOffset: nat)
    | CreateEntryPointCall(name: string, address: Addr)
    | SetSymbolCall(address: Addr, name: string)

  /** One run of the map script: the callbacks it made, then the Lua error it raised, if any. */
  datatype MapScript = MapScript(calls: seq<MapCall>, error: Option<string>)

  /** One run of the elaborate script: the listing it leaves, then the Lua error it raised, if any. */
  datatype ElaborateScript = ElaborateScript(listing: Listing, error: Option<string>)

  /** The loader's Lua hooks; None stands for a hook that is not set (an invalid LuaFunction). The format tree is None before the first parse. */
  datatype ScriptHooks = ScriptHooks(
    mapHook: Option<FormatTree -> MapScript>,
    elaborateHook: Option<(Listing, Option<FormatTree>) -> ElaborateScript>,
    baseAddressHook: Option<Option<FormatTree> -> Result<Addr, string>>)

  /** DisassemblerListing::calcFunctionBounds and DisassemblerListing::analyzeOperands. */
  datatype ListingPasses = ListingPasses(
    calcFunctionBounds: Listing -> Listing,
    analyzeOperands: Listing -> Listing)

  /** The result of a step that may raise a PrefException carrying `message`. */
  datatype Outcome = Pass | Fail(message: string)
}
