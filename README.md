# PREF processor loader, in Dafny

This project models the core of PREF's retargetable disassembler. That core is the
`ProcessorLoader`. It binds a format definition, which validates and parses a binary, to a
processor definition, which analyzes, decodes and emulates instructions. The loader has three jobs:

- It runs the Lua `map` script. The script calls back into the loader to create segments,
  entry points and library symbols.
- It drains the emulator's worklist one instruction at a time (`disassembleInstruction`).
- It runs the post-passes: function bounds, the processor's elaborate, operand analysis and
  the Lua `elaborate` script.

Next to it sits the SDK manager's version record, together with the string `version()`
renders from it.

Files:

- `wrappers.dfy`: `Option` and `Result`.
- `numerals.dfy`: decimal and hexadecimal renderings and their parse-back. These are used for
  the generated `j_<hex>` labels and for the version string.
- `listing.dfy`: the program model the disassembler builds. It holds segments, functions,
  instructions and operands, the symbol table and the reference table, in one `Listing`
  value keyed by address.
- `plugins.dfy`: the processor definition, the format definition, the Lua hooks and the
  listing's post-passes. Each is written as a record of caller-supplied total functions.
- `disassembly.dfy`: the decode step (`Step`) and the loop (`Run`) as pure functions on a
  `Session`, plus the effect of the map callbacks (`ApplyMapCalls`).
- `disassembly_properties.dfy`: what one step, the whole loop and the map callbacks guarantee.
- `processor_loader.dfy`: the class `ProcessorLoader`. Its fields are changed in place. Each
  method is proved to follow the functions of `disassembly.dfy`.
- `sdk_manager.dfy`: the SDK version record, the class holding it, and `version()`.

Where the code does something surprising, the model follows the code:

- `callMap` calls `callBaseAddress` before it parses the format tree. The base-address hook
  therefore sees the tree of the previous parse, or none on the first call. `CallBaseAddress`
  reads the `formatTree` field as it stands when it is called.
- An empty format tree makes `callMap` return quietly, with no log entry.
- Every Jump item decides by itself whether to get a generated label. There is no dedup of
  addresses that were already decoded: an address pushed twice is decoded twice.

## Model

| member | source | states |
|---|---|---|
| Loader.ProcessorLoader.constructor | prefsdk/disassembler/processor/processorloader.cpp:5-8 | The loader keeps the two definitions it was given; the base address is the default (0); there is no format tree, no listing and no emulator yet |
| Loader.ProcessorLoader.Disassemble | prefsdk/disassembler/processor/processorloader.cpp:10-22 | The loop leaves exactly the state of `Run` on the starting state. With the worklist drained, the listing then goes through calcFunctionBounds, the processor's elaborate, analyzeOperands and the elaborate script, once each and in that order, and an elaborate-script error becomes a failure labelled `ProcessorLoader::callElaborate(): `. With the fuel spent first, the post-passes are not run |
| Loader.ProcessorLoader.Validate | prefsdk/disassembler/processor/processorloader.cpp:24-30 | The format's validate at offset 0 in quick mode. `CallMap`'s first ensures states that a failed validation changes nothing |
| Loader.ProcessorLoader.CallMap | prefsdk/disassembler/processor/processorloader.cpp:32-65 | Validation failing or no map hook: nothing changes. A base-address error: a failure and nothing changes. Otherwise the base address and the parsed tree are stored. An empty tree then stops with listing and worklist unchanged. A non-empty tree attaches the given listing with an empty worklist and applies the script's callbacks in order; a script error becomes a failure labelled `ProcessorLoader::callMap(): ` after those callbacks took effect |
| Loader.ProcessorLoader.RunMapCalls | prefsdk/disassembler/processor/processorloader.cpp:55-56 | Carrying out the script's callbacks one by one gives exactly `ApplyMapCalls` of the callbacks, in order |
| Loader.ProcessorLoader.CallElaborate | prefsdk/disassembler/processor/processorloader.cpp:67-82 | Without a hook the listing is unchanged. With one, the listing becomes what the hook leaves from the current listing and format tree, and a hook error is a failure labelled `ProcessorLoader::callElaborate(): ` |
| Loader.ProcessorLoader.CreateSegment | prefsdk/disassembler/processor/processorloader.cpp:84-91 | The listing gains exactly one segment, appended last, with the given name, type, start, size and base offset; nothing else changes |
| Loader.ProcessorLoader.CreateEntryPoint | prefsdk/disassembler/processor/processorloader.cpp:93-100 | A function exists at the address afterwards, an entry-point function named as given when there was none; the worklist gains `(address, EntryPoint)` at its end |
| Loader.ProcessorLoader.SetSymbol | prefsdk/disassembler/processor/processorloader.cpp:102-107 | The symbol table maps the address to a Library symbol with the given name, replacing anything there, and is unchanged elsewhere |
| Loader.ProcessorLoader.CallBaseAddress | prefsdk/disassembler/processor/processorloader.cpp:109-129 | No hook gives 0. A hook's address is returned as is. A hook error is a failure labelled `ProcessorLoader::disassemble(): ` |
| Loader.ProcessorLoader.DisassembleInstruction | prefsdk/disassembler/processor/processorloader.cpp:131-178 | One pop-analyze-decode-emulate step leaves exactly the state `Step` gives for the old state (the lemmas of `DisassemblyProperties` state what that is) |
| Loader.NameRegisterOperands | prefsdk/disassembler/processor/processorloader.cpp:149-157 | Same number of operands. Every register operand gets the register set's name for its value, and every other operand is unchanged |
| Disassembly.SkipSize | prefsdk/disassembler/processor/processorloader.cpp:140 | The skip is at least 1 and at least the magnitude of the size, and it is one of 1, size or -size, so it is max(1, abs(size)) |
| Disassembly.ResolveRegisters | prefsdk/disassembler/processor/processorloader.cpp:149-157 | The pointwise register naming, as a function the step uses, with the same guarantee as the loop |
| Disassembly.Step | prefsdk/disassembler/processor/processorloader.cpp:131-178 | One pop-analyze-decode-emulate step as a function of the session. `DisassembleInstruction` is proved to follow it. Its properties are stated by `StepPopsOneAndCreatesOne`, `NonPositiveSizeSkips`, `UnknownOpcodeInvalidates`, `DecodedRegistersNamed`, `DecodedItemClassified` and `StepKeepsLibrarySymbols` |
| Disassembly.Classify | prefsdk/disassembler/processor/processorloader.cpp:159-165 | The Call and Jump handling of a decoded item. Its properties are stated by `DecodedItemClassified` |
| Disassembly.Invalidate | prefsdk/disassembler/processor/processorloader.cpp:173-176 | The demotion of an instruction with an unknown opcode. Its properties are stated by `UnknownOpcodeInvalidates` |
| Disassembly.Iterate | prefsdk/disassembler/processor/processorloader.cpp:14-15 | The while loop over any step function, bounded by fuel. `IterateStopsWhenDrained` states that it stops once the worklist is empty. `IterateKeepsOrder`, `IterateDecodesPending`, `IterateKeepsInstructions` and `IterateKeepsLibrarySymbols` carry a step's guarantees over the whole loop |
| Disassembly.Run | prefsdk/disassembler/processor/processorloader.cpp:14-15 | The decode loop. `Disassemble` is proved to follow it. Its properties are stated by `RunIsFifo`, `RunKeepsLibrarySymbols` and `RunKeepsInstructions` |
| Disassembly.ApplyMapCall | prefsdk/disassembler/processor/processorloader.cpp:84-107 | The effect of one map callback: `createSegment`, `createEntryPoint` or `setSymbol`. The contracts of `CreateSegment`, `CreateEntryPoint` and `SetSymbol` state each case |
| Disassembly.ApplyMapCalls | prefsdk/disassembler/processor/processorloader.cpp:55-56 | The map script's callbacks in order. `RunMapCalls` is proved to follow it. `MapCallsSeedEntryPoints` states what it queues and creates |
| Disassembly.JumpLabel | prefsdk/disassembler/processor/processorloader.cpp:164 | The generated label `j_<hex>` of a jump target. `JumpLabelInjective` states that distinct targets get distinct labels, and `JumpLabelOfTarget` that 0x2010 gets `j_2010` |
| Numerals.Hex | prefsdk/disassembler/processor/processorloader.cpp:164 | The hexadecimal rendering of an address in the label. `HexInjective` states that it is injective, and `FromToRadix` that it reads back as the address |
| Numerals.SignedDecimal | prefsdk/sdkmanager.cpp:93-96 | The decimal rendering of a version number, with a leading minus when negative. Its contract states that it is non-empty and made of digits and '-', and `SignedDecimalRoundTrip` states that it reads back as the number |
| ProgramListing.PutInstruction | prefsdk/disassembler/processor/processorloader.cpp:135 | The address gains the instruction; every other instruction and every other table is unchanged |
| ProgramListing.EnsureFunction | prefsdk/disassembler/processor/processorloader.cpp:160 | A function exists at the address afterwards; an existing one is kept as it is, a missing one is created with the given kind and name; other tables are unchanged |
| ProgramListing.PutSymbol | prefsdk/disassembler/processor/processorloader.cpp:163-164 | A Library symbol, or any symbol at an address no Library symbol locks, is stored; another symbol at a locked address leaves the table unchanged |
| ProgramListing.AppendSegment | prefsdk/disassembler/processor/processorloader.cpp:88-90 | The segment is appended after the existing ones; other tables are unchanged |
| ProgramListing.AddReferences | prefsdk/disassembler/processor/processorloader.cpp:167 | The reference table gains exactly the references emulate recorded; other tables are unchanged |
| DisassemblyProperties.StepPopsOneAndCreatesOne | prefsdk/disassembler/processor/processorloader.cpp:133-135 | A step pops the head of the worklist and keeps the rest at the front in order. It records exactly one instruction, at the popped address, with that start address and the processor's opcode type. The other instructions and the segments stay as they were |
| DisassemblyProperties.StepKeepsQueueOrder | prefsdk/disassembler/processor/processorloader.cpp:133 | The queue part of a step: the items behind the head stay at the front, in order |
| DisassemblyProperties.StepAddsPoppedInstruction | prefsdk/disassembler/processor/processorloader.cpp:135 | The instruction part of a step: the instruction addresses grow by exactly the popped address |
| DisassemblyProperties.NonPositiveSizeSkips | prefsdk/disassembler/processor/processorloader.cpp:138-144 | A size <= 0 keeps the analyzed instruction, logs the skip, and queues a Flow item max(1, abs(size)) bytes further, strictly past the address. Functions, symbols and references are untouched, and decode and emulate play no part |
| DisassemblyProperties.UnknownOpcodeInvalidates | prefsdk/disassembler/processor/processorloader.cpp:169-176 | A rejected opcode leaves the instruction with no operands, an empty format and the invalid mnemonic, and keeps its start address, opcode and size. The log gains the unknown-opcode warning for that opcode and address. Nothing is queued, functions, symbols and references are untouched, and emulate plays no part |
| DisassemblyProperties.DecodedRegistersNamed | prefsdk/disassembler/processor/processorloader.cpp:147-167 | After a successful decode the stored instruction is the decoded one with register operands named and every other operand as decode left it, emulate's pushes follow the rest of the queue, and the reference table gains exactly the references emulate recorded |
| DisassemblyProperties.DecodedItemClassified | prefsdk/disassembler/processor/processorloader.cpp:159-165 | A Call item ensures a function at its address and only a Call item changes the functions. The symbol table changes only for a Jump item whose address is unreferenced and not locked, and then it gains exactly `j_<hex>` there |
| DisassemblyProperties.StepKeepsLibrarySymbols | prefsdk/disassembler/processor/processorloader.cpp:163-164 | A Library symbol survives every step unchanged |
| DisassemblyProperties.RunKeepsLibrarySymbols | prefsdk/disassembler/processor/processorloader.cpp:14-15 | A Library symbol survives the whole decode loop unchanged |
| DisassemblyProperties.RunKeepsInstructions | prefsdk/disassembler/processor/processorloader.cpp:14-15 | The decode loop never removes an instruction |
| DisassemblyProperties.RunIsFifo | prefsdk/disassembler/processor/processorloader.cpp:14-15 | The worklist is first-in first-out: after k steps the remaining start items are at the front in order, and each of the first k has an instruction at its address |
| DisassemblyProperties.IterateStopsWhenDrained | prefsdk/disassembler/processor/processorloader.cpp:14-15 | Once the worklist is empty the loop stops, and more fuel changes nothing |
| DisassemblyProperties.MapCallsSeedEntryPoints | prefsdk/disassembler/processor/processorloader.cpp:93-100 | The map callbacks queue exactly the entry points, in creation order, behind what was queued. Every entry point has a function, no function is lost and nothing is logged |
| DisassemblyProperties.JumpLabelInjective | prefsdk/disassembler/processor/processorloader.cpp:164 | Distinct jump targets get distinct generated labels |
| DisassemblyProperties.JumpLabelOfTarget | prefsdk/disassembler/processor/processorloader.cpp:164 | The jump target 0x2010 is labelled `j_2010` |
| Numerals.HexInjective | prefsdk/disassembler/processor/processorloader.cpp:164 | Two addresses with the same hexadecimal rendering are equal |
| Numerals.FromToRadix | prefsdk/disassembler/processor/processorloader.cpp:164 | Reading a radix rendering back gives the number |
| Numerals.SignedDecimalRoundTrip | prefsdk/sdkmanager.cpp:93 | Reading a signed decimal rendering back gives the number |
| Sdk.SdkManager.constructor | prefsdk/sdkmanager.cpp:5 | The initial record is not loaded, 0.0.0 with no custom text, and renders as `Missing SDK` |
| Sdk.SdkManager.SetVersion | prefsdk/sdkmanager.cpp:60-63 | The stored record is the loaded record of the given parts, and the version string is its rendering |
| Sdk.VersionString | prefsdk/sdkmanager.cpp:89-105 | `Missing SDK` for a record that is not loaded; otherwise `<Major>.<Minor>`, then `.<Revision>` when the revision is positive, then a space and the custom text when it is non-empty. Its properties are stated by `VersionStartsWithMajorMinor`, `RevisionShownIffPositive`, `CustomShownIffNonEmpty`, `VersionRoundTrip` and `MissingSdkIsNoVersion` |
| Sdk.SdkManager.Version | prefsdk/sdkmanager.cpp:89-105 | Before setVersion the string is `Missing SDK`, which reads back as no version. After it, the string reads back as the stored major, minor and custom text, and the revision when positive (0 otherwise) |
| Sdk.VersionStartsWithMajorMinor | prefsdk/sdkmanager.cpp:93 | A loaded version string starts with `<Major>.<Minor>` |
| Sdk.RevisionShownIffPositive | prefsdk/sdkmanager.cpp:95-96 | `<Major>.<Minor>` is followed by a dot exactly when the revision is positive, and then by `.<Revision>` |
| Sdk.CustomShownIffNonEmpty | prefsdk/sdkmanager.cpp:98-99 | The string contains a space exactly when the custom text is non-empty, and then ends with a space and that text |
| Sdk.NumericRoundTrip | prefsdk/sdkmanager.cpp:93-96 | The numeric part reads back as major, minor and the revision when positive (0 otherwise) |
| Sdk.SplitOffCustom | prefsdk/sdkmanager.cpp:98-99 | Splitting at the first space separates the numeric part from the custom text |
| Sdk.VersionRoundTrip | prefsdk/sdkmanager.cpp:89-101 | A loaded version string reads back as major, minor, custom text, and the revision when positive (0 otherwise) |
| Sdk.MissingSdkIsNoVersion | prefsdk/sdkmanager.cpp:104 | The string shown before setVersion, `Missing SDK`, does not read back as any version |

## Left out

- Lua: the bodies of the map, elaborate and base-address scripts, and of the processor and
  format plugins, are not modelled. Each is a caller-supplied total function. A script that
  raises an error is one that reports an error value (`MapScript.error`, `ElaborateScript.error`,
  a `Failure` from the base-address hook). `QtLua` and the Lua stack handling are not part of
  this model.
- DataValue: addresses, sizes and offsets are unbounded naturals. The processor's address type
  and its width, wrap-around and truncation are not modelled. This applies to
  `address + skipsize` at line 143 too.
- Loader.ProcessorLoader.CreateSegment: negative `lua_Integer` arguments and their
  conversion to the address type are not modelled. Start, size and base offset are naturals,
  and the segment type is kept as the raw integer.
- Loader.ProcessorLoader.CreateEntryPoint, Loader.ProcessorLoader.SetSymbol: the address is a
  natural, for the same reason.
- Loader.ProcessorLoader.Disassemble: the loop has a fuel bound, because nothing in the source
  bounds it. A processor plugin can keep pushing addresses forever. When the fuel runs out the
  run ends with `FuelExhausted` and skips the post-passes. Termination of the source's loop is
  not modelled.
- Loader.ProcessorLoader.Disassemble: an error raised by the processor's own `elaborate`
  (a Lua error inside `callElaborate` of the processor definition) is not modelled. That pass
  is a total function of the listing and the buffer.
- The listing is a value held in a field of the loader. The source shares the caller's
  `DisassemblerListing` object, so the caller's view of the changes (aliasing) is not modelled.
- The emulator is the `worklist` field together with the references that emulate records
  through `EmulateResult`. The `ProcessorEmulator` source is not part of this model.
- The sources of `DisassemblerListing`, `SymbolTable`, `ReferenceTable` and `Instruction`
  are not part of this model. The model assumes five rules:
  - `createFunction` keeps an existing function at the address.
  - A Library symbol is never replaced by a generated one.
  - `isReferenced` asks whether any recorded reference targets the address.
  - `createInstruction` replaces an instruction already at the address, so an address decoded
    twice holds the instruction of the last decode.
  - `createSegment` keeps the segments in the order they were created.
- Numerals.Hex: `DataValue::toString(16)` is not part of this model. The model assumes
  lower-case digits without zero padding, so `JumpLabel` and `JumpLabelOfTarget` rest on
  that assumption.
- Disassembly.Pinned: the model assumes an `Instruction` keeps the start address and opcode
  type `createInstruction` gave it (line 135), whatever analyze and decode do to it.
- The text of `Instruction::INVALID_MNEMONIC` is not available. `InvalidMnemonic` is a
  placeholder constant.
- `calcFunctionBounds` and `analyzeOperands` belong to the listing, not to the loader. Each is
  a caller-supplied function of the listing.
- The log (`warning`) is a sequence of structured warnings. The message text is not modelled.
- `bind`/`unbind` of the hex-edit data, and any exception left unhandled after a failure,
  are not modelled. A failure stops the operation as the `throw` does.
- `validate` (lines 24-30) is folded into `CallMap` as the predicate `Validate`.
- Not modelled: the accessors and setters `format`, `processor`, `map`, `elaborate`, `setName`,
  `setAuthor`, `setVersion`, `setBaseAddress`, `baseAddress`, `name`, `author`, `version`,
  `setMap` and `setElaborate`. They only store or return a field.
- `id` (the MD5 hash of the upper-cased name) is not modelled, because it is a hash over
  a text encoding.
- The SDK manager's Lua start-up is not modelled: `loadMain`, `luaAtPanic`, `initializeLua`,
  `loadSDK`, `registerMessageHandler` and `state`. The constants naming the SDK directory and
  main script are not modelled either. All of these are file and interpreter I/O.
- Sdk.SdkManager: the process-wide static `_sdkversion` is a field of one manager object.
- The version parser (`ParseVersion`) is not in the source. It exists to state that
  `version()` loses nothing it shows.
