/** What one step of the decode loop, the loop as a whole and the map callbacks guarantee. */
module DisassemblyProperties {
  import opened Wrappers
  import opened Numerals
  import opened ProgramListing
  import opened Plugins
  import opened Disassembly

  /**
   * Every step pops exactly the head of the worklist, keeps the rest of it in order at
   * the front, and records exactly one instruction, at the popped address.
   */
  lemma StepPopsOneAndCreatesOne(p: ProcessorDefinition, base: Addr, buffer: Buffer, s: Session)
    requires s.worklist != []
    ensures var a := s.worklist[0].address;
            var r := Step(p, base, buffer, s);
            && r.listing.instructions.Keys == s.listing.instructions.Keys + {a}
            && r.listing.instructions[a].address == a
            && r.listing.instructions[a].opcodeType == p.opcodeType
            && (forall b :: b in s.listing.instructions && b != a ==> r.listing.instructions[b] == s.listing.instructions[b])
            && r.listing.segments == s.listing.segments
            && |r.worklist| >= |s.worklist| - 1
            && r.worklist[..|s.worklist| - 1] == s.worklist[1..]
  {
    var item := s.worklist[0];
    var a := item.address;
    var (size, analyzed) := Analysis(p, base, buffer, a);
    if size > 0 {
      var (ok, decoded) := Decoding(p, analyzed);
      assert decoded.address == a && decoded.opcodeType == p.opcodeType;
      if ok {
        var named := decoded.(operands := ResolveRegisters(decoded.operands, p.registerName));
        var put := PutInstruction(s.listing, a, named);
        var emulated := p.emulate(named, buffer);
        var r := AddReferences(Classify(put, item), emulated.references);
        assert r.instructions == put.instructions;
        assert (s.worklist[1..] + emulated.pushes)[..|s.worklist| - 1] == s.worklist[1..];
      }
    }
  }

  /** The worklist part of a step: the rest of the queue stays in front, in order. */
  lemma StepKeepsQueueOrder(p: ProcessorDefinition, base: Addr, buffer: Buffer, s: Session)
    requires s.worklist != []
    ensures var r := Step(p, base, buffer, s);
            |r.worklist| >= |s.worklist| - 1 && r.worklist[..|s.worklist| - 1] == s.worklist[1..]
  {
    StepPopsOneAndCreatesOne(p, base, buffer, s);
  }

  /** The instruction part of a step: the popped address gains an instruction, no other is lost. */
  lemma StepAddsPoppedInstruction(p: ProcessorDefinition, base: Addr, buffer: Buffer, s: Session)
    requires s.worklist != []
    ensures var r := Step(p, base, buffer, s);
            r.listing.instructions.Keys == s.listing.instructions.Keys + {s.worklist[0].address}
  {
    StepPopsOneAndCreatesOne(p, base, buffer, s);
  }

  /**
   * When analyze reports a size <= 0, the instruction is kept as analyzed, one
   * Flow item max(1, |size|) bytes further on is queued, and neither decode nor
   * emulate is consulted.
   */
  lemma NonPositiveSizeSkips(p: ProcessorDefinition, base: Addr, buffer: Buffer, s: Session,
                             otherDecode: Instruction -> (bool, Instruction),
                             otherEmulate: (Instruction, Buffer) -> EmulateResult)
    requires s.worklist != [] && Analysis(p, base, buffer, s.worklist[0].address).0 <= 0
    ensures var a := s.worklist[0].address;
            var (size, analyzed) := Analysis(p, base, buffer, a);
            var r := Step(p, base, buffer, s);
            && r == Step(p.(decode := otherDecode, emulate := otherEmulate), base, buffer, s)
            && r.worklist == s.worklist[1..] + [WorkItem(a + SkipSize(size), Flow)]
            && a + SkipSize(size) > a
            && r.listing.instructions[a] == analyzed
            && r.listing.functions == s.listing.functions
            && r.listing.symbols == s.listing.symbols
            && r.listing.references == s.listing.references
            && r.log == s.log + [UnknownInstruction(a, SkipSize(size))]
  {
  }

  /**
   * An unknown opcode demotes the instruction to the invalid marker, queues nothing and
   * touches neither functions nor symbols nor references; emulate is not consulted.
   */
  lemma UnknownOpcodeInvalidates(p: ProcessorDefinition, base: Addr, buffer: Buffer, s: Session,
                                 otherEmulate: (Instruction, Buffer) -> EmulateResult)
    requires s.worklist != []
    requires var (size, analyzed) := Analysis(p, base, buffer, s.worklist[0].address);
             size > 0 && !Decoding(p, analyzed).0
    ensures var a := s.worklist[0].address;
            var decoded := Decoding(p, Analysis(p, base, buffer, a).1).1;
            var r := Step(p, base, buffer, s);
            && r == Step(p.(emulate := otherEmulate), base, buffer, s)
            && r.listing.instructions[a].operands == []
            && r.listing.instructions[a].format == ""
            && r.listing.instructions[a].mnemonic == InvalidMnemonic
            && r.listing.instructions[a].address == a
            && r.listing.instructions[a].opcode == decoded.opcode
            && r.listing.instructions[a].size == decoded.size
            && r.worklist == s.worklist[1..]
            && r.log == s.log + [UnknownOpcode(decoded.opcode, a)]
            && r.listing.functions == s.listing.functions
            && r.listing.symbols == s.listing.symbols
            && r.listing.references == s.listing.references
  {
  }

  /**
   * After a successful decode every register operand carries the register set's name
   * for its value, every other operand and field is as decode left it, and the
   * successors emulate pushes follow the rest of the worklist.
   */
  lemma DecodedRegistersNamed(p: ProcessorDefinition, base: Addr, buffer: Buffer, s: Session)
    requires s.worklist != []
    requires var (size, analyzed) := Analysis(p, base, buffer, s.worklist[0].address);
             size > 0 && Decoding(p, analyzed).0
    ensures var a := s.worklist[0].address;
            var decoded := Decoding(p, Analysis(p, base, buffer, a).1).1;
            var r := Step(p, base, buffer, s);
            var named := r.listing.instructions[a];
            && named == decoded.(operands := named.operands)
            && |named.operands| == |decoded.operands|
            && (forall i :: 0 <= i < |decoded.operands| && decoded.operands[i].kind == Register ==>
                  named.operands[i] == decoded.operands[i].(registerName := p.registerName(decoded.operands[i].value)))
            && (forall i :: 0 <= i < |decoded.operands| && decoded.operands[i].kind != Register ==>
                  named.operands[i] == decoded.operands[i])
            && r.worklist == s.worklist[1..] + p.emulate(named, buffer).pushes
            && r.listing.references == s.listing.references
                 + (set i | 0 <= i < |p.emulate(named, buffer).references| :: p.emulate(named, buffer).references[i])
            && r.log == s.log
  {
  }

  /**
   * After a successful decode a Call item makes sure a function starts at its address; a
   * Jump item to an address nothing references yet, and that no library symbol locks,
   * gets the label j_<hex>; the symbol table changes in no other case and nowhere
   * else, and only a Call item changes the functions.
   */
  lemma DecodedItemClassified(p: ProcessorDefinition, base: Addr, buffer: Buffer, s: Session)
    requires s.worklist != []
    requires var (size, analyzed) := Analysis(p, base, buffer, s.worklist[0].address);
             size > 0 && Decoding(p, analyzed).0
    ensures var item := s.worklist[0];
            var a := item.address;
            var r := Step(p, base, buffer, s);
            && (IsCall(item.kind) ==> r.listing.functions.Keys == s.listing.functions.Keys + {a})
            && (IsCall(item.kind) && a !in s.listing.functions ==> r.listing.functions[a] == Function(None, NormalFunction, a))
            && (forall b :: b in s.listing.functions ==> b in r.listing.functions && r.listing.functions[b] == s.listing.functions[b])
            && (!IsCall(item.kind) ==> r.listing.functions == s.listing.functions)
            && (r.listing.symbols != s.listing.symbols ==>
                  IsJump(item.kind) && !IsReferenced(s.listing, a) && !Locked(s.listing, a))
            && (IsJump(item.kind) && !IsReferenced(s.listing, a) && !Locked(s.listing, a) ==>
                  r.listing.symbols == s.listing.symbols[a := Symbol(JumpSymbol, JumpLabel(a))])
  {
    var item := s.worklist[0];
    var a := item.address;
    var (size, analyzed) := Analysis(p, base, buffer, a);
    var (ok, decoded) := Decoding(p, analyzed);
    var named := decoded.(operands := ResolveRegisters(decoded.operands, p.registerName));
    var put := PutInstruction(s.listing, a, named);
    assert IsReferenced(put, a) == IsReferenced(s.listing, a);
    assert Locked(put, a) == Locked(s.listing, a);
  }

  /** A library symbol survives every step of the decode loop. */
  lemma StepKeepsLibrarySymbols(p: ProcessorDefinition, base: Addr, buffer: Buffer, s: Session, a: Addr)
    requires s.worklist != [] && Locked(s.listing, a)
    ensures var r := Step(p, base, buffer, s);
            a in r.listing.symbols && r.listing.symbols[a] == s.listing.symbols[a]
  {
    var item := s.worklist[0];
    var (size, analyzed) := Analysis(p, base, buffer, item.address);
    if size > 0 {
      var (ok, decoded) := Decoding(p, analyzed);
      if ok {
        var named := decoded.(operands := ResolveRegisters(decoded.operands, p.registerName));
        var put := PutInstruction(s.listing, item.address, named);
        assert Locked(put, a);
      }
    }
  }

  /** A step function that never changes a library symbol. */
  ghost predicate KeepsLibrarySymbols(next: Session -> Session) {
    forall s: Session, a: Addr {:trigger next(s), Locked(s.listing, a)} :: Locked(s.listing, a) ==>
      Locked(next(s).listing, a) && next(s).listing.symbols[a] == s.listing.symbols[a]
  }

  /** A step function that never removes an instruction. */
  ghost predicate KeepsInstructions(next: Session -> Session) {
    forall s: Session {:trigger next(s)} :: s.listing.instructions.Keys <= next(s).listing.instructions.Keys
  }

  /** A step function that pops the head of the worklist, keeps the rest in front and decodes the popped address. */
  ghost predicate PopsInOrder(next: Session -> Session) {
    forall s: Session {:trigger next(s)} :: s.worklist != [] ==>
      && |next(s).worklist| >= |s.worklist| - 1
      && next(s).worklist[..|s.worklist| - 1] == s.worklist[1..]
      && s.worklist[0].address in next(s).listing.instructions
  }

  lemma StepperProperties(p: ProcessorDefinition, base: Addr, buffer: Buffer)
    ensures KeepsLibrarySymbols(Stepper(p, base, buffer))
    ensures KeepsInstructions(Stepper(p, base, buffer))
    ensures PopsInOrder(Stepper(p, base, buffer))
  {
    var next := Stepper(p, base, buffer);
    forall s: Session, a: Addr | Locked(s.listing, a)
      ensures Locked(next(s).listing, a) && next(s).listing.symbols[a] == s.listing.symbols[a]
    {
      if s.worklist != [] {
        StepKeepsLibrarySymbols(p, base, buffer, s, a);
      }
    }
    forall s: Session
      ensures s.listing.instructions.Keys <= next(s).listing.instructions.Keys
    {
      if s.worklist != [] {
        StepAddsPoppedInstruction(p, base, buffer, s);
      }
    }
    forall s: Session | s.worklist != []
      ensures && |next(s).worklist| >= |s.worklist| - 1
              && next(s).worklist[..|s.worklist| - 1] == s.worklist[1..]
              && s.worklist[0].address in next(s).listing.instructions
    {
      StepKeepsQueueOrder(p, base, buffer, s);
      StepAddsPoppedInstruction(p, base, buffer, s);
    }
  }

  lemma {:induction false} IterateKeepsLibrarySymbols(next: Session -> Session, s: Session, fuel: nat, a: Addr)
    requires KeepsLibrarySymbols(next) && Locked(s.listing, a)
    ensures Locked(Iterate(next, s, fuel).listing, a)
    ensures Iterate(next, s, fuel).listing.symbols[a] == s.listing.symbols[a]
    decreases fuel
  {
    if s.worklist != [] && fuel > 0 {
      IterateKeepsLibrarySymbols(next, next(s), fuel - 1, a);
    }
  }

  /** A library symbol survives the whole decode loop. */
  lemma RunKeepsLibrarySymbols(p: ProcessorDefinition, base: Addr, buffer: Buffer, s: Session, fuel: nat, a: Addr)
    requires Locked(s.listing, a)
    ensures Locked(Run(p, base, buffer, s, fuel).listing, a)
    ensures Run(p, base, buffer, s, fuel).listing.symbols[a] == s.listing.symbols[a]
  {
    StepperProperties(p, base, buffer);
    IterateKeepsLibrarySymbols(Stepper(p, base, buffer), s, fuel, a);
  }

  lemma {:induction false} IterateKeepsInstructions(next: Session -> Session, s: Session, fuel: nat)
    requires KeepsInstructions(next)
    ensures s.listing.instructions.Keys <= Iterate(next, s, fuel).listing.instructions.Keys
    decreases fuel
  {
    if s.worklist != [] && fuel > 0 {
      IterateKeepsInstructions(next, next(s), fuel - 1);
    }
  }

  /** The decode loop never removes an instruction from the listing. */
  lemma RunKeepsInstructions(p: ProcessorDefinition, base: Addr, buffer: Buffer, s: Session, fuel: nat)
    ensures s.listing.instructions.Keys <= Run(p, base, buffer, s, fuel).listing.instructions.Keys
  {
    StepperProperties(p, base, buffer);
    IterateKeepsInstructions(Stepper(p, base, buffer), s, fuel);
  }

  lemma {:induction false} IterateKeepsOrder(next: Session -> Session, s: Session, k: nat)
    requires PopsInOrder(next) && k <= |s.worklist|
    ensures |Iterate(next, s, k).worklist| >= |s.worklist| - k
    ensures Iterate(next, s, k).worklist[..|s.worklist| - k] == s.worklist[k..]
    decreases k
  {
    if k > 0 {
      var t := next(s);
      assert |t.worklist| >= |s.worklist| - 1 && t.worklist[..|s.worklist| - 1] == s.worklist[1..];
      IterateKeepsOrder(next, t, k - 1);
      var r := Iterate(next, t, k - 1);
      assert r == Iterate(next, s, k);
      var n := |s.worklist| - k;
      assert r.worklist[..n] == r.worklist[..|t.worklist| - (k - 1)][..n];
      assert t.worklist[k - 1..][..n] == t.worklist[..|s.worklist| - 1][k - 1..];
    }
  }

  lemma {:induction false} IterateDecodesPending(next: Session -> Session, s: Session, k: nat)
    requires PopsInOrder(next) && KeepsInstructions(next) && k <= |s.worklist|
    ensures forall i :: 0 <= i < k ==> s.worklist[i].address in Iterate(next, s, k).listing.instructions
    decreases k
  {
    if k > 0 {
      var t := next(s);
      assert |t.worklist| >= |s.worklist| - 1 && t.worklist[..|s.worklist| - 1] == s.worklist[1..];
      assert s.worklist[0].address in t.listing.instructions;
      IterateDecodesPending(next, t, k - 1);
      IterateKeepsInstructions(next, t, k - 1);
      var r := Iterate(next, t, k - 1);
      assert r == Iterate(next, s, k);
      forall i | 0 <= i < k
        ensures s.worklist[i].address in r.listing.instructions
      {
        if i > 0 {
          assert s.worklist[i] == t.worklist[i - 1];
        }
      }
    }
  }

  /**
   * The worklist is strictly first-in first-out: after k steps, k no more than the items
   * pending at the start, the remaining start items are still at the front, in order,
   * and each of the first k has an instruction at its address.
   */
  lemma RunIsFifo(p: ProcessorDefinition, base: Addr, buffer: Buffer, s: Session, k: nat)
    requires k <= |s.worklist|
    ensures var r := Run(p, base, buffer, s, k);
            && |r.worklist| >= |s.worklist| - k
            && r.worklist[..|s.worklist| - k] == s.worklist[k..]
            && forall i :: 0 <= i < k ==> s.worklist[i].address in r.listing.instructions
  {
    StepperProperties(p, base, buffer);
    IterateKeepsOrder(Stepper(p, base, buffer), s, k);
    IterateDecodesPending(Stepper(p, base, buffer), s, k);
  }

  /** Once the loop has drained the worklist, more fuel changes nothing. */
  lemma {:induction false} IterateStopsWhenDrained(next: Session -> Session, s: Session, fuel: nat, extra: nat)
    requires Iterate(next, s, fuel).worklist == []
    ensures Iterate(next, s, fuel + extra) == Iterate(next, s, fuel)
    decreases fuel
  {
    if s.worklist != [] && fuel > 0 {
      IterateStopsWhenDrained(next, next(s), fuel - 1, extra);
    }
  }

  /**
   * The map callbacks seed the worklist with exactly the entry points, in the order the
   * script created them, behind what was already queued, and each entry point has a function.
   */
  lemma {:induction false} MapCallsSeedEntryPoints(s: Session, calls: seq<MapCall>)
    ensures var r := ApplyMapCalls(s, calls);
            && r.worklist == s.worklist + EntryItems(calls)
            && s.listing.functions.Keys <= r.listing.functions.Keys
            && (forall i :: 0 <= i < |calls| && calls[i].CreateEntryPointCall? ==> calls[i].address in r.listing.functions)
            && r.log == s.log
    decreases |calls|
  {
    if calls != [] {
      var init := calls[..|calls| - 1];
      MapCallsSeedEntryPoints(s, init);
      var mid := ApplyMapCalls(s, init);
      var r := ApplyMapCalls(s, calls);
      assert r == ApplyMapCall(mid, calls[|calls| - 1]);
      assert mid.listing.functions.Keys <= r.listing.functions.Keys;
      forall i | 0 <= i < |calls| && calls[i].CreateEntryPointCall?
        ensures calls[i].address in r.listing.functions
      {
        if i < |calls| - 1 {
          assert calls[i] == init[i];
        }
      }
    }
  }

  /** Distinct addresses get distinct generated labels. */
  lemma JumpLabelInjective(a: Addr, b: Addr)
    ensures JumpLabel(a) == JumpLabel(b) ==> a == b
  {
    if JumpLabel(a) == JumpLabel(b) {
      assert JumpLabel(a)[2..] == Hex(a);
      assert JumpLabel(b)[2..] == Hex(b);
      HexInjective(a, b);
    }
  }

  /** With the unpadded hexadecimal rendering, the label of the jump target 0x2010 is "j_2010". */
  lemma JumpLabelOfTarget()
    ensures JumpLabel(0x2010) == "j_2010"
  {
    assert Hex(0x2010) == Hex(0x201) + [DigitChar(0)];
    assert Hex(0x201) == Hex(0x20) + [DigitChar(1)];
    assert Hex(0x20) == Hex(0x2) + [DigitChar(0)];
  }
}
