/** The instruction decoder of the class disassembler (class-disassembler.py), held against the
    layout of instructions in section 6.5 of the Java Virtual Machine Specification. An opcode's
    number stands for its mnemonic, which the program looks up in a table in opcode order. */
module Disassembler {
  import opened Common
  import opened Bytes
  import opened Counting
  import ClassFile
  import PoolText

  const OPCODES := 202

  const BIPUSH: Byte := 0x10
  const LDC: Byte := 0x12
  const IINC: Byte := 0x84
  const TABLESWITCH: Byte := 0xaa
  const LOOKUPSWITCH: Byte := 0xab
  const INVOKEINTERFACE: Byte := 0xb9
  const INVOKEDYNAMIC: Byte := 0xba
  const WIDE: Byte := 0xc4
  const MULTIANEWARRAY: Byte := 0xc5
  const GOTO_W: Byte := 0xc8
  const JSR_W: Byte := 0xc9

  /** One line of a listing: where the instruction is, which it is and where a 16-bit branch goes. */
  datatype Entry = Entry(offset: int, opcode: Byte, target: Option<int>)

  /** The listing; or that something raised, a read outside the code, an opcode past the table or an
      operand that does not resolve; or that the loop is not done after the turns allowed. */
  datatype Outcome = Listing(entries: seq<Entry>) | Raises | Unfinished

  /** What is disassembled: the code, the pool its operands are resolved in, and how many calls one inside
      another resolving may take. */
  datatype Unit = Unit(code: seq<Byte>, pool: ClassFile.Pool, room: nat) {

    /** Whether an operand that is resolved without a net resolves. */
    predicate Resolves(index: nat) {
      PoolText.Settled(PoolText.Res(pool, index, room))
    }

    /** `code[p]`, which counts from the end below zero. */
    function At(p: int): Option<Byte> {
      if 0 <= p < |code| then Some(code[p])
      else if -|code| <= p < 0 then Some(code[p + |code|])
      else None
    }

    /** The `k` bytes of `code[p:p+k]`, or nothing where the slice is shorter: it stops at the end, and one
        that begins below zero has to end below zero. */
    function Part(p: int, k: nat): (part: Option<seq<Byte>>)
      ensures part.Some? ==> |part.value| == k
    {
      if 0 <= p && p + k <= |code| then Some(code[p..p + k])
      else if -|code| <= p < 0 && p + k < 0 then Some(code[p + |code|..p + |code| + k])
      else None
    }
  }

  // ---------- Decoding ----------

  /** The opcodes with one operand byte. */
  predicate OneByte(op: Byte) {
    op == 0x10 || op == 0x12 || 0x15 <= op <= 0x19 || 0x36 <= op <= 0x3a || op == 0xa9 || op == 0xbc
  }

  /** The opcodes with two. */
  predicate TwoBytes(op: Byte) {
    || op == 0x11 || op == 0x13 || op == 0x14 || op == IINC
    || 0x99 <= op <= 0xa8 || 0xb2 <= op <= 0xb8
    || op == 0xbb || op == 0xbd || op == 0xc0 || op == 0xc1 || op == 0xc6 || op == 0xc7
  }

  /** The opcodes named `if…`, `goto` and `jsr`. */
  predicate BranchesBy16(op: Byte) {
    0x99 <= op <= 0xa8 || op == 0xc6 || op == 0xc7
  }

  /** `(p + 3) & ~3` */
  function Aligned(p: int): int {
    (p + 3) / 4 * 4
  }

  /** Where a switch at the aligned `q` sends the cursor. */
  function AfterTable(unit: Unit, q: int): Option<int> {
    match unit.Part(q + 4, 8)
    case None => None
    case Some(ends) => Some(q + 12 + 4 * (S32(ends[4..]) - S32(ends[..4]) + 1))
  }

  function AfterLookup(unit: Unit, q: int): Option<int> {
    match unit.Part(q + 4, 4)
    case None => None
    case Some(count) => Some(q + 8 + 8 * S32(count))
  }

  /** Where the cursor goes from the byte after an opcode, or nothing where something raises. */
  function After(unit: Unit, op: Byte, p: int): Option<int> {
    if OneByte(op) then
      match unit.At(p)
      case None => None
      case Some(v) => if op == LDC && !unit.Resolves(v) then None else Some(p + 1)
    else if TwoBytes(op) then (if unit.Part(p, 2).Some? then Some(p + 2) else None)
    else if op == INVOKEINTERFACE || op == INVOKEDYNAMIC then
      match unit.Part(p, 2)
      case None => None
      case Some(v) => if unit.Resolves(U16(v)) then Some(p + 4) else None
    else if op == MULTIANEWARRAY then Some(p + 3)
    else if op == WIDE then
      match unit.At(p)
      case None => None
      case Some(v) => if v != IINC then Some(p + 3) else Some(p + 5)
    else if op == GOTO_W || op == JSR_W then Some(p + 4)
    else if op == TABLESWITCH then AfterTable(unit, Aligned(p))
    else if op == LOOKUPSWITCH then AfterLookup(unit, Aligned(p))
    else Some(p)
  }

  /** The target of the instruction at `off`, which counts its two bytes from there. */
  function TargetAt(unit: Unit, op: Byte, off: int): Option<int> {
    if BranchesBy16(op) && unit.Part(off + 1, 2).Some? then Some(off + S16(unit.Part(off + 1, 2).value)) else None
  }

  /** One turn of the loop. */
  datatype Turn = Ends | Raised | Goes(next: int, entry: Entry)

  function TurnAt(unit: Unit, p: int): Turn {
    if p >= |unit.code| then Ends
    else
      match unit.At(p)
      case None => Raised
      case Some(op) =>
        if op >= OPCODES then Raised
        else
          match After(unit, op, p + 1)
          case None => Raised
          case Some(next) => Goes(next, Entry(p, op, TargetAt(unit, op, p)))
  }

  /** The listing from `p` on, in at most `turns` turns of the loop. */
  function Disassembled(unit: Unit, p: int, turns: nat): Outcome
    decreases turns
  {
    match TurnAt(unit, p)
    case Ends => Listing([])
    case Raised => Raises
    case Goes(next, entry) => if turns == 0 then Unfinished else Continued([entry], Disassembled(unit, next, turns - 1))
  }

  /** What the listing so far and the rest come to. */
  function Continued(out: seq<Entry>, rest: Outcome): Outcome {
    match rest
    case Listing(entries) => Listing(out + entries)
    case other => other
  }

  /** Read past the operands of the instruction at `off`. */
  method SkipOperands(unit: Unit, op: Byte, off: int) returns (next: Option<int>, target: Option<int>)
    ensures next == After(unit, op, off + 1)
    ensures next.Some? ==> target == TargetAt(unit, op, off)
  {
    hide S32, S16, U16, Unit.At, Unit.Part, Unit.Resolves;
    var p := off + 1;
    target := None;
    if OneByte(op) {
      var v := unit.At(p);
      if v.None? {
        return None, None;
      }
      p := p + 1;
      if op == LDC && !unit.Resolves(v.value) {
        return None, None;
      }
    } else if TwoBytes(op) {
      var v := unit.Part(p, 2);
      if v.None? {
        return None, None;
      }
      p := p + 2;
      if BranchesBy16(op) {
        target := Some(off + S16(unit.Part(p - 2, 2).value));
      }
    } else if op == INVOKEINTERFACE || op == INVOKEDYNAMIC {
      var v := unit.Part(p, 2);
      if v.None? {
        return None, None;
      }
      p := p + 4;
      if !unit.Resolves(U16(v.value)) {
        return None, None;
      }
    } else if op == MULTIANEWARRAY {
      p := p + 3;
    } else if op == WIDE {
      var v := unit.At(p);
      if v.None? {
        return None, None;
      }
      p := p + (if v.value != IINC then 3 else 5);
    } else if op == GOTO_W || op == JSR_W {
      p := p + 4;
    } else if op == TABLESWITCH {
      p := Aligned(p);
      var ends := unit.Part(p + 4, 8);
      if ends.None? {
        return None, None;
      }
      var lo, hi := S32(ends.value[..4]), S32(ends.value[4..]);
      return Some(p + 12 + 4 * (hi - lo + 1)), None;
    } else if op == LOOKUPSWITCH {
      p := Aligned(p);
      var npairs := unit.Part(p + 4, 4);
      if npairs.None? {
        return None, None;
      }
      return Some(p + 8 + 8 * S32(npairs.value)), None;
    }
    next := Some(p);
  }

  /** `dis`, for as many turns as allowed. */
  method Dis(unit: Unit, turns: nat) returns (outcome: Outcome)
    ensures outcome == Disassembled(unit, 0, turns)
  {
    hide After, TargetAt, Unit.At, Unit.Part, Unit.Resolves;
    var p: int := 0;
    var out: seq<Entry> := [];
    var left: nat := turns;
    while p < |unit.code|
      invariant left <= turns
      invariant Continued(out, Disassembled(unit, p, left)) == Disassembled(unit, 0, turns)
      decreases left
    {
      var off := p;
      var op := unit.At(p);
      if op.None? || op.value >= OPCODES {
        return Raises;
      }
      var next, target := SkipOperands(unit, op.value, off);
      if next.None? {
        return Raises;
      }
      if left == 0 {
        return Unfinished;
      }
      out := out + [Entry(off, op.value, target)];
      p, left := next.value, left - 1;
    }
    assert out + [] == out;
    return Listing(out);
  }

  // ---------- Encoding, as the specification lays instructions out ----------

  datatype Insn =
    | Plain(op: Byte)
    | Short(op: Byte, operand: Byte)
    | Long(op: Byte, index: int)
    | Increment(variable: Byte, step: Byte)
    | Branch(op: Byte, delta: int)
    | Interface(index: int, count: Byte)
    | Dynamic(index: int)
    | MultiArray(index: int, dimensions: Byte)
    | WideLocal(op: Byte, index: int)
    | WideIncrement(index: int, amount: int)
    | FarBranch(op: Byte, delta: int)
    | Table(otherwise: int, low: int, deltas: seq<int>)
    | Lookup(otherwise: int, pairs: seq<(int, int)>)

  /** The opcodes section 6.5 gives no operands. */
  predicate NoOperands(op: Byte) {
    || op <= 0x0f              // nop and the constants
    || 0x1a <= op <= 0x35      // loads by short form and from arrays
    || 0x3b <= op <= 0x83      // stores by short form and to arrays, the stack, arithmetic
    || 0x85 <= op <= 0x98      // conversions and comparisons
    || 0xac <= op <= 0xb1      // returns
    || op == 0xbe || op == 0xbf || op == 0xc2 || op == 0xc3
  }

  /** bipush, ldc, the loads and stores of a local, ret, newarray. */
  predicate TakesAByte(op: Byte) {
    op in {0x10, 0x12, 0x15, 0x16, 0x17, 0x18, 0x19, 0x36, 0x37, 0x38, 0x39, 0x3a, 0xa9, 0xbc}
  }

  /** sipush, ldc_w, ldc2_w, fields, methods, new, anewarray, checkcast, instanceof. */
  predicate TakesAnIndex(op: Byte) {
    op in {0x11, 0x13, 0x14, 0xb2, 0xb3, 0xb4, 0xb5, 0xb6, 0xb7, 0xb8, 0xbb, 0xbd, 0xc0, 0xc1}
  }

  /** The comparing branches, goto, jsr, ifnull, ifnonnull. */
  predicate TakesADelta(op: Byte) {
    op in {0x99, 0x9a, 0x9b, 0x9c, 0x9d, 0x9e, 0x9f, 0xa0, 0xa1, 0xa2, 0xa3, 0xa4, 0xa5, 0xa6, 0xa7, 0xa8, 0xc6, 0xc7}
  }

  /** The instructions `wide` makes three bytes longer than themselves. */
  predicate Widens(op: Byte) {
    op in {0x15, 0x16, 0x17, 0x18, 0x19, 0x36, 0x37, 0x38, 0x39, 0x3a, 0xa9}
  }

  ghost predicate WellFormed(insn: Insn) {
    match insn
    case Plain(op) => NoOperands(op)
    case Short(op, _) => TakesAByte(op)
    case Long(op, index) => TakesAnIndex(op) && (IsU16(index) || IsS16(index))
    case Increment(_, _) => true
    case Branch(op, delta) => TakesADelta(op) && IsS16(delta)
    case Interface(index, _) => IsU16(index)
    case Dynamic(index) => IsU16(index)
    case MultiArray(index, _) => IsU16(index)
    case WideLocal(op, index) => Widens(op) && IsU16(index)
    case WideIncrement(index, amount) => IsU16(index) && IsS16(amount)
    case FarBranch(op, delta) => (op == GOTO_W || op == JSR_W) && IsS32(delta)
    case Table(otherwise, low, deltas) =>
      && IsS32(otherwise) && IsS32(low)
      && deltas != [] && low + |deltas| - 1 < 0x8000_0000
      && forall d :: d in deltas ==> IsS32(d)
    case Lookup(otherwise, pairs) =>
      IsS32(otherwise) && |pairs| < 0x8000_0000 && forall pair :: pair in pairs ==> IsS32(pair.0) && IsS32(pair.1)
  }

  function OpcodeOf(insn: Insn): Byte {
    match insn
    case Plain(op) => op
    case Short(op, _) => op
    case Long(op, _) => op
    case Increment(_, _) => IINC
    case Branch(op, _) => op
    case Interface(_, _) => INVOKEINTERFACE
    case Dynamic(_) => INVOKEDYNAMIC
    case MultiArray(_, _) => MULTIANEWARRAY
    case WideLocal(_, _) => WIDE
    case WideIncrement(_, _) => WIDE
    case FarBranch(op, _) => op
    case Table(_, _, _) => TABLESWITCH
    case Lookup(_, _) => LOOKUPSWITCH
  }

  /** The zero bytes that put a switch's operands at a multiple of four from the start of the code. */
  function Padding(off: nat): seq<Byte> {
    seq((3 - off % 4) % 4, _ => 0)
  }

  ghost function PutAll32(ns: seq<int>): seq<Byte>
    requires forall n :: n in ns ==> IsS32(n)
  {
    if ns == [] then [] else Put32(ns[0]) + PutAll32(ns[1..])
  }

  ghost function PutPairs(pairs: seq<(int, int)>): seq<Byte>
    requires forall pair :: pair in pairs ==> IsS32(pair.0) && IsS32(pair.1)
  {
    if pairs == [] then [] else Put32(pairs[0].0) + Put32(pairs[0].1) + PutPairs(pairs[1..])
  }

  ghost function Operands(insn: Insn, off: nat): seq<Byte>
    requires WellFormed(insn)
  {
    match insn
    case Plain(_) => []
    case Short(_, operand) => [operand]
    case Long(_, index) => Put16(index)
    case Increment(variable, step) => [variable, step]
    case Branch(_, delta) => Put16(delta)
    case Interface(index, count) => Put16(index) + [count, 0]
    case Dynamic(index) => Put16(index) + [0, 0]
    case MultiArray(index, dimensions) => Put16(index) + [dimensions]
    case WideLocal(op, index) => [op] + Put16(index)
    case WideIncrement(index, amount) => [IINC] + Put16(index) + Put16(amount)
    case FarBranch(_, delta) => Put32(delta)
    case Table(otherwise, low, deltas) =>
      Padding(off) + Put32(otherwise) + Put32(low) + Put32(low + |deltas| - 1) + PutAll32(deltas)
    case Lookup(otherwise, pairs) =>
      Padding(off) + Put32(otherwise) + Put32(|pairs|) + PutPairs(pairs)
  }

  ghost function Encode(insn: Insn, off: nat): seq<Byte>
    requires WellFormed(insn)
  {
    [OpcodeOf(insn)] + Operands(insn, off)
  }

  ghost predicate AllWellFormed(insns: seq<Insn>) {
    forall i :: 0 <= i < |insns| ==> WellFormed(insns[i])
  }

  /** The code of some instructions, the first at `off`. */
  ghost function Assemble(insns: seq<Insn>, off: nat): seq<Byte>
    requires AllWellFormed(insns)
  {
    if insns == [] then []
    else
      var first := Encode(insns[0], off);
      first + Assemble(insns[1..], off + |first|)
  }

  /** What a listing of them says: each at its offset, under its opcode, with the target of a 16-bit
      branch. */
  ghost function Listed(insns: seq<Insn>, off: nat): seq<Entry>
    requires AllWellFormed(insns)
  {
    if insns == [] then []
    else
      var target := if insns[0].Branch? then Some(off + insns[0].delta) else None;
      [Entry(off, OpcodeOf(insns[0]), target)] + Listed(insns[1..], off + |Encode(insns[0], off)|)
  }

  // ---------- Decoding inverts encoding ----------

  /** The operand of a constant load or a call through the pool, which is resolved without a net. */
  function IndexOf(insn: Insn): Option<nat> {
    match insn
    case Short(op, operand) => if op == LDC then Some(operand) else None
    case Interface(index, _) => if index >= 0 then Some(index) else None
    case Dynamic(index) => if index >= 0 then Some(index) else None
    case _ => None
  }

  /** Its operand is an index of the pool. */
  ghost predicate Indexes(insn: Insn, pool: ClassFile.Pool) {
    IndexOf(insn).Some? ==> IndexOf(insn).value < |pool|
  }

  /** A pool as section 4.4 lays it out, and room for the calls it takes. */
  ghost predicate Sound(unit: Unit) {
    PoolText.WellLinked(unit.pool) && unit.room >= 3
  }

  lemma IndexResolves(unit: Unit, index: nat)
    requires Sound(unit) && index < |unit.pool|
    ensures unit.Resolves(index)
  {
    hide PoolText.WellLinked;
    PoolText.ResEnds(unit.pool, index, unit.room);
  }

  lemma {:induction false} PutAll32Length(ns: seq<int>)
    requires forall n :: n in ns ==> IsS32(n)
    ensures |PutAll32(ns)| == 4 * |ns|
  {
    if ns != [] {
      PutAll32Length(ns[1..]);
    }
  }

  lemma {:induction false} PutPairsLength(pairs: seq<(int, int)>)
    requires forall pair :: pair in pairs ==> IsS32(pair.0) && IsS32(pair.1)
    ensures |PutPairs(pairs)| == 8 * |pairs|
  {
    if pairs != [] {
      PutPairsLength(pairs[1..]);
    }
  }

  lemma PaddingAligns(off: nat)
    ensures Aligned(off + 1) == off + 1 + |Padding(off)|
  {}

  lemma SliceOfACopy(code: seq<Byte>, off: nat, body: seq<Byte>, from: nat, to: nat)
    requires off + |body| <= |code| && code[off..off + |body|] == body
    requires from <= to <= |body|
    ensures code[off + from..off + to] == body[from..to]
  {
    forall k | 0 <= k < to - from ensures code[off + from..off + to][k] == body[from..to][k] {
      assert body[from + k] == code[off..off + |body|][from + k];
    }
  }

  ghost predicate StandsAt(unit: Unit, off: nat, insn: Insn)
    requires WellFormed(insn)
  {
    off + |Encode(insn, off)| <= |unit.code| && unit.code[off..off + |Encode(insn, off)|] == Encode(insn, off)
  }

  lemma OperandsOfATable(unit: Unit, off: nat, insn: Insn)
    requires WellFormed(insn) && insn.Table? && StandsAt(unit, off, insn)
    ensures AfterTable(unit, Aligned(off + 1)) == Some(off + |Encode(insn, off)|)
  {
    hide S32, Put32, PutAll32, Padding, Aligned;
    PaddingAligns(off);
    PutAll32Length(insn.deltas);
    var high := insn.low + |insn.deltas| - 1;
    var body := Encode(insn, off);
    var n := 1 + |Padding(off)|;
    assert body[n + 4..n + 12] == Put32(insn.low) + Put32(high);
    SliceOfACopy(unit.code, off, body, n + 4, n + 12);
    Put32ReadsBack(insn.low);
    Put32ReadsBack(high);
    assert (Put32(insn.low) + Put32(high))[4..] == Put32(high);
    assert (Put32(insn.low) + Put32(high))[..4] == Put32(insn.low);
  }

  lemma OperandsOfALookup(unit: Unit, off: nat, insn: Insn)
    requires WellFormed(insn) && insn.Lookup? && StandsAt(unit, off, insn)
    ensures AfterLookup(unit, Aligned(off + 1)) == Some(off + |Encode(insn, off)|)
  {
    hide S32, Put32, PutPairs, Padding, Aligned;
    PaddingAligns(off);
    PutPairsLength(insn.pairs);
    var body := Encode(insn, off);
    var n := 1 + |Padding(off)|;
    assert body[n + 4..n + 8] == Put32(|insn.pairs|);
    SliceOfACopy(unit.code, off, body, n + 4, n + 8);
    Put32ReadsBack(|insn.pairs|);
  }

  lemma OperandsOfACall(unit: Unit, off: nat, insn: Insn)
    requires WellFormed(insn) && (insn.Interface? || insn.Dynamic?) && StandsAt(unit, off, insn)
    requires Sound(unit) && Indexes(insn, unit.pool)
    ensures After(unit, OpcodeOf(insn), off + 1) == Some(off + |Encode(insn, off)|)
  {
    hide S32, S16, U16, Put16, PoolText.WellLinked;
    var body := Encode(insn, off);
    assert body[1..3] == Put16(insn.index);
    SliceOfACopy(unit.code, off, body, 1, 3);
    Put16ReadsBack(insn.index);
    IndexResolves(unit, insn.index);
  }

  lemma OperandsOfAByte(unit: Unit, off: nat, insn: Insn)
    requires WellFormed(insn) && insn.Short? && StandsAt(unit, off, insn)
    requires Sound(unit) && Indexes(insn, unit.pool)
    ensures After(unit, OpcodeOf(insn), off + 1) == Some(off + |Encode(insn, off)|)
  {
    hide PoolText.WellLinked;
    var body := Encode(insn, off);
    assert unit.code[off + 1] == body[1] == insn.operand;
    if insn.op == LDC {
      IndexResolves(unit, insn.operand);
    }
  }

  lemma OperandsOfTheRest(unit: Unit, off: nat, insn: Insn)
    requires WellFormed(insn) && StandsAt(unit, off, insn)
    requires !insn.Short? && !insn.Interface? && !insn.Dynamic? && !insn.Table? && !insn.Lookup?
    ensures After(unit, OpcodeOf(insn), off + 1) == Some(off + |Encode(insn, off)|)
  {
    hide S32, S16, U16;
    var body := Encode(insn, off);
    if insn.WideLocal? || insn.WideIncrement? {
      assert unit.code[off + 1] == body[1];
    }
  }

  lemma TargetOfABranch(unit: Unit, off: nat, insn: Insn)
    requires WellFormed(insn) && StandsAt(unit, off, insn)
    ensures TargetAt(unit, OpcodeOf(insn), off) == if insn.Branch? then Some(off + insn.delta) else None
  {
    hide S32, S16, U16, Put16, Put32;
    var body := Encode(insn, off);
    if insn.Branch? {
      assert body[1..3] == Put16(insn.delta);
      SliceOfACopy(unit.code, off, body, 1, 3);
      Put16ReadsBack(insn.delta);
    }
  }

  /** The cursor lands exactly after an encoded instruction, and a branch is read where it goes. */
  lemma OneInstruction(unit: Unit, off: nat, insn: Insn)
    requires WellFormed(insn) && StandsAt(unit, off, insn)
    requires Sound(unit) && Indexes(insn, unit.pool)
    ensures TurnAt(unit, off)
            == Goes(off + |Encode(insn, off)|,
              Entry(off, OpcodeOf(insn), if insn.Branch? then Some(off + insn.delta) else None))
  {
    hide After, TargetAt, Operands, Sound;
    var body := Encode(insn, off);
    assert unit.code[off] == body[0];
    TargetOfABranch(unit, off, insn);
    match insn
    case Table(_, _, _) =>
      OperandsOfATable(unit, off, insn);
      AfterIsTheTable(unit, off + 1);
    case Lookup(_, _) =>
      OperandsOfALookup(unit, off, insn);
      AfterIsTheTable(unit, off + 1);
    case Interface(_, _) => OperandsOfACall(unit, off, insn);
    case Dynamic(_) => OperandsOfACall(unit, off, insn);
    case Short(_, _) => OperandsOfAByte(unit, off, insn);
    case _ => OperandsOfTheRest(unit, off, insn);
  }

  lemma AfterIsTheTable(unit: Unit, p: int)
    ensures After(unit, TABLESWITCH, p) == AfterTable(unit, Aligned(p))
    ensures After(unit, LOOKUPSWITCH, p) == AfterLookup(unit, Aligned(p))
  {}

  ghost predicate AllIndex(insns: seq<Insn>, pool: ClassFile.Pool) {
    forall i :: 0 <= i < |insns| ==> Indexes(insns[i], pool)
  }

  /** Disassembly inverts assembly: given a turn for each, the listing ends at the end of the code and has one
      entry per instruction, at its true offset, under its opcode, with its 16-bit branch's target. The
      operands that are resolved without a net are indices of a pool as section 4.4 lays it out. */
  lemma {:induction false} DisassemblyInvertsAssembly(
    before: seq<Byte>, insns: seq<Insn>, pool: ClassFile.Pool, room: nat, turns: nat)
    requires AllWellFormed(insns) && AllIndex(insns, pool) && PoolText.WellLinked(pool) && room >= 3 && turns >= |insns|
    ensures Disassembled(Unit(before + Assemble(insns, |before|), pool, room), |before|, turns)
            == Listing(Listed(insns, |before|))
    decreases |insns|
  {
    hide WellFormed, Encode, Disassembled, Assemble, Listed, PoolText.WellLinked, Indexes;
    InParts(before, insns, pool, room, turns);
    if insns != [] {
      assert AllWellFormed(insns[1..]) && AllIndex(insns[1..], pool);
      DisassemblyInvertsAssembly(before + Encode(insns[0], |before|), insns[1..], pool, room, turns - 1);
      OneMore(before, insns, pool, room, turns);
    }
  }

  lemma InParts(before: seq<Byte>, insns: seq<Insn>, pool: ClassFile.Pool, room: nat, turns: nat)
    requires AllWellFormed(insns)
    ensures insns == [] ==>
              Disassembled(Unit(before + Assemble(insns, |before|), pool, room), |before|, turns) == Listing([])
                && Listed(insns, |before|) == []
    ensures insns != [] ==>
              && AllWellFormed(insns[1..]) && WellFormed(insns[0])
              && Listed(insns, |before|) != []
              && Listed(insns, |before|)[1..] == Listed(insns[1..], |before| + |Encode(insns[0], |before|)|)
  {
    hide Encode, WellFormed;
    if insns == [] {
      assert before + Assemble(insns, |before|) == before;
    }
  }

  lemma OneMore(before: seq<Byte>, insns: seq<Insn>, pool: ClassFile.Pool, room: nat, turns: nat)
    requires AllWellFormed(insns) && AllIndex(insns, pool) && PoolText.WellLinked(pool) && room >= 3 && insns != []
             && turns > 0
    ensures var off := |before|;
            var first := Encode(insns[0], off);
            var rest := (before + first) + Assemble(insns[1..], off + |first|);
            var code := before + Assemble(insns, off);
            && code == rest
            && Disassembled(Unit(code, pool, room), off, turns)
               == Continued([Listed(insns, off)[0]], Disassembled(Unit(rest, pool, room), off + |first|, turns - 1))
  {
    hide Encode, TurnAt, Indexes, WellFormed, PoolText.WellLinked;
    var off := |before|;
    var first := Encode(insns[0], off);
    var rest := Assemble(insns[1..], off + |first|);
    var code := before + Assemble(insns, off);
    assert code == (before + first) + rest;
    assert code[off..off + |first|] == first;
    OneInstruction(Unit(code, pool, room), off, insns[0]);
  }

  // ---------- Indices as Python has them ----------

  /** Where an end of a slice falls in a sequence of length `n`: below zero it counts from the end, and it stops at
      either end. */
  function Clipped(i: int, n: nat): nat {
    if i < 0 then (if i + n < 0 then 0 else i + n) else if i > n then n else i
  }

  /** `s[i:j]` */
  function PythonSlice(s: seq<Byte>, i: int, j: int): seq<Byte> {
    if Clipped(i, |s|) <= Clipped(j, |s|) then s[Clipped(i, |s|)..Clipped(j, |s|)] else []
  }

  /** A byte is read at an index of the code counted from either end, and numbers are unpacked from a slice that has to
      be as long as they are. */
  lemma ReadsAsPython(unit: Unit, p: int, k: nat)
    ensures unit.At(p).Some? <==> -|unit.code| <= p < |unit.code|
    ensures unit.At(p).Some? ==> unit.At(p).value == unit.code[if p < 0 then |unit.code| + p else p]
    ensures k > 0 ==>
              unit.Part(p, k) == if |PythonSlice(unit.code, p, p + k)| == k then Some(PythonSlice(unit.code, p, p + k))
                                 else None
  {}

  // ---------- What raises, on any code ----------

  /** How many bytes after the opcode have to be there to be read: an operand, an index, the instruction `wide`
      widens, and after the padding the two ends of a table's range or the number of a lookup's pairs. */
  function BytesRead(op: Byte, off: nat): nat {
    if TakesAByte(op) || op == WIDE then 1
    else if TakesAnIndex(op) || TakesADelta(op) || op == IINC || op == INVOKEINTERFACE || op == INVOKEDYNAMIC then 2
    else if op == TABLESWITCH then (3 - off % 4) % 4 + 12
    else if op == LOOKUPSWITCH then (3 - off % 4) % 4 + 8
    else 0
  }

  /** The operand that is resolved without a net. */
  function Unguarded(unit: Unit, off: nat): Option<nat>
    requires off < |unit.code|
  {
    var op := unit.code[off];
    if op == LDC && off + 1 < |unit.code| then Some(unit.code[off + 1])
    else if (op == INVOKEINTERFACE || op == INVOKEDYNAMIC) && off + 2 < |unit.code| then
      var high: int := unit.code[off + 1];
      Some(high * 256 + unit.code[off + 2])
    else None
  }

  /** In the code a turn raises exactly on an opcode that is none, on operands that are cut off, and on an operand
      that does not resolve. */
  lemma RaisesExactly(unit: Unit, off: nat)
    requires off < |unit.code|
    ensures var op := unit.code[off];
            TurnAt(unit, off).Raised?
            <==> || op > 201
                 || off + BytesRead(op, off) >= |unit.code|
                 || (Unguarded(unit, off).Some? && !unit.Resolves(Unguarded(unit, off).value))
  {
    hide S32, Unit.Resolves, AfterTable, AfterLookup;
    SwitchRaises(unit, off);
  }

  lemma SwitchRaises(unit: Unit, off: nat)
    requires off < |unit.code|
    ensures AfterTable(unit, Aligned(off + 1)).None? <==> off + BytesRead(TABLESWITCH, off) >= |unit.code|
    ensures AfterLookup(unit, Aligned(off + 1)).None? <==> off + BytesRead(LOOKUPSWITCH, off) >= |unit.code|
  {
    hide S32;
  }

  /** Every opcode of the specification is one an instruction is written under. */
  lemma EveryOpcodeIsWritten(op: Byte)
    ensures op <= 201 <==> exists insn :: WellFormed(insn) && OpcodeOf(insn) == op
  {
    if op <= 201 {
      var insn := if NoOperands(op) then Plain(op)
                  else if TakesAByte(op) then Short(op, 0)
                  else if TakesAnIndex(op) then Long(op, 0)
                  else if TakesADelta(op) then Branch(op, 0)
                  else if op == IINC then Increment(0, 0)
                  else if op == TABLESWITCH then Table(0, 0, [0])
                  else if op == LOOKUPSWITCH then Lookup(0, [])
                  else if op == INVOKEINTERFACE then Interface(0, 0)
                  else if op == INVOKEDYNAMIC then Dynamic(0)
                  else if op == WIDE then WideIncrement(0, 0)
                  else if op == MULTIANEWARRAY then MultiArray(0, 0)
                  else FarBranch(op, 0);
      assert WellFormed(insn) && OpcodeOf(insn) == op;
    }
  }

  // ---------- When the loop ends, on any code ----------

  /** The cursor after `k` turns, while the loop goes on. */
  function Cursor(unit: Unit, p: int, k: nat): Option<int>
    decreases k
  {
    if k == 0 then Some(p)
    else
      match TurnAt(unit, p)
      case Goes(next, _) => Cursor(unit, next, k - 1)
      case _ => None
  }

  lemma {:induction false} CursorStays(unit: Unit, p: int, k: nat, turns: nat)
    ensures Disassembled(unit, p, turns).Unfinished? <==> Cursor(unit, p, turns + 1).Some?
    ensures k <= turns && Cursor(unit, p, turns).Some? ==> Cursor(unit, p, k).Some?
    ensures !Disassembled(unit, p, turns).Unfinished? && k >= turns
            ==> Disassembled(unit, p, k) == Disassembled(unit, p, turns)
    decreases turns
  {
    hide TurnAt;
    var turn := TurnAt(unit, p);
    if turns > 0 && turn.Goes? {
      CursorStays(unit, turn.next, if k > 0 then k - 1 else 0, turns - 1);
    }
  }

  lemma {:induction false} CursorInTwo(unit: Unit, p: int, a: nat, b: nat)
    requires Cursor(unit, p, a).Some?
    ensures Cursor(unit, p, a + b) == Cursor(unit, Cursor(unit, p, a).value, b)
    decreases a
  {
    hide TurnAt;
    if a > 0 {
      CursorInTwo(unit, TurnAt(unit, p).next, a - 1, b);
    }
  }

  /** The cursor comes back to where it has been. */
  ghost predicate ComesBack(unit: Unit, p: int) {
    exists a: nat, b: nat :: BackAt(unit, p, a, b)
  }

  ghost predicate BackAt(unit: Unit, p: int, a: nat, b: nat) {
    a < b && Cursor(unit, p, b).Some? && Cursor(unit, p, a) == Cursor(unit, p, b)
  }

  /** A cursor from which the loop goes on is in the code, counted from either end. */
  lemma InTheCode(unit: Unit, p: int)
    requires TurnAt(unit, p).Goes?
    ensures -|unit.code| <= p < |unit.code|
  {}

  function Cursors(unit: Unit, p: int, k: nat): (ps: seq<int>)
    requires Cursor(unit, p, k).Some?
    ensures |ps| == k
    decreases k
  {
    if k == 0 then [] else [p] + Cursors(unit, TurnAt(unit, p).next, k - 1)
  }

  lemma {:induction false} CursorsAre(unit: Unit, p: int, k: nat, i: nat)
    requires Cursor(unit, p, k).Some? && i < k
    ensures Cursor(unit, p, i) == Some(Cursors(unit, p, k)[i]) && TurnAt(unit, Cursors(unit, p, k)[i]).Goes?
    decreases k
  {
    hide TurnAt;
    if i > 0 {
      CursorsAre(unit, TurnAt(unit, p).next, k - 1, i - 1);
    }
  }

  lemma LongRunComesBack(unit: Unit, p: int)
    requires Cursor(unit, p, 2 * |unit.code| + 1).Some?
    ensures ComesBack(unit, p)
  {
    hide TurnAt, Cursor;
    var k := 2 * |unit.code| + 1;
    var ps := Cursors(unit, p, k);
    forall i | 0 <= i < |ps| ensures -|unit.code| <= ps[i] < |unit.code| {
      CursorsAre(unit, p, k, i);
      InTheCode(unit, ps[i]);
    }
    var a, b := Repeats(ps, -|unit.code|, |unit.code|);
    CursorsAre(unit, p, k, a);
    CursorsAre(unit, p, k, b);
    assert BackAt(unit, p, a, b);
  }

  lemma {:induction false} BackGoesOn(unit: Unit, p: int, a: nat, b: nat, k: nat)
    requires BackAt(unit, p, a, b)
    ensures Cursor(unit, p, k).Some?
    decreases k
  {
    hide Cursor;
    if k <= b {
      EarlierCursor(unit, p, k, b);
    } else {
      BackGoesOn(unit, p, a, b, k - (b - a));
      CursorInTwo(unit, p, b, k - b);
      CursorInTwo(unit, p, a, k - b);
    }
  }

  lemma EarlierCursor(unit: Unit, p: int, k: nat, b: nat)
    requires k <= b && Cursor(unit, p, b).Some?
    ensures Cursor(unit, p, k).Some?
  {
    CursorStays(unit, p, k, b);
  }

  /** On any code the loop ends exactly when the cursor never comes back to where it has been, and then within
      twice as many turns as the code has bytes. */
  lemma EndsExactly(unit: Unit, p: int, turns: nat)
    ensures (exists t: nat :: !Disassembled(unit, p, t).Unfinished?) <==> !ComesBack(unit, p)
    ensures !ComesBack(unit, p) <==> !Disassembled(unit, p, 2 * |unit.code|).Unfinished?
    ensures !ComesBack(unit, p) && turns >= 2 * |unit.code|
            ==> Disassembled(unit, p, turns) == Disassembled(unit, p, 2 * |unit.code|)
  {
    hide Cursor, Disassembled;
    CursorStays(unit, p, turns, 2 * |unit.code|);
    if Disassembled(unit, p, 2 * |unit.code|).Unfinished? {
      LongRunComesBack(unit, p);
    }
    if ComesBack(unit, p) {
      var a: nat, b: nat :| BackAt(unit, p, a, b);
      forall t: nat ensures Disassembled(unit, p, t).Unfinished? {
        BackGoesOn(unit, p, a, b, t + 1);
        CursorStays(unit, p, 0, t);
      }
    }
  }

  /** A turn sends the cursor back exactly on a switch whose count is negative enough. */
  lemma OnlySwitchesGoBack(unit: Unit, p: int)
    requires TurnAt(unit, p).Goes?
    ensures var q := Aligned(p + 1);
            TurnAt(unit, p).next <= p <==>
              || (unit.At(p) == Some(TABLESWITCH)
                  && q + 12 + 4 * (S32(unit.Part(q + 4, 8).value[4..]) - S32(unit.Part(q + 4, 8).value[..4]) + 1) <= p)
              || (unit.At(p) == Some(LOOKUPSWITCH) && q + 8 + 8 * S32(unit.Part(q + 4, 4).value) <= p)
  {
    hide S32;
  }

  /** How many entries the switch at `p` counts, where there is one and it can be read. */
  function SwitchCount(unit: Unit, p: int): Option<int> {
    var q := Aligned(p + 1);
    if unit.At(p) == Some(TABLESWITCH) && unit.Part(q + 4, 8).Some? then
      Some(S32(unit.Part(q + 4, 8).value[4..]) - S32(unit.Part(q + 4, 8).value[..4]) + 1)
    else if unit.At(p) == Some(LOOKUPSWITCH) && unit.Part(q + 4, 4).Some? then Some(S32(unit.Part(q + 4, 4).value))
    else None
  }

  lemma BackOnlyOnANegativeCount(unit: Unit, p: int)
    requires TurnAt(unit, p).Goes? && TurnAt(unit, p).next <= p
    ensures SwitchCount(unit, p).Some? && SwitchCount(unit, p).value < 0
  {
    hide S32;
    OnlySwitchesGoBack(unit, p);
  }

  /** Told from the bytes: where no place from `p` on reads as a switch with a negative count, the loop from `p`
      ends within a turn for each byte left. */
  lemma {:induction false} EndsWithNoNegativeCount(unit: Unit, p: nat, turns: nat)
    requires forall q :: p <= q < |unit.code| && SwitchCount(unit, q).Some? ==> SwitchCount(unit, q).value >= 0
    requires p + turns >= |unit.code|
    ensures !Disassembled(unit, p, turns).Unfinished?
    decreases turns
  {
    hide TurnAt, SwitchCount;
    if TurnAt(unit, p).Goes? {
      InTheCode(unit, p);
      if TurnAt(unit, p).next <= p {
        BackOnlyOnANegativeCount(unit, p);
      }
      EndsWithNoNegativeCount(unit, TurnAt(unit, p).next, turns - 1);
    }
  }

  // ---------- Codes that send the cursor back ----------

  /** A switch on the range from 5 down to 0, `at` bytes into the code. */
  const EMPTY_RANGE: seq<Byte> := [TABLESWITCH, 0, 0, 0, 0, 0, 0, 0, 0, 0, 0, 5, 0, 0, 0, 0]

  lemma EmptyRangeReads(ends: seq<Byte>)
    requires ends == [0, 0, 0, 5, 0, 0, 0, 0]
    ensures S32(ends[..4]) == 5 && S32(ends[4..]) == 0
  {
    assert ends[..4] == [0, 0, 0, 5] && ends[4..] == [0, 0, 0, 0];
    assert [0, 0, 0, 5][2..] == [0, 5];
  }

  /** At the start of the code such a switch has the cursor come back to it, and the loop never ends. */
  lemma {:induction false} ASwitchOnAnEmptyRangeNeverEnds(pool: ClassFile.Pool, room: nat, turns: nat)
    ensures Disassembled(Unit(EMPTY_RANGE, pool, room), 0, turns).Unfinished?
    decreases turns
  {
    hide S32;
    assert EMPTY_RANGE[8..16] == [0, 0, 0, 5, 0, 0, 0, 0];
    EmptyRangeReads(EMPTY_RANGE[8..16]);
    assert TurnAt(Unit(EMPTY_RANGE, pool, room), 0).Goes? && TurnAt(Unit(EMPTY_RANGE, pool, room), 0).next == 0;
    if turns > 0 {
      ASwitchOnAnEmptyRangeNeverEnds(pool, room, turns - 1);
    }
  }

  /** Bytes that are opcodes without operands are listed one by one. */
  lemma {:induction false} PlainBytesList(unit: Unit, p: nat)
    requires p <= |unit.code| && forall i :: p <= i < |unit.code| ==> unit.code[i] <= 0x0f
    ensures Disassembled(unit, p, |unit.code| - p).Listing?
    decreases |unit.code| - p
  {
    if p < |unit.code| {
      PlainBytesList(unit, p + 1);
    }
  }

  /** Further on it sends the cursor into its own padding, where `wide` takes it past the switch: there the
      loop ends although the cursor went back. */
  const BACK_AND_ON: seq<Byte> := [0, 0, 0, BIPUSH, WIDE, TABLESWITCH, 0, 0, 0, 0, 0, 0, 0, 0, 0, 5, 0, 0, 0, 0]

  lemma TurnsOfBackAndOn(pool: ClassFile.Pool, room: nat)
    ensures var unit := Unit(BACK_AND_ON, pool, room);
            TurnsTo(unit, 0, 1) && TurnsTo(unit, 1, 2) && TurnsTo(unit, 2, 3)
  {}

  lemma TurnsOverOperands(pool: ClassFile.Pool, room: nat)
    ensures TurnsTo(Unit(BACK_AND_ON, pool, room), 3, 5)
    ensures TurnsTo(Unit(BACK_AND_ON, pool, room), 4, 8)
  {}

  lemma TurnsBack(pool: ClassFile.Pool, room: nat)
    ensures TurnsTo(Unit(BACK_AND_ON, pool, room), 5, 4)
  {
    hide S32;
    var unit := Unit(BACK_AND_ON, pool, room);
    assert unit.Part(12, 8) == Some(BACK_AND_ON[12..20]);
    assert BACK_AND_ON[12..20] == [0, 0, 0, 5, 0, 0, 0, 0];
    EmptyRangeReads(BACK_AND_ON[12..20]);
  }

  predicate TurnsTo(unit: Unit, p: int, next: int) {
    TurnAt(unit, p).Goes? && TurnAt(unit, p).next == next
  }

  lemma ASwitchSentBackMayEnd(pool: ClassFile.Pool, room: nat)
    ensures var unit := Unit(BACK_AND_ON, pool, room);
            Cursor(unit, 0, 4) == Some(5) && Cursor(unit, 0, 5) == Some(4) && Disassembled(unit, 0, 18).Listing?
  {
    hide Disassembled, TurnAt;
    var unit := Unit(BACK_AND_ON, pool, room);
    TurnsOfBackAndOn(pool, room);
    TurnsOverOperands(pool, room);
    TurnsBack(pool, room);
    PlainBytesList(unit, 8);
    ListsOneMore(unit, 4, 12);
    ListsOneMore(unit, 5, 13);
    ListsOneMore(unit, 3, 14);
    ListsOneMore(unit, 2, 15);
    ListsOneMore(unit, 1, 16);
    ListsOneMore(unit, 0, 17);
    assert Cursor(unit, 3, 1) == Cursor(unit, 5, 0) && Cursor(unit, 3, 2) == Cursor(unit, 5, 1) == Cursor(unit, 4, 0);
    assert Cursor(unit, 2, 2) == Some(5) && Cursor(unit, 2, 3) == Some(4);
    assert Cursor(unit, 1, 3) == Some(5) && Cursor(unit, 1, 4) == Some(4);
  }

  lemma ListsOneMore(unit: Unit, p: int, turns: nat)
    requires TurnAt(unit, p).Goes? && Disassembled(unit, TurnAt(unit, p).next, turns).Listing?
    ensures Disassembled(unit, p, turns + 1).Listing?
  {}
}
