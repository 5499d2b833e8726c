/** The class-file reader of the class disassembler (class-disassembler.py), held against the layout
    of sections 4.1, 4.4, 4.6 and 4.7 of the Java Virtual Machine Specification. */
module ClassFile {
  import opened Common
  import opened Bytes

  datatype RefKind = Class | Str | MethodType | Module | Package
  datatype PairKind = Field | Method | InterfaceMethod | NameAndType | Dynamic | InvokeDynamic

  /** An entry of the constant pool. The text of a Utf8 entry is its bytes: how they are decoded is
      not part of the model. */
  datatype Entry =
    | Utf8(text: seq<Byte>)
    | Number(integer: int)
    | Number8(raw: seq<Byte>)
    | Ref(kind: RefKind, index: nat)
    | Pair(pairKind: PairKind, first: nat, second: nat)
    | Handle(handle: seq<Byte>)

  type Pool = seq<Option<Entry>>

  datatype Attribute = Attribute(name: Entry, info: seq<Byte>)
  datatype MethodInfo = MethodInfo(name: Entry, descriptor: Entry, attributes: seq<Attribute>)
  datatype Parsed = Parsed(pool: Pool, methods: seq<MethodInfo>)

  // ---------- Reading ----------

  /** `d[p:p+k]`, which stops at the end of the file. */
  function Slice(d: seq<Byte>, p: nat, k: nat): seq<Byte> {
    if p >= |d| then [] else if p + k > |d| then d[p..] else d[p..p + k]
  }

  /** A number unpacked at `p`, which fails past the end. */
  function U16At(d: seq<Byte>, p: nat): Option<nat> {
    if p + 2 <= |d| then Some(U16(d[p..p + 2])) else None
  }

  function U32At(d: seq<Byte>, p: nat): Option<nat> {
    if p + 4 <= |d| then Some(U32(d[p..p + 4])) else None
  }

  function RefOf(tag: Byte): Option<RefKind> {
    if tag == 7 then Some(Class) else if tag == 8 then Some(Str) else if tag == 16 then Some(MethodType)
    else if tag == 19 then Some(Module) else if tag == 20 then Some(Package) else None
  }

  function PairOf(tag: Byte): Option<PairKind> {
    if tag == 9 then Some(Field) else if tag == 10 then Some(Method) else if tag == 11 then Some(InterfaceMethod)
    else if tag == 12 then Some(NameAndType)
    else if tag == 17 then Some(Dynamic)
    else if tag == 18 then Some(InvokeDynamic)
    else None
  }

  /** One entry read: what is stored, where the cursor is then and how many slots it takes. */
  datatype EntryRead = EntryRead(entry: Option<Entry>, next: nat, slots: nat)

  /** The entry at `p`. A tag the reader does not know stores nothing and skips only the tag. */
  function ReadEntry(d: seq<Byte>, p: nat): Option<EntryRead> {
    if p >= |d| then None
    else
      var tag := d[p];
      var p := p + 1;
      if tag == 1 then
        match U16At(d, p)
        case None => None
        case Some(l) => Some(EntryRead(Some(Utf8(Slice(d, p + 2, l))), p + 2 + l, 1))
      else if tag == 3 || tag == 4 then
        (if p + 4 <= |d| then Some(EntryRead(Some(Number(S32(d[p..p + 4]))), p + 4, 1)) else None)
      else if tag == 5 || tag == 6 then Some(EntryRead(Some(Number8(Slice(d, p, 8))), p + 8, 2))
      else if RefOf(tag).Some? then
        match U16At(d, p)
        case None => None
        case Some(i) => Some(EntryRead(Some(Ref(RefOf(tag).value, i)), p + 2, 1))
      else if PairOf(tag).Some? then
        match (U16At(d, p), U16At(d, p + 2))
        case (Some(a), Some(b)) => Some(EntryRead(Some(Pair(PairOf(tag).value, a, b)), p + 4, 1))
        case _ => None
      else if tag == 15 then Some(EntryRead(Some(Handle(Slice(d, p, 3))), p + 3, 1))
      else Some(EntryRead(None, p, 1))
  }

  /** What each tag takes, after section 4.4, a string but its text: four bytes for an integer and a float, eight and
      two slots for a long and a double, an index or two, three for a method handle. A tag of no entry takes no
      more, and only an entry that cannot be unpacked raises. */
  lemma TagsTake(d: seq<Byte>, p: nat)
    requires p < |d|
    ensures var tag, read := d[p], ReadEntry(d, p);
            var known := 3 <= tag <= 12 || tag in [1, 15, 16, 17, 18, 19, 20];
            var unpacked := if tag in [3, 4, 9, 10, 11, 12, 17, 18] then 4
                            else if tag in [1, 7, 8, 16, 19, 20] then 2 else 0;
            && (read.None? <==> p + 1 + unpacked > |d|)
            && (read.Some? ==>
                  && (read.value.entry.Some? <==> known)
                  && read.value.slots == (if tag == 5 || tag == 6 then 2 else 1)
                  && read.value.next == p + 1 + (if tag == 5 || tag == 6 then 8
                                                 else if tag == 15 then 3
                                                 else if tag == 1 then 2 + U16(d[p + 1..p + 3])
                                                 else unpacked))
  {
    hide U16, S32, Slice;
  }

  /** The slots from `i` on of a pool of `n`, and the cursor after it. */
  function ReadPool(d: seq<Byte>, p: nat, i: nat, n: nat): (r: Option<(Pool, nat)>)
    requires i <= n
    ensures r.Some? ==> |r.value.0| == n - i
    decreases n - i
  {
    if i == n then Some(([], p))
    else
      match ReadEntry(d, p)
      case None => None
      case Some(read) =>
        if read.slots == 2 && i + 2 <= n then
          match ReadPool(d, read.next, i + 2, n)
          case None => None
          case Some(rest) => Some(([read.entry, None] + rest.0, rest.1))
        else
          match ReadPool(d, read.next, i + 1, n)
          case None => None
          case Some(rest) => Some(([read.entry] + rest.0, rest.1))
  }

  /** `cp[i][1]`, which fails on an index outside the pool or on an empty slot. */
  function Named(pool: Pool, i: nat): Option<Entry> {
    if i < |pool| then pool[i] else None
  }

  function ReadAttribute(d: seq<Byte>, p: nat, pool: Pool): Option<(Attribute, nat)> {
    match (U16At(d, p), U32At(d, p + 2))
    case (Some(nameIndex), Some(length)) =>
      (match Named(pool, nameIndex)
       case Some(name) => Some((Attribute(name, Slice(d, p + 6, length)), p + 6 + length))
       case None => None)
    case _ => None
  }

  function ReadAttributes(d: seq<Byte>, p: nat, count: nat, pool: Pool): Option<(seq<Attribute>, nat)>
    decreases count
  {
    if count == 0 then Some(([], p))
    else
      match ReadAttribute(d, p, pool)
      case None => None
      case Some(one) =>
        match ReadAttributes(d, one.1, count - 1, pool)
        case None => None
        case Some(rest) => Some(([one.0] + rest.0, rest.1))
  }

  function ReadAttributeTable(d: seq<Byte>, p: nat, pool: Pool): Option<(seq<Attribute>, nat)> {
    match U16At(d, p)
    case None => None
    case Some(count) => ReadAttributes(d, p + 2, count, pool)
  }

  function SkipFields(d: seq<Byte>, p: nat, count: nat, pool: Pool): Option<nat>
    decreases count
  {
    if count == 0 then Some(p)
    else
      match ReadAttributeTable(d, p + 6, pool)
      case None => None
      case Some(read) => SkipFields(d, read.1, count - 1, pool)
  }

  function ReadMethod(d: seq<Byte>, p: nat, pool: Pool): Option<(MethodInfo, nat)> {
    if p + 6 > |d| then None
    else
      match ReadAttributeTable(d, p + 6, pool)
      case None => None
      case Some(read) =>
        match (Named(pool, U16(d[p + 2..p + 4])), Named(pool, U16(d[p + 4..p + 6])))
        case (Some(name), Some(descriptor)) => Some((MethodInfo(name, descriptor, read.0), read.1))
        case _ => None
  }

  function ReadMethods(d: seq<Byte>, p: nat, count: nat, pool: Pool): Option<seq<MethodInfo>>
    decreases count
  {
    if count == 0 then Some([])
    else
      match ReadMethod(d, p, pool)
      case None => None
      case Some(one) =>
        match ReadMethods(d, one.1, count - 1, pool)
        case None => None
        case Some(rest) => Some([one.0] + rest)
  }

  /** The part after the pool: the class's own numbers, its interfaces and fields, which are only
      stepped over, and its methods. */
  function ReadMembers(d: seq<Byte>, p: nat, pool: Pool): Option<seq<MethodInfo>> {
    if p + 8 > |d| then None
    else
      var p := p + 8 + 2 * U16(d[p + 6..p + 8]);
      match U16At(d, p)
      case None => None
      case Some(fields) =>
        match SkipFields(d, p + 2, fields, pool)
        case None => None
        case Some(p) =>
          match U16At(d, p)
          case None => None
          case Some(methods) => ReadMethods(d, p + 2, methods, pool)
  }

  /** `parse`, or nothing where it raises. The pool's first slot is not used. */
  function Parse(d: seq<Byte>): Option<Parsed> {
    match U16At(d, 8)
    case None => None
    case Some(n) =>
      match ReadPool(d, 10, if n == 0 then 0 else 1, n)
      case None => None
      case Some(read) =>
        var pool := if n == 0 then [] else [None] + read.0;
        match ReadMembers(d, read.1, pool)
        case None => None
        case Some(methods) => Some(Parsed(pool, methods))
  }

  // ---------- What raises ----------

  /** The index in two bytes names an entry of the pool. */
  predicate NamesAnEntry(d: seq<Byte>, p: nat, pool: Pool)
    requires p + 2 <= |d|
  {
    var high, low: int := d[p], d[p + 1];
    256 * high + low < |pool| && pool[256 * high + low].Some?
  }

  /** An attribute raises exactly when its six leading bytes are cut off or its name is no entry; its own bytes may be
      cut off. A method raises on its six bytes, its attributes, and a name or a descriptor that is no entry. */
  lemma MembersRaiseExactly(d: seq<Byte>, p: nat, pool: Pool)
    ensures ReadAttribute(d, p, pool).None? <==> p + 6 > |d| || !NamesAnEntry(d, p, pool)
    ensures ReadAttribute(d, p, pool).Some? ==>
              && p + 6 + |ReadAttribute(d, p, pool).value.0.info| <= |d|
              && (ReadAttribute(d, p, pool).value.1 <= |d| ==>
                    ReadAttribute(d, p, pool).value.0.info == d[p + 6..ReadAttribute(d, p, pool).value.1])
    ensures ReadMethod(d, p, pool).None?
            <==> || p + 6 > |d|
                 || ReadAttributeTable(d, p + 6, pool).None?
                 || !NamesAnEntry(d, p + 2, pool) || !NamesAnEntry(d, p + 4, pool)
  {
    hide ReadAttributes, U32;
    if p + 6 <= |d| {
      assert d[p..p + 2][0] == d[p] && d[p..p + 2][1] == d[p + 1];
      assert d[p + 2..p + 4][0] == d[p + 2] && d[p + 2..p + 4][1] == d[p + 3];
      assert d[p + 4..p + 6][0] == d[p + 4] && d[p + 4..p + 6][1] == d[p + 5];
    }
  }

  // ---------- The reader's own loops ----------

  /** What was read so far before the rest. */
  function Onto<T>(done: seq<T>, rest: Option<(seq<T>, nat)>): Option<(seq<T>, nat)> {
    match rest
    case Some(read) => Some((done + read.0, read.1))
    case None => None
  }

  lemma OntoTwice<T>(a: seq<T>, b: seq<T>, rest: Option<(seq<T>, nat)>)
    ensures Onto(a + b, rest) == Onto(a, Onto(b, rest))
  {
    if rest.Some? {
      assert a + b + rest.value.0 == a + (b + rest.value.0);
    }
  }

  lemma OntoNothing<T>(rest: Option<(seq<T>, nat)>)
    ensures Onto([], rest) == rest
  {
    if rest.Some? {
      assert [] + rest.value.0 == rest.value.0;
    }
  }

  lemma PoolStep(d: seq<Byte>, p: nat, i: nat, n: nat)
    requires i < n
    ensures var read := ReadEntry(d, p);
            ReadPool(d, p, i, n) ==
            if read.None? then None
            else if read.value.slots == 2 && i + 2 <= n then
              Onto([read.value.entry, None], ReadPool(d, read.value.next, i + 2, n))
            else Onto([read.value.entry], ReadPool(d, read.value.next, i + 1, n))
  {
    hide ReadEntry;
  }

  /** The loop that fills the pool by index. */
  method FillPool(d: seq<Byte>, n: nat) returns (filled: Option<(Pool, nat)>)
    requires n >= 1
    ensures filled == Onto([None], ReadPool(d, 10, 1, n))
  {
    var pool: Pool := seq(n, _ => None);
    var p: nat, i: nat := 10, 1;
    assert pool[..1] == [None];
    while i < n
      invariant 1 <= i <= n && |pool| == n
      invariant forall k :: i <= k < n ==> pool[k] == None
      invariant Onto(pool[..i], ReadPool(d, p, i, n)) == Onto([None], ReadPool(d, 10, 1, n))
    {
      hide ReadEntry, ReadPool;
      PoolStep(d, p, i, n);
      var read := ReadEntry(d, p);
      if read.None? {
        return None;
      }
      ghost var before := pool[..i];
      pool := pool[i := read.value.entry];
      p := read.value.next;
      if read.value.slots == 2 && i + 2 <= n {
        assert pool[..i + 2] == before + [read.value.entry, None];
        OntoTwice(before, [read.value.entry, None], ReadPool(d, p, i + 2, n));
        i := i + 2;
      } else {
        assert pool[..i + 1] == before + [read.value.entry];
        OntoTwice(before, [read.value.entry], ReadPool(d, p, i + 1, n));
        i := i + 1;
      }
    }
    assert pool[..i] == pool && pool + [] == pool;
    return Some((pool, p));
  }

  method FillAttributes(d: seq<Byte>, from: nat, pool: Pool) returns (table: Option<(seq<Attribute>, nat)>)
    ensures table == ReadAttributeTable(d, from, pool)
  {
    var count := U16At(d, from);
    if count.None? {
      return None;
    }
    var total: nat := count.value;
    var p: nat, out := from + 2, [];
    OntoNothing(ReadAttributes(d, p, total, pool));
    for k := 0 to total
      invariant Onto(out, ReadAttributes(d, p, total - k, pool)) == ReadAttributeTable(d, from, pool)
    {
      hide ReadAttribute;
      var one := ReadAttribute(d, p, pool);
      if one.None? {
        return None;
      }
      OntoTwice(out, [one.value.0], ReadAttributes(d, one.value.1, total - k - 1, pool));
      out := out + [one.value.0];
      p := one.value.1;
    }
    assert out + [] == out;
    return Some((out, p));
  }

  method ParseFile(d: seq<Byte>) returns (parsed: Option<Parsed>)
    ensures parsed == Parse(d)
  {
    var n := U16At(d, 8);
    if n.None? {
      return None;
    }
    var p: nat, pool: Pool := 10, [];
    if n.value > 0 {
      var filled := FillPool(d, n.value);
      if filled.None? {
        return None;
      }
      pool, p := filled.value.0, filled.value.1;
    }
    var methods := FillMembers(d, p, pool);
    parsed := match methods case Some(ms) => Some(Parsed(pool, ms)) case None => None;
  }

  method SkipAll(d: seq<Byte>, from: nat, count: nat, pool: Pool) returns (next: Option<nat>)
    ensures next == SkipFields(d, from, count, pool)
  {
    var p: nat := from;
    for k := 0 to count
      invariant SkipFields(d, p, count - k, pool) == SkipFields(d, from, count, pool)
    {
      var read := FillAttributes(d, p + 6, pool);
      if read.None? {
        return None;
      }
      p := read.value.1;
    }
    return Some(p);
  }

  method FillMembers(d: seq<Byte>, from: nat, pool: Pool) returns (methods: Option<seq<MethodInfo>>)
    ensures methods == ReadMembers(d, from, pool)
  {
    if from + 8 > |d| {
      return None;
    }
    var p: nat := from + 8 + 2 * U16(d[from + 6..from + 8]);
    var fields := U16At(d, p);
    if fields.None? {
      return None;
    }
    var skipped := SkipAll(d, p + 2, fields.value, pool);
    if skipped.None? {
      return None;
    }
    p := skipped.value;
    var count := U16At(d, p);
    if count.None? {
      return None;
    }
    methods := FillMethods(d, p + 2, count.value, pool);
  }

  /** The methods read so far before the rest. */
  function Before(done: seq<MethodInfo>, rest: Option<seq<MethodInfo>>): Option<seq<MethodInfo>> {
    match rest case Some(ms) => Some(done + ms) case None => None
  }

  method FillMethods(d: seq<Byte>, from: nat, count: nat, pool: Pool) returns (methods: Option<seq<MethodInfo>>)
    ensures methods == ReadMethods(d, from, count, pool)
  {
    var p: nat, out: seq<MethodInfo> := from, [];
    BeforeNothing(ReadMethods(d, from, count, pool));
    for k := 0 to count
      invariant Before(out, ReadMethods(d, p, count - k, pool)) == ReadMethods(d, from, count, pool)
    {
      hide ReadMethod;
      var one := FillMethod(d, p, pool);
      if one.None? {
        return None;
      }
      BeforeTwice(out, one.value.0, ReadMethods(d, one.value.1, count - k - 1, pool));
      out := out + [one.value.0];
      p := one.value.1;
    }
    assert out + [] == out;
    return Some(out);
  }

  lemma BeforeNothing(rest: Option<seq<MethodInfo>>)
    ensures Before([], rest) == rest
  {
    if rest.Some? {
      assert [] + rest.value == rest.value;
    }
  }

  lemma BeforeTwice(a: seq<MethodInfo>, b: MethodInfo, rest: Option<seq<MethodInfo>>)
    ensures Before(a + [b], rest) == Before(a, Before([b], rest))
  {
    if rest.Some? {
      assert a + [b] + rest.value == a + ([b] + rest.value);
    }
  }

  method FillMethod(d: seq<Byte>, p: nat, pool: Pool) returns (one: Option<(MethodInfo, nat)>)
    ensures one == ReadMethod(d, p, pool)
  {
    if p + 6 > |d| {
      return None;
    }
    var name, descriptor := U16(d[p + 2..p + 4]), U16(d[p + 4..p + 6]);
    var table := FillAttributes(d, p + 6, pool);
    if table.None? || Named(pool, name).None? || Named(pool, descriptor).None? {
      return None;
    }
    return Some((MethodInfo(Named(pool, name).value, Named(pool, descriptor).value, table.value.0), table.value.1));
  }

  // ---------- Class files as the specification lays them out ----------

  datatype AttributeBytes = AttributeBytes(name: nat, info: seq<Byte>)
  datatype Member = Member(access: nat, name: nat, descriptor: nat, attributes: seq<AttributeBytes>)

  /** An entry as a file holds it: a number of four or eight bytes is written as an integer or a long, or as the
      float or the double of the same bits. */
  datatype Constant = Constant(entry: Entry, floating: bool)

  datatype File = File(
    head: seq<Byte>,
    entries: seq<Constant>,
    access: nat,
    thisClass: nat,
    superClass: nat,
    interfaces: seq<nat>,
    fields: seq<Member>,
    methods: seq<Member>,
    tail: seq<Byte>)

  function TagOfRef(kind: RefKind): Byte {
    match kind
    case Class => 7
    case Str => 8
    case MethodType => 16
    case Module => 19
    case Package => 20
  }

  function TagOfPair(kind: PairKind): Byte {
    match kind
    case Field => 9
    case Method => 10
    case InterfaceMethod => 11
    case NameAndType => 12
    case Dynamic => 17
    case InvokeDynamic => 18
  }

  predicate EntryFits(e: Entry) {
    match e
    case Utf8(text) => IsU16(|text|)
    case Number(integer) => IsS32(integer)
    case Number8(raw) => |raw| == 8
    case Ref(_, index) => IsU16(index)
    case Pair(_, first, second) => IsU16(first) && IsU16(second)
    case Handle(raw) => |raw| == 3
  }

  function PutEntry(c: Constant): seq<Byte>
    requires EntryFits(c.entry)
  {
    match c.entry
    case Utf8(text) => [1] + Put16(|text|) + text
    case Number(integer) => [if c.floating then 4 else 3] + Put32(integer)
    case Number8(raw) => [if c.floating then 6 else 5] + raw
    case Ref(kind, index) => [TagOfRef(kind)] + Put16(index)
    case Pair(kind, first, second) => [TagOfPair(kind)] + Put16(first) + Put16(second)
    case Handle(raw) => [15] + raw
  }

  predicate AllFit(entries: seq<Constant>) {
    forall i :: 0 <= i < |entries| ==> EntryFits(entries[i].entry)
  }

  function PutEntries(entries: seq<Constant>): seq<Byte>
    requires AllFit(entries)
  {
    if entries == [] then [] else PutEntry(entries[0]) + PutEntries(entries[1..])
  }

  /** The slots an entry takes. */
  function SlotsOf(entry: Entry): Pool {
    if entry.Number8? then [Some(entry), None] else [Some(entry)]
  }

  /** The slots the entries take: a long and a double take two, the second unused. */
  function Slots(entries: seq<Constant>): Pool {
    if entries == [] then []
    else SlotsOf(entries[0].entry) + Slots(entries[1..])
  }

  function PoolOf(entries: seq<Constant>): Pool {
    [None] + Slots(entries)
  }

  /** An index of a Utf8 entry, as the specification asks of a name and a descriptor. */
  predicate NamesText(pool: Pool, i: nat) {
    IsU16(i) && i < |pool| && pool[i].Some? && pool[i].value.Utf8?
  }

  predicate AttributeFits(a: AttributeBytes, pool: Pool) {
    NamesText(pool, a.name) && IsU32(|a.info|)
  }

  predicate AttributesFit(attributes: seq<AttributeBytes>, pool: Pool) {
    forall i :: 0 <= i < |attributes| ==> AttributeFits(attributes[i], pool)
  }

  predicate MemberFits(m: Member, pool: Pool) {
    && IsU16(m.access) && NamesText(pool, m.name) && NamesText(pool, m.descriptor)
    && IsU16(|m.attributes|) && AttributesFit(m.attributes, pool)
  }

  predicate MembersFit(ms: seq<Member>, pool: Pool) {
    forall i :: 0 <= i < |ms| ==> MemberFits(ms[i], pool)
  }

  predicate FileFits(f: File) {
    var pool := PoolOf(f.entries);
    && |f.head| == 8 && AllFit(f.entries) && IsU16(|pool|)
    && IsU16(f.access) && IsU16(f.thisClass) && IsU16(f.superClass)
    && IsU16(|f.interfaces|) && (forall i :: 0 <= i < |f.interfaces| ==> IsU16(f.interfaces[i]))
    && IsU16(|f.fields|) && MembersFit(f.fields, pool)
    && IsU16(|f.methods|) && MembersFit(f.methods, pool)
  }

  function PutIndices(indices: seq<nat>): seq<Byte>
    requires forall i :: 0 <= i < |indices| ==> IsU16(indices[i])
  {
    if indices == [] then [] else Put16(indices[0]) + PutIndices(indices[1..])
  }

  function PutAttribute(a: AttributeBytes, pool: Pool): seq<Byte>
    requires AttributeFits(a, pool)
  {
    Put16(a.name) + Put32(|a.info|) + a.info
  }

  function PutAttributes(attributes: seq<AttributeBytes>, pool: Pool): seq<Byte>
    requires AttributesFit(attributes, pool)
  {
    if attributes == [] then [] else PutAttribute(attributes[0], pool) + PutAttributes(attributes[1..], pool)
  }

  function PutMember(m: Member, pool: Pool): seq<Byte>
    requires MemberFits(m, pool)
  {
    Put16(m.access) + Put16(m.name) + Put16(m.descriptor) + Put16(|m.attributes|) + PutAttributes(m.attributes, pool)
  }

  function PutMembers(ms: seq<Member>, pool: Pool): seq<Byte>
    requires MembersFit(ms, pool)
  {
    if ms == [] then [] else PutMember(ms[0], pool) + PutMembers(ms[1..], pool)
  }

  /** The class's own numbers, its fields and its methods. */
  function PutOwn(f: File): seq<Byte>
    requires FileFits(f)
  {
    Put16(f.access) + Put16(f.thisClass) + Put16(f.superClass) + (Put16(|f.interfaces|) + PutIndices(f.interfaces))
  }

  function PutTable(ms: seq<Member>, pool: Pool): seq<Byte>
    requires IsU16(|ms|) && MembersFit(ms, pool)
  {
    Put16(|ms|) + PutMembers(ms, pool)
  }

  function Serialise(f: File): seq<Byte>
    requires FileFits(f)
  {
    var pool := PoolOf(f.entries);
    f.head + (Put16(|pool|) + (PutEntries(f.entries)
      + (PutOwn(f) + (PutTable(f.fields, pool) + (PutTable(f.methods, pool) + f.tail)))))
  }

  // ---------- What the methods of a file are ----------

  function AttributeOf(a: AttributeBytes, pool: Pool): Attribute
    requires AttributeFits(a, pool)
  {
    Attribute(pool[a.name].value, a.info)
  }

  function AttributesOf(attributes: seq<AttributeBytes>, pool: Pool): seq<Attribute>
    requires AttributesFit(attributes, pool)
  {
    if attributes == [] then [] else [AttributeOf(attributes[0], pool)] + AttributesOf(attributes[1..], pool)
  }

  function MethodOf(m: Member, pool: Pool): MethodInfo
    requires MemberFits(m, pool)
  {
    MethodInfo(pool[m.name].value, pool[m.descriptor].value, AttributesOf(m.attributes, pool))
  }

  function MethodsOf(ms: seq<Member>, pool: Pool): seq<MethodInfo>
    requires MembersFit(ms, pool)
  {
    if ms == [] then [] else [MethodOf(ms[0], pool)] + MethodsOf(ms[1..], pool)
  }

  // ---------- Reading back ----------

  /** `part` stands at `p` of the file. */
  ghost predicate StandsAt(d: seq<Byte>, p: nat, part: seq<Byte>) {
    p + |part| <= |d| && d[p..p + |part|] == part
  }

  lemma StandsInTwo(d: seq<Byte>, p: nat, a: seq<Byte>, b: seq<Byte>)
    requires StandsAt(d, p, a + b)
    ensures StandsAt(d, p, a) && StandsAt(d, p + |a|, b)
  {
    var whole := d[p..p + |a + b|];
    assert whole[..|a|] == a && whole[|a|..] == b;
    assert d[p..p + |a|] == whole[..|a|];
    assert d[p + |a|..p + |a| + |b|] == whole[|a|..];
  }

  lemma Reads16(d: seq<Byte>, p: nat, n: nat)
    requires IsU16(n) && StandsAt(d, p, Put16(n))
    ensures U16At(d, p) == Some(n)
  {
    Put16ReadsBack(n);
  }

  lemma Reads32(d: seq<Byte>, p: nat, n: nat)
    requires IsU32(n) && StandsAt(d, p, Put32(n))
    ensures U32At(d, p) == Some(n)
  {
    Put32ReadsBack(n);
  }

  lemma ReadsSlice(d: seq<Byte>, p: nat, part: seq<Byte>)
    requires StandsAt(d, p, part)
    ensures Slice(d, p, |part|) == part
  {
    if p + |part| == |d| {
      assert d[p..] == d[p..|d|];
    }
  }

  /** The body of an entry stands after its tag. */
  ghost predicate StandsTagged(d: seq<Byte>, p: nat, c: Constant)
    requires EntryFits(c.entry)
  {
    p < |d| && d[p] == PutEntry(c)[0] && StandsAt(d, p + 1, PutEntry(c)[1..])
  }

  ghost predicate ReadsAsIs(d: seq<Byte>, p: nat, c: Constant)
    requires EntryFits(c.entry)
  {
    ReadEntry(d, p) == Some(EntryRead(Some(c.entry), p + |PutEntry(c)|, if c.entry.Number8? then 2 else 1))
  }

  lemma TextReadsBack(d: seq<Byte>, p: nat, c: Constant)
    requires c.entry.Utf8? && EntryFits(c.entry) && StandsTagged(d, p, c)
    ensures ReadsAsIs(d, p, c)
  {
    hide Put16, U16At, Slice;
    var text := c.entry.text;
    assert PutEntry(c)[1..] == Put16(|text|) + text;
    StandsInTwo(d, p + 1, Put16(|text|), text);
    Reads16(d, p + 1, |text|);
    ReadsSlice(d, p + 3, text);
  }

  lemma NumberReadsBack(d: seq<Byte>, p: nat, c: Constant)
    requires c.entry.Number? && EntryFits(c.entry) && StandsTagged(d, p, c)
    ensures ReadsAsIs(d, p, c)
  {
    hide Put32, S32;
    assert PutEntry(c)[1..] == Put32(c.entry.integer);
    Put32ReadsBack(c.entry.integer);
  }

  lemma RawReadsBack(d: seq<Byte>, p: nat, c: Constant)
    requires (c.entry.Number8? || c.entry.Handle?) && EntryFits(c.entry) && StandsTagged(d, p, c)
    ensures ReadsAsIs(d, p, c)
  {
    hide Slice;
    var raw := if c.entry.Number8? then c.entry.raw else c.entry.handle;
    assert PutEntry(c)[1..] == raw;
    ReadsSlice(d, p + 1, raw);
  }

  lemma IndexReadsBack(d: seq<Byte>, p: nat, c: Constant)
    requires c.entry.Ref? && EntryFits(c.entry) && StandsTagged(d, p, c)
    ensures ReadsAsIs(d, p, c)
  {
    hide Put16, U16At;
    assert PutEntry(c)[1..] == Put16(c.entry.index);
    Reads16(d, p + 1, c.entry.index);
  }

  lemma PairReadsBack(d: seq<Byte>, p: nat, c: Constant)
    requires c.entry.Pair? && EntryFits(c.entry) && StandsTagged(d, p, c)
    ensures ReadsAsIs(d, p, c)
  {
    hide Put16, U16At;
    var first, second := c.entry.first, c.entry.second;
    assert PutEntry(c)[1..] == Put16(first) + Put16(second);
    StandsInTwo(d, p + 1, Put16(first), Put16(second));
    Reads16(d, p + 1, first);
    Reads16(d, p + 3, second);
  }

  lemma EntryReadsBack(d: seq<Byte>, p: nat, c: Constant)
    requires EntryFits(c.entry) && StandsAt(d, p, PutEntry(c))
    ensures ReadEntry(d, p) == Some(EntryRead(Some(c.entry), p + |PutEntry(c)|, if c.entry.Number8? then 2 else 1))
  {
    hide PutEntry, ReadEntry;
    var body := PutEntry(c);
    assert body != [] by { EveryEntryHasATag(c); }
    assert body == [body[0]] + body[1..];
    StandsInTwo(d, p, [body[0]], body[1..]);
    assert d[p] == d[p..p + 1][0];
    match c.entry
    case Utf8(_) => TextReadsBack(d, p, c);
    case Number(_) => NumberReadsBack(d, p, c);
    case Number8(_) => RawReadsBack(d, p, c);
    case Ref(_, _) => IndexReadsBack(d, p, c);
    case Pair(_, _, _) => PairReadsBack(d, p, c);
    case Handle(_) => RawReadsBack(d, p, c);
  }

  lemma EveryEntryHasATag(c: Constant)
    requires EntryFits(c.entry)
    ensures PutEntry(c) != []
  {}

  lemma PoolInParts(entries: seq<Constant>)
    requires AllFit(entries) && entries != []
    ensures AllFit(entries[1..]) && EntryFits(entries[0].entry)
    ensures PutEntries(entries) == PutEntry(entries[0]) + PutEntries(entries[1..])
    ensures Slots(entries)
            == (if entries[0].entry.Number8? then [Some(entries[0].entry), None] else [Some(entries[0].entry)])
               + Slots(entries[1..])
  {}

  lemma {:induction false} PoolReadsBack(d: seq<Byte>, p: nat, i: nat, entries: seq<Constant>)
    requires AllFit(entries) && StandsAt(d, p, PutEntries(entries))
    ensures ReadPool(d, p, i, i + |Slots(entries)|) == Some((Slots(entries), p + |PutEntries(entries)|))
    decreases |entries|
  {
    hide PutEntry, ReadEntry, EntryFits, AllFit, PutEntries, Slots, ReadPool, StandsAt;
    if entries == [] {
      EmptyPool(d, p, i);
    } else {
      PoolInParts(entries);
      FirstOfPool(d, p, i, entries);
      PoolReadsBack(d, p + |PutEntry(entries[0])|, if entries[0].entry.Number8? then i + 2 else i + 1, entries[1..]);
    }
  }

  lemma EmptyPool(d: seq<Byte>, p: nat, i: nat)
    ensures Slots([]) == [] && PutEntries([]) == [] && ReadPool(d, p, i, i) == Some(([], p))
  {}

  lemma FirstOfPool(d: seq<Byte>, p: nat, i: nat, entries: seq<Constant>)
    requires AllFit(entries) && entries != [] && StandsAt(d, p, PutEntries(entries))
    ensures AllFit(entries[1..]) && EntryFits(entries[0].entry)
    ensures var n := i + |Slots(entries)|;
            var q := p + |PutEntry(entries[0])|;
            && StandsAt(d, q, PutEntries(entries[1..]))
            && ReadPool(d, p, i, n) ==
               if entries[0].entry.Number8? then Onto([Some(entries[0].entry), None], ReadPool(d, q, i + 2, n))
               else Onto([Some(entries[0].entry)], ReadPool(d, q, i + 1, n))
  {
    hide PutEntry, ReadEntry, EntryFits, AllFit, PutEntries, Slots, ReadPool, StandsAt;
    PoolInParts(entries);
    StandsInTwo(d, p, PutEntry(entries[0]), PutEntries(entries[1..]));
    EntryReadsBack(d, p, entries[0]);
    PoolStep(d, p, i, i + |Slots(entries)|);
  }

  lemma AttributeReadsBack(d: seq<Byte>, p: nat, a: AttributeBytes, pool: Pool)
    requires AttributeFits(a, pool) && StandsAt(d, p, PutAttribute(a, pool))
    ensures ReadAttribute(d, p, pool) == Some((AttributeOf(a, pool), p + |PutAttribute(a, pool)|))
  {
    hide Put16, Put32, U16At, U32At, Slice;
    assert PutAttribute(a, pool) == Put16(a.name) + (Put32(|a.info|) + a.info);
    StandsInTwo(d, p, Put16(a.name), Put32(|a.info|) + a.info);
    StandsInTwo(d, p + 2, Put32(|a.info|), a.info);
    Reads16(d, p, a.name);
    Reads32(d, p + 2, |a.info|);
    ReadsSlice(d, p + 6, a.info);
  }

  lemma {:induction false} AttributesReadBack(d: seq<Byte>, p: nat, attributes: seq<AttributeBytes>, pool: Pool)
    requires AttributesFit(attributes, pool) && StandsAt(d, p, PutAttributes(attributes, pool))
    ensures ReadAttributes(d, p, |attributes|, pool)
            == Some((AttributesOf(attributes, pool), p + |PutAttributes(attributes, pool)|))
    decreases |attributes|
  {
    hide PutAttribute, ReadAttribute, AttributeFits, AttributeOf;
    if attributes != [] {
      StandsInTwo(d, p, PutAttribute(attributes[0], pool), PutAttributes(attributes[1..], pool));
      AttributeReadsBack(d, p, attributes[0], pool);
      AttributesReadBack(d, p + |PutAttribute(attributes[0], pool)|, attributes[1..], pool);
    }
  }

  /** A member's six leading bytes and its attributes. */
  lemma MemberReadsBack(d: seq<Byte>, p: nat, m: Member, pool: Pool)
    requires MemberFits(m, pool) && StandsAt(d, p, PutMember(m, pool))
    ensures ReadAttributeTable(d, p + 6, pool) == Some((AttributesOf(m.attributes, pool), p + |PutMember(m, pool)|))
    ensures ReadMethod(d, p, pool) == Some((MethodOf(m, pool), p + |PutMember(m, pool)|))
  {
    hide Put16, PutAttributes, ReadAttributes, U16;
    var table := Put16(|m.attributes|) + PutAttributes(m.attributes, pool);
    assert PutMember(m, pool) == Put16(m.access) + (Put16(m.name) + (Put16(m.descriptor) + table));
    StandsInTwo(d, p, Put16(m.access), Put16(m.name) + (Put16(m.descriptor) + table));
    StandsInTwo(d, p + 2, Put16(m.name), Put16(m.descriptor) + table);
    StandsInTwo(d, p + 4, Put16(m.descriptor), table);
    StandsInTwo(d, p + 6, Put16(|m.attributes|), PutAttributes(m.attributes, pool));
    Reads16(d, p + 2, m.name);
    Reads16(d, p + 4, m.descriptor);
    Reads16(d, p + 6, |m.attributes|);
    AttributesReadBack(d, p + 8, m.attributes, pool);
  }

  lemma MembersInParts(ms: seq<Member>, pool: Pool)
    requires MembersFit(ms, pool)
    ensures ms == [] ==> PutMembers(ms, pool) == [] && MethodsOf(ms, pool) == []
    ensures ms != [] ==>
              && MemberFits(ms[0], pool) && MembersFit(ms[1..], pool)
              && PutMembers(ms, pool) == PutMember(ms[0], pool) + PutMembers(ms[1..], pool)
              && MethodsOf(ms, pool) == [MethodOf(ms[0], pool)] + MethodsOf(ms[1..], pool)
  {}

  lemma {:induction false} FieldsAreSkipped(d: seq<Byte>, p: nat, ms: seq<Member>, pool: Pool)
    requires MembersFit(ms, pool) && StandsAt(d, p, PutMembers(ms, pool))
    ensures SkipFields(d, p, |ms|, pool) == Some(p + |PutMembers(ms, pool)|)
    decreases |ms|
  {
    hide PutMember, ReadAttributeTable, MemberFits, MembersFit, StandsAt, PutMembers;
    MembersInParts(ms, pool);
    if ms != [] {
      StandsInTwo(d, p, PutMember(ms[0], pool), PutMembers(ms[1..], pool));
      MemberReadsBack(d, p, ms[0], pool);
      FieldsAreSkipped(d, p + |PutMember(ms[0], pool)|, ms[1..], pool);
    }
  }

  lemma {:induction false} MethodsReadBack(d: seq<Byte>, p: nat, ms: seq<Member>, pool: Pool)
    requires MembersFit(ms, pool) && StandsAt(d, p, PutMembers(ms, pool))
    ensures ReadMethods(d, p, |ms|, pool) == Some(MethodsOf(ms, pool))
    decreases |ms|
  {
    hide PutMember, ReadMethod, MemberFits, MethodOf, MembersFit, StandsAt, PutMembers, MethodsOf;
    MembersInParts(ms, pool);
    if ms != [] {
      StandsInTwo(d, p, PutMember(ms[0], pool), PutMembers(ms[1..], pool));
      MemberReadsBack(d, p, ms[0], pool);
      MethodsReadBack(d, p + |PutMember(ms[0], pool)|, ms[1..], pool);
    }
  }

  lemma {:induction false} IndicesLength(indices: seq<nat>)
    requires forall i :: 0 <= i < |indices| ==> IsU16(indices[i])
    ensures |PutIndices(indices)| == 2 * |indices|
  {
    if indices != [] {
      IndicesLength(indices[1..]);
    }
  }

  lemma MembersReadBack(d: seq<Byte>, p: nat, f: File, pool: Pool)
    requires FileFits(f) && pool == PoolOf(f.entries)
    requires StandsAt(d, p, PutOwn(f))
    requires StandsAt(d, p + |PutOwn(f)|, PutTable(f.fields, pool))
    requires StandsAt(d, p + |PutOwn(f)| + |PutTable(f.fields, pool)|, PutTable(f.methods, pool))
    ensures ReadMembers(d, p, pool) == Some(MethodsOf(f.methods, pool))
  {
    hide Put16, PutMembers, PutIndices, ReadMethods, SkipFields, MemberFits, MembersFit, MethodsOf, U16;
    var three := Put16(f.access) + Put16(f.thisClass) + Put16(f.superClass);
    StandsInTwo(d, p, three, Put16(|f.interfaces|) + PutIndices(f.interfaces));
    StandsInTwo(d, p + 6, Put16(|f.interfaces|), PutIndices(f.interfaces));
    Reads16(d, p + 6, |f.interfaces|);
    IndicesLength(f.interfaces);
    var q := p + |PutOwn(f)|;
    StandsInTwo(d, q, Put16(|f.fields|), PutMembers(f.fields, pool));
    Reads16(d, q, |f.fields|);
    FieldsAreSkipped(d, q + 2, f.fields, pool);
    var r := q + 2 + |PutMembers(f.fields, pool)|;
    StandsInTwo(d, r, Put16(|f.methods|), PutMembers(f.methods, pool));
    Reads16(d, r, |f.methods|);
    MethodsReadBack(d, r + 2, f.methods, pool);
  }

  lemma PartsStand(f: File)
    requires FileFits(f)
    ensures var d, pool := Serialise(f), PoolOf(f.entries);
            var p := 10 + |PutEntries(f.entries)|;
            var q := p + |PutOwn(f)|;
            && StandsAt(d, 8, Put16(|pool|))
            && StandsAt(d, 10, PutEntries(f.entries))
            && StandsAt(d, p, PutOwn(f))
            && StandsAt(d, q, PutTable(f.fields, pool))
            && StandsAt(d, q + |PutTable(f.fields, pool)|, PutTable(f.methods, pool))
  {
    hide PutEntries, PutOwn, PutTable, Put16, StandsAt;
    var d, pool := Serialise(f), PoolOf(f.entries);
    var four := PutTable(f.methods, pool) + f.tail;
    var three := PutTable(f.fields, pool) + four;
    var two := PutOwn(f) + three;
    var one := PutEntries(f.entries) + two;
    var p := 10 + |PutEntries(f.entries)|;
    StandsWhole(d);
    StandsInTwo(d, 0, f.head, Put16(|pool|) + one);
    StandsInTwo(d, 8, Put16(|pool|), one);
    StandsInTwo(d, 10, PutEntries(f.entries), two);
    StandsInTwo(d, p, PutOwn(f), three);
    StandsInTwo(d, p + |PutOwn(f)|, PutTable(f.fields, pool), four);
    StandsInTwo(d, p + |PutOwn(f)| + |PutTable(f.fields, pool)|, PutTable(f.methods, pool), f.tail);
  }

  lemma StandsWhole(d: seq<Byte>)
    ensures StandsAt(d, 0, d)
  {}

  /** Parsing inverts serialisation: the pool comes back with its two-slot entries, and every method
      with its name, its descriptor and its attributes' bytes, in order. */
  lemma ParseInvertsSerialise(f: File)
    requires FileFits(f)
    ensures var pool := PoolOf(f.entries);
            Parse(Serialise(f)) == Some(Parsed(pool, MethodsOf(f.methods, pool)))
  {
    hide Put16, PutEntries, PutOwn, PutTable, ReadMembers, MethodsOf, U16At, StandsAt, Slots, Serialise, ReadPool;
    var d, pool := Serialise(f), PoolOf(f.entries);
    PartsStand(f);
    Reads16(d, 8, |pool|);
    PoolReadsBack(d, 10, 1, f.entries);
    MembersReadBack(d, 10 + |PutEntries(f.entries)|, f, pool);
  }
}
