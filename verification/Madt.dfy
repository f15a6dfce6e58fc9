/** The ACPI MADT parser and the enumeration of AP targets (kernel/kernel.c, lines 2921-3039 and
    3254-3293; section 5.2.12 of the ACPI Specification). */
module Madt {
  import opened Words
  import opened MemoryMap

  const HEADER: nat := 36
  const FIRST_ENTRY: nat := 44
  const MAX_CPUS: nat := 32
  const MAX_LENGTH: nat := 1024 * 1024

  datatype AcpiError = AcpiOk | BadMadt | BadEntry | BadRange

  datatype Cpu = Cpu(uid: u32, apicId: u32, flags: u32, x2apic: bool)

  /** The fields of `acpi_info_t` that the parser writes. */
  datatype Info = Info(error: AcpiError, base: u64, flags: u32, enabled: nat, cpus: seq<Cpu>)

  // ----- little-endian numbers

  function Le32(p: seq<u8>): (n: u32)
    requires |p| == 4
  {
    var b0: int, b1: int, b2: int, b3: int := p[0], p[1], p[2], p[3];
    b0 + 0x100 * b1 + 0x1_0000 * b2 + 0x100_0000 * b3
  }

  function Bytes32(n: u32): (p: seq<u8>)
    ensures |p| == 4
  {
    [n % 0x100, n / 0x100 % 0x100, n / 0x1_0000 % 0x100, n / 0x100_0000]
  }

  function Le64(p: seq<u8>): (n: u64)
    requires |p| == 8
  {
    Le32(p[..4]) + 0x1_0000_0000 * Le32(p[4..])
  }

  function Bytes64(n: u64): (p: seq<u8>)
    ensures |p| == 8
  {
    Bytes32(n % 0x1_0000_0000) + Bytes32(n / 0x1_0000_0000)
  }

  lemma Le32OfBytes(n: u32)
    ensures Le32(Bytes32(n)) == n
  {
    var a := n / 0x100;
    var b := a / 0x100;
    assert n / 0x1_0000 == b && n / 0x100_0000 == b / 0x100;
  }

  lemma Bytes32OfLe(p: seq<u8>)
    requires |p| == 4
    ensures Bytes32(Le32(p)) == p
  {
    var n := Le32(p);
    var b1: int, b2: int, b3: int := p[1], p[2], p[3];
    assert n / 0x100 == b1 + 0x100 * b2 + 0x1_0000 * b3;
    assert n / 0x1_0000 == b2 + 0x100 * b3;
    assert n / 0x100_0000 == b3;
  }

  lemma Le64OfBytes(n: u64)
    ensures Le64(Bytes64(n)) == n
  {
    hide Le32, Bytes32;
    Le32OfBytes(n % 0x1_0000_0000);
    Le32OfBytes(n / 0x1_0000_0000);
    assert Bytes64(n)[..4] == Bytes32(n % 0x1_0000_0000) && Bytes64(n)[4..] == Bytes32(n / 0x1_0000_0000);
  }

  lemma Bytes64OfLe(p: seq<u8>)
    requires |p| == 8
    ensures Bytes64(Le64(p)) == p
  {
    hide Le32, Bytes32;
    Bytes32OfLe(p[..4]);
    Bytes32OfLe(p[4..]);
    assert Le64(p) % 0x1_0000_0000 == Le32(p[..4]) && Le64(p) / 0x1_0000_0000 == Le32(p[4..]);
    assert p[..4] + p[4..] == p;
  }

  // ----- entries

  /** A MADT entry; reserved bytes and bytes past the known fields are kept, so that decoding loses
      nothing.  `Other` is any entry that the parser skips. */
  datatype MadtEntry =
    | LocalApic(uid: u8, apicId: u8, flags: u32, tail: seq<u8>)
    | AddressOverride(reserved: seq<u8>, address: u64, tail: seq<u8>)
    | LocalX2Apic(reserved: seq<u8>, x2Id: u32, flags: u32, x2Uid: u32, tail: seq<u8>)
    | Other(kind: u8, body: seq<u8>)

  predicate WellFormed(e: MadtEntry) {
    match e
    case LocalApic(_, _, _, tail) => |tail| <= 247
    case AddressOverride(reserved, _, tail) => |reserved| == 2 && |tail| <= 243
    case LocalX2Apic(reserved, _, _, _, tail) => |reserved| == 2 && |tail| <= 239
    case Other(kind, body) =>
      |body| <= 253 && (kind == 0 ==> |body| < 6) && (kind == 5 ==> |body| < 10) && (kind == 9 ==> |body| < 14)
  }

  function Body(e: MadtEntry): (b: seq<u8>) {
    match e
    case LocalApic(uid, apicId, flags, tail) => [uid, apicId] + Bytes32(flags) + tail
    case AddressOverride(reserved, address, tail) => reserved + Bytes64(address) + tail
    case LocalX2Apic(reserved, apicId, flags, uid, tail) => reserved + Bytes32(apicId) + Bytes32(flags) + Bytes32(uid) + tail
    case Other(_, body) => body
  }

  function Kind(e: MadtEntry): (k: u8) {
    match e
    case LocalApic(_, _, _, _) => 0
    case AddressOverride(_, _, _) => 5
    case LocalX2Apic(_, _, _, _, _) => 9
    case Other(kind, _) => kind
  }

  function Encode(e: MadtEntry): (b: seq<u8>)
    requires WellFormed(e)
    ensures 2 <= |b| <= 255 && b[1] == |b|
  {
    [Kind(e), |Body(e)| + 2] + Body(e)
  }

  /** The entry with these bytes, length byte included. */
  predicate Framed(b: seq<u8>) {
    2 <= |b| && b[1] == |b|
  }

  function Decode(b: seq<u8>): (e: MadtEntry)
    requires Framed(b)
  {
    if b[0] == 0 && |b| >= 8 then LocalApic(b[2], b[3], Le32(b[4..8]), b[8..])
    else if b[0] == 5 && |b| >= 12 then AddressOverride(b[2..4], Le64(b[4..12]), b[12..])
    else if b[0] == 9 && |b| >= 16 then LocalX2Apic(b[2..4], Le32(b[4..8]), Le32(b[8..12]), Le32(b[12..16]), b[16..])
    else Other(b[0], b[2..])
  }

  lemma DecodeLocalApic(e: MadtEntry)
    requires WellFormed(e) && e.LocalApic?
    ensures Decode(Encode(e)) == e
  {
    hide Le32, Bytes32, Le64, Bytes64;
    var b := Encode(e);
    Le32OfBytes(e.flags);
    assert b[4..8] == Bytes32(e.flags) && b[8..] == e.tail;
  }

  lemma DecodeOverride(e: MadtEntry)
    requires WellFormed(e) && e.AddressOverride?
    ensures Decode(Encode(e)) == e
  {
    hide Le32, Bytes32, Le64, Bytes64;
    var b := Encode(e);
    Le64OfBytes(e.address);
    assert b[2..4] == e.reserved && b[4..12] == Bytes64(e.address) && b[12..] == e.tail;
  }

  lemma DecodeX2Apic(e: MadtEntry)
    requires WellFormed(e) && e.LocalX2Apic?
    ensures Decode(Encode(e)) == e
  {
    hide Le32, Bytes32, Le64, Bytes64;
    var b := Encode(e);
    Le32OfBytes(e.x2Id);
    Le32OfBytes(e.flags);
    Le32OfBytes(e.x2Uid);
    var rest := Bytes32(e.flags) + (Bytes32(e.x2Uid) + e.tail);
    assert b == [9, |b|] + e.reserved + Bytes32(e.x2Id) + rest;
    assert b[2..4] == e.reserved && b[4..8] == Bytes32(e.x2Id) && b[8..] == rest;
    assert b[8..12] == rest[..4] == Bytes32(e.flags);
    assert b[12..16] == rest[4..8] == Bytes32(e.x2Uid) && b[16..] == rest[8..] == e.tail;
  }

  lemma DecodeEncode(e: MadtEntry)
    requires WellFormed(e)
    ensures Decode(Encode(e)) == e
  {
    if e.LocalApic? {
      DecodeLocalApic(e);
    } else if e.AddressOverride? {
      DecodeOverride(e);
    } else if e.LocalX2Apic? {
      DecodeX2Apic(e);
    } else {
      assert Encode(e)[2..] == e.body;
    }
  }

  lemma EncodeDecode(b: seq<u8>)
    requires Framed(b)
    ensures WellFormed(Decode(b)) && Encode(Decode(b)) == b
  {
    hide Le32, Bytes32, Le64, Bytes64;
    if b[0] == 0 && |b| >= 8 {
      Bytes32OfLe(b[4..8]);
      assert b == [b[0], b[1]] + ([b[2], b[3]] + b[4..8] + b[8..]);
    } else if b[0] == 5 && |b| >= 12 {
      Bytes64OfLe(b[4..12]);
      assert b == [b[0], b[1]] + (b[2..4] + b[4..12] + b[12..]);
    } else if b[0] == 9 && |b| >= 16 {
      Bytes32OfLe(b[4..8]);
      Bytes32OfLe(b[8..12]);
      Bytes32OfLe(b[12..16]);
      assert b == [b[0], b[1]] + (b[2..4] + b[4..8] + b[8..12] + b[12..16] + b[16..]);
    } else {
      assert b == [b[0], b[1]] + b[2..];
    }
  }

  // ----- what a list of entries means

  /** The processor an entry announces, if it is enabled. */
  function EnabledCpu(e: MadtEntry): (c: seq<Cpu>) {
    match e
    case LocalApic(uid, apicId, flags, _) => if flags % 2 == 1 then [Cpu(uid, apicId, flags, false)] else []
    case LocalX2Apic(_, apicId, flags, uid, _) => if flags % 2 == 1 then [Cpu(uid, apicId, flags, true)] else []
    case _ => []
  }

  function EnabledCpus(es: seq<MadtEntry>): (c: seq<Cpu>) {
    if es == [] then [] else EnabledCpu(es[0]) + EnabledCpus(es[1..])
  }

  /** The address of the last override, or `base` without one. */
  function LastOverride(es: seq<MadtEntry>, base: u64): (a: u64) {
    if es == [] then base
    else if es[|es| - 1].AddressOverride? then es[|es| - 1].address
    else LastOverride(es[..|es| - 1], base)
  }

  /** Everything the entries add to `info`. */
  function Summary(info: Info, es: seq<MadtEntry>): (r: Info) {
    info.(base := LastOverride(es, info.base),
          enabled := info.enabled + |EnabledCpus(es)|,
          cpus := First(info.cpus + EnabledCpus(es), MAX_CPUS))
  }

  // ----- the parser's walk

  /** `add_acpi_cpu`. */
  function WithCpu(info: Info, c: Cpu): (r: Info) {
    info.(enabled := info.enabled + 1, cpus := if |info.cpus| < MAX_CPUS then info.cpus + [c] else info.cpus)
  }

  function Apply(info: Info, e: MadtEntry): (r: Info) {
    match e
    case AddressOverride(_, address, _) => info.(base := address)
    case _ => if EnabledCpu(e) == [] then info else WithCpu(info, EnabledCpu(e)[0])
  }

  /** The bytes begin with a whole entry. */
  predicate StartsEntry(b: seq<u8>) {
    2 <= |b| && 2 <= b[1] <= |b|
  }

  function Walk(info: Info, b: seq<u8>): (r: Info)
    decreases |b|
  {
    if b == [] then info
    else if !StartsEntry(b) then info.(error := BadEntry)
    else Walk(Apply(info, Decode(b[..b[1]])), b[b[1]..])
  }

  function EncodeAll(es: seq<MadtEntry>): (b: seq<u8>)
    requires forall k :: 0 <= k < |es| ==> WellFormed(es[k])
  {
    if es == [] then [] else Encode(es[0]) + EncodeAll(es[1..])
  }

  /** The entries of a byte string, up to the first that does not fit. */
  function Entries(b: seq<u8>): (es: seq<MadtEntry>)
    decreases |b|
  {
    if b == [] || !StartsEntry(b) then [] else [Decode(b[..b[1]])] + Entries(b[b[1]..])
  }

  function Rest(b: seq<u8>): (r: seq<u8>)
    decreases |b|
  {
    if b == [] || !StartsEntry(b) then b else Rest(b[b[1]..])
  }

  lemma {:induction false} LastOverrideCons(e: MadtEntry, es: seq<MadtEntry>, base: u64)
    ensures LastOverride([e] + es, base) == LastOverride(es, if e.AddressOverride? then e.address else base)
    decreases |es|
  {
    var all := [e] + es;
    if es == [] {
      assert all[..0] == [];
    } else {
      assert all[|all| - 1] == es[|es| - 1] && all[..|all| - 1] == [e] + es[..|es| - 1];
      if !es[|es| - 1].AddressOverride? {
        LastOverrideCons(e, es[..|es| - 1], base);
      }
    }
  }

  lemma SummaryCons(info: Info, e: MadtEntry, es: seq<MadtEntry>)
    requires |info.cpus| <= MAX_CPUS
    ensures Summary(Apply(info, e), es) == Summary(info, [e] + es)
  {
    LastOverrideCons(e, es, info.base);
    assert ([e] + es)[1..] == es;
    assert EnabledCpus([e] + es) == EnabledCpu(e) + EnabledCpus(es);
    if EnabledCpu(e) != [] {
      var c := EnabledCpu(e)[0];
      assert EnabledCpu(e) == [c];
      assert info.cpus + ([c] + EnabledCpus(es)) == info.cpus + [c] + EnabledCpus(es);
      assert Apply(info, e) == WithCpu(info, c);
    } else {
      assert [] + EnabledCpus(es) == EnabledCpus(es);
    }
  }

  /** Walking any bytes summarises the entries in them; it ends in an error exactly if bytes are left
      over that do not form an entry. */
  lemma {:induction false} WalkIsSummary(info: Info, b: seq<u8>)
    requires |info.cpus| <= MAX_CPUS
    ensures Walk(info, b) == Summary(info, Entries(b)).(error := if Rest(b) == [] then info.error else BadEntry)
    decreases |b|
  {
    if b == [] || !StartsEntry(b) {
      assert info.cpus + [] == info.cpus;
    } else {
      var e := Decode(b[..b[1]]);
      WalkIsSummary(Apply(info, e), b[b[1]..]);
      SummaryCons(info, e, Entries(b[b[1]..]));
    }
  }

  /** Any byte string is the encoding of its entries followed by what does not fit. */
  lemma {:induction false} EntriesCover(b: seq<u8>)
    ensures forall k :: 0 <= k < |Entries(b)| ==> WellFormed(Entries(b)[k])
    ensures b == EncodeAll(Entries(b)) + Rest(b)
    ensures Rest(b) == [] || !StartsEntry(Rest(b))
    decreases |b|
  {
    hide Decode, Encode, WellFormed, EncodeAll;
    if b != [] && StartsEntry(b) {
      var first, more := b[..b[1]], b[b[1]..];
      EncodeDecode(first);
      EntriesCover(more);
      EncodeAllCons(Decode(first), Entries(more));
      assert b == first + more;
    } else {
      EncodeNothing();
    }
  }

  lemma EncodeNothing()
    ensures EncodeAll([]) == []
  {
  }

  lemma EncodeAllCons(e: MadtEntry, es: seq<MadtEntry>)
    requires WellFormed(e) && forall k :: 0 <= k < |es| ==> WellFormed(es[k])
    ensures (forall k :: 0 <= k < |es| + 1 ==> WellFormed(([e] + es)[k])) && EncodeAll([e] + es) == Encode(e) + EncodeAll(es)
  {
    hide Encode, WellFormed;
    assert ([e] + es)[1..] == es;
  }

  /** The count of enabled processors stays far below the 32-bit limit. */
  lemma {:induction false} CountFits(b: seq<u8>)
    ensures |EnabledCpus(Entries(b))| <= |b|
    decreases |b|
  {
    hide Decode;
    if b != [] && StartsEntry(b) {
      var e, more := Decode(b[..b[1]]), Entries(b[b[1]..]);
      CountFits(b[b[1]..]);
      assert ([e] + more)[1..] == more;
    }
  }

  /** Encoding entries and reading them back gives the same entries. */
  lemma {:induction false} EntriesOfEncoding(es: seq<MadtEntry>)
    requires forall k :: 0 <= k < |es| ==> WellFormed(es[k])
    ensures Entries(EncodeAll(es)) == es && Rest(EncodeAll(es)) == []
  {
    hide Encode, Decode, WellFormed;
    if es != [] {
      var first, more := Encode(es[0]), EncodeAll(es[1..]);
      var b := first + more;
      EntriesOfEncoding(es[1..]);
      DecodeEncode(es[0]);
      assert b[..|first|] == first && b[|first|..] == more;
      assert StartsEntry(b) && b[1] == |first|;
      assert es == [es[0]] + es[1..];
    }
  }

  // ----- the table

  function Sum(b: seq<u8>): (n: nat) {
    if b == [] then 0 else Sum(b[..|b| - 1]) + b[|b| - 1]
  }

  /** `checksum_ok`: an 8-bit sum. */
  method ChecksumOk(b: seq<u8>) returns (ok: bool)
    ensures ok <==> Sum(b) % 256 == 0
  {
    var sum: u8 := 0;
    var i := 0;
    while i < |b|
      invariant 0 <= i <= |b| && sum == Sum(b[..i]) % 256
    {
      assert b[..i + 1][..i] == b[..i];
      var x: int, y: int := sum, b[i];
      sum := (x + y) % 256;
      i := i + 1;
    }
    assert b[..|b|] == b;
    ok := sum == 0;
  }

  /** Physical memory from `addr` on. */
  function At(mem: nat -> u8, addr: nat, n: nat): (b: seq<u8>)
    ensures |b| == n && forall i :: 0 <= i < n ==> b[i] == mem(addr + i)
  {
    seq(n, i requires 0 <= i < n => mem(addr + i))
  }

  /** What parsing must leave in `info`, as a function of the bytes of the table alone. */
  function Parsed(info: Info, descs: seq<Descriptor>, addr: u64, table: seq<u8>): (r: Info)
    requires |table| < 0x1_0000_0000
  {
    if |table| < FIRST_ENTRY || |table| > MAX_LENGTH then info.(error := BadMadt)
    else if !Contains(descs, addr, |table|) then info.(error := BadRange)
    else if Sum(table) % 256 != 0 then info.(error := BadMadt)
    else Walk(info.(base := Le32(table[HEADER..HEADER + 4]), flags := Le32(table[HEADER + 4..FIRST_ENTRY])), table[FIRST_ENTRY..])
  }

  /** `acpi_info_t`. */
  class AcpiInfo {
    const bspApicId: u32
    var madt: u64
    var error: AcpiError
    var base: u64
    var flags: u32
    var enabled: nat
    var cpus: seq<Cpu>

    /** As `parse_acpi` zeroes it. */
    constructor (bspApicId: u32)
      ensures this.bspApicId == bspApicId && View() == Info(AcpiOk, 0, 0, 0, []) && madt == 0
    {
      this.bspApicId := bspApicId;
      madt, error, base, flags, enabled, cpus := 0, AcpiOk, 0, 0, 0, [];
    }

    function View(): (i: Info)
      reads this
    {
      Info(error, base, flags, enabled, cpus)
    }

    /** `add_acpi_cpu`. */
    method AddCpu(c: Cpu)
      modifies this`enabled, this`cpus
      ensures View() == WithCpu(old(View()), c)
    {
      enabled := enabled + 1;
      if |cpus| < MAX_CPUS {
        cpus := cpus + [c];
      }
    }

    /** One entry, `length` bytes at `entry`; only these bytes are read. */
    method TakeEntry(mem: nat -> u8, entry: nat, length: u8)
      requires length >= 2 && mem(entry + 1) == length
      modifies this`base, this`enabled, this`cpus
      ensures View() == Apply(old(View()), Decode(At(mem, entry, length)))
    {
      hide Le32, Le64;
      var kind := mem(entry);
      ghost var b := At(mem, entry, length);
      if kind == 0 && length >= 8 {
        assert b[4..8] == At(mem, entry + 4, 4);
        var f := Le32(At(mem, entry + 4, 4));
        if f % 2 == 1 {
          AddCpu(Cpu(mem(entry + 2), mem(entry + 3), f, false));
        }
      } else if kind == 5 && length >= 12 {
        assert b[4..12] == At(mem, entry + 4, 8);
        base := Le64(At(mem, entry + 4, 8));
      } else if kind == 9 && length >= 16 {
        assert b[4..8] == At(mem, entry + 4, 4) && b[8..12] == At(mem, entry + 8, 4) && b[12..16] == At(mem, entry + 12, 4);
        var f := Le32(At(mem, entry + 8, 4));
        if f % 2 == 1 {
          AddCpu(Cpu(Le32(At(mem, entry + 12, 4)), Le32(At(mem, entry + 4, 4)), f, true));
        }
      }
    }

    /** `parse_madt`.  The result depends on the bytes of the table alone, although the length byte of an
        entry is read before it is known to lie in the table. */
    method ParseMadt(firmware: FirmwareMap, mem: nat -> u8, addr: u64)
      requires View() == Info(AcpiOk, 0, 0, 0, [])
      modifies this
      ensures madt == addr
      ensures View() == Parsed(old(View()), firmware.descs, addr, At(mem, addr, Le32(At(mem, addr + 4, 4))))
    {
      hide Le32, Walk, Sum, Contains;
      madt := addr;
      var length := Le32(At(mem, addr + 4, 4));
      if length < FIRST_ENTRY || length > MAX_LENGTH {
        error := BadMadt;
        return;
      }
      var inRange := firmware.ContainsRange(addr, length);
      if !inRange {
        error := BadRange;
        return;
      }
      var ok := ChecksumOk(At(mem, addr, length));
      if !ok {
        error := BadMadt;
        return;
      }
      ghost var table := At(mem, addr, length);
      assert table[HEADER..HEADER + 4] == At(mem, addr + HEADER, 4) && table[HEADER + 4..FIRST_ENTRY] == At(mem, addr + HEADER + 4, 4);
      base := Le32(At(mem, addr + HEADER, 4));
      flags := Le32(At(mem, addr + HEADER + 4, 4));
      WalkEntries(mem, addr, length);
    }

    /** The entry loop. */
    method WalkEntries(mem: nat -> u8, addr: u64, length: u32)
      requires FIRST_ENTRY <= length <= MAX_LENGTH && error == AcpiOk
      modifies this`error, this`base, this`enabled, this`cpus
      ensures View() == Walk(old(View()), At(mem, addr, length)[FIRST_ENTRY..])
    {
      hide Apply, Decode;
      ghost var table := At(mem, addr, length);
      ghost var goal := Walk(View(), table[FIRST_ENTRY..]);
      var offset: u32 := FIRST_ENTRY;
      while offset < length
        invariant FIRST_ENTRY <= offset <= length && flags == old(flags)
        invariant Walk(View(), table[offset..]) == goal
        decreases length - offset
      {
        var size := mem(addr + offset + 1);
        if size < 2 || offset + size > length {
          error := BadEntry;
          return;
        }
        ghost var b := table[offset..];
        assert b[..size] == At(mem, addr + offset, size);
        assert b[size..] == table[offset + size..];
        TakeEntry(mem, addr + offset, size);
        offset := offset + size;
      }
    }

    /** `count_supported_ap_targets`. */
    method CountSupported() returns (n: nat)
      ensures n == if error == AcpiOk then |SupportedAt(cpus, bspApicId)| else 0
    {
      if error != AcpiOk {
        return 0;
      }
      n := 0;
      var i := 0;
      while i < |cpus|
        invariant 0 <= i <= |cpus| && n == |SupportedAt(cpus[..i], bspApicId)|
      {
        assert cpus[..i + 1][..i] == cpus[..i];
        if Supported(cpus[i], bspApicId) {
          n := n + 1;
        }
        i := i + 1;
      }
      assert cpus[..|cpus|] == cpus;
    }

    /** `select_ap_target`: the supported processor number `target`, if there are that many. */
    method SelectTarget(target: nat) returns (c: Option<Cpu>)
      ensures error != AcpiOk ==> c == None
      ensures error == AcpiOk ==>
                var at := SupportedAt(cpus, bspApicId);
                (forall k :: 0 <= k < |at| ==> at[k] < |cpus|) && c == if target < |at| then Some(cpus[at[target]]) else None
    {
      SupportedExactly(cpus, bspApicId);
      if error != AcpiOk {
        return None;
      }
      var seen := 0;
      var i := 0;
      while i < |cpus|
        invariant 0 <= i <= |cpus| && seen == |SupportedAt(cpus[..i], bspApicId)| <= target
      {
        assert cpus[..i + 1][..i] == cpus[..i];
        SupportedPrefix(cpus, i + 1, bspApicId);
        if Supported(cpus[i], bspApicId) {
          if seen != target {
            seen := seen + 1;
          } else {
            assert SupportedAt(cpus[..i + 1], bspApicId)[target] == i;
            return Some(cpus[i]);
          }
        }
        i := i + 1;
      }
      assert cpus[..|cpus|] == cpus;
      return None;
    }
  }

  // ----- AP targets

  /** `acpi_cpu_is_supported_ap`. */
  predicate Supported(c: Cpu, bsp: u32) {
    !c.x2apic && c.apicId != bsp && c.apicId < 256
  }

  /** The places of the supported processors. */
  function SupportedAt(cpus: seq<Cpu>, bsp: u32): (at: seq<nat>) {
    if cpus == [] then []
    else
      var n := |cpus| - 1;
      SupportedAt(cpus[..n], bsp) + (if Supported(cpus[n], bsp) then [n] else [])
  }

  lemma {:induction false} SupportedPrefix(cpus: seq<Cpu>, n: nat, bsp: u32)
    requires n <= |cpus|
    ensures |SupportedAt(cpus[..n], bsp)| <= |SupportedAt(cpus, bsp)|
    ensures forall k :: 0 <= k < |SupportedAt(cpus[..n], bsp)| ==> SupportedAt(cpus, bsp)[k] == SupportedAt(cpus[..n], bsp)[k]
    decreases |cpus|
  {
    if n == |cpus| {
      assert cpus[..n] == cpus;
    } else {
      var m := |cpus| - 1;
      SupportedPrefix(cpus[..m], n, bsp);
      assert cpus[..m][..n] == cpus[..n];
    }
  }

  /** Target indices below the supported count select every supported processor exactly once. */
  lemma {:induction false} SupportedExactly(cpus: seq<Cpu>, bsp: u32)
    ensures var at := SupportedAt(cpus, bsp);
            && (forall k :: 0 <= k < |at| ==> at[k] < |cpus| && Supported(cpus[at[k]], bsp))
            && (forall i :: 0 <= i < |cpus| ==> (i in at <==> !cpus[i].x2apic && cpus[i].apicId != bsp && cpus[i].apicId <= 0xff))
            && (forall j, k :: 0 <= j < k < |at| ==> at[j] < at[k])
  {
    if cpus != [] {
      var n := |cpus| - 1;
      SupportedExactly(cpus[..n], bsp);
      var before := SupportedAt(cpus[..n], bsp);
      var at := SupportedAt(cpus, bsp);
      forall i | 0 <= i < |cpus| && Supported(cpus[i], bsp)
        ensures i in at
      {
        if i < n {
          assert cpus[..n][i] == cpus[i];
          assert i in before;
        } else {
          assert at[|before|] == n;
        }
      }
    }
  }

  // ----- the whole table

  /** A MADT holding the given entries. */
  function Table(head: seq<u8>, base: u32, flags: u32, es: seq<MadtEntry>): (b: seq<u8>)
    requires |head| == HEADER && forall k :: 0 <= k < |es| ==> WellFormed(es[k])
  {
    head + Bytes32(base) + Bytes32(flags) + EncodeAll(es)
  }

  const ZEROED := Info(AcpiOk, 0, 0, 0, [])

  /** Encoding any list of entries and parsing it gives the number of enabled processors, the first 32 of
      them in order, and the last address override. */
  lemma ParseOfTable(head: seq<u8>, base: u32, flags: u32, es: seq<MadtEntry>, descs: seq<Descriptor>, addr: u64)
    requires |head| == HEADER && forall k :: 0 <= k < |es| ==> WellFormed(es[k])
    requires |Table(head, base, flags, es)| <= MAX_LENGTH && Sum(Table(head, base, flags, es)) % 256 == 0
    requires Contains(descs, addr, |Table(head, base, flags, es)|)
    ensures Parsed(ZEROED, descs, addr, Table(head, base, flags, es)) ==
            Info(AcpiOk, LastOverride(es, base), flags, |EnabledCpus(es)|, First(EnabledCpus(es), MAX_CPUS))
  {
    hide Le32, Bytes32, Walk, Sum, Contains, EnabledCpus, LastOverride, EncodeAll, WellFormed;
    var table := Table(head, base, flags, es);
    assert table[HEADER..HEADER + 4] == Bytes32(base);
    assert table[HEADER + 4..FIRST_ENTRY] == Bytes32(flags);
    assert table[FIRST_ENTRY..] == EncodeAll(es);
    Le32OfBytes(base);
    Le32OfBytes(flags);
    var start := ZEROED.(base := base, flags := flags);
    WalkIsSummary(start, EncodeAll(es));
    EntriesOfEncoding(es);
    assert [] + EnabledCpus(es) == EnabledCpus(es);
  }

  /** Every table that passes the checks is such an encoding up to the first bytes that form no entry;
      parsing reports an error exactly if there are such bytes, and summarises the entries before them. */
  lemma ParseOfBytes(table: seq<u8>, descs: seq<Descriptor>, addr: u64)
    requires FIRST_ENTRY <= |table| <= MAX_LENGTH && Sum(table) % 256 == 0 && Contains(descs, addr, |table|)
    ensures var es := Entries(table[FIRST_ENTRY..]);
            var r := Parsed(ZEROED, descs, addr, table);
            && (forall k :: 0 <= k < |es| ==> WellFormed(es[k]))
            && table == Table(table[..HEADER], Le32(table[HEADER..HEADER + 4]), Le32(table[HEADER + 4..FIRST_ENTRY]), es) + Rest(table[FIRST_ENTRY..])
            && (r.error == AcpiOk <==> Rest(table[FIRST_ENTRY..]) == [])
            && r.base == LastOverride(es, Le32(table[HEADER..HEADER + 4])) && r.flags == Le32(table[HEADER + 4..FIRST_ENTRY])
            && r.enabled == |EnabledCpus(es)| <= |table| && r.cpus == First(EnabledCpus(es), MAX_CPUS)
  {
    hide Le32, Bytes32, Walk, Sum, Contains, EnabledCpus, LastOverride, EncodeAll, Entries, Rest, WellFormed;
    var rest := table[FIRST_ENTRY..];
    EntriesCover(rest);
    CountFits(rest);
    Bytes32OfLe(table[HEADER..HEADER + 4]);
    Bytes32OfLe(table[HEADER + 4..FIRST_ENTRY]);
    var start := ZEROED.(base := Le32(table[HEADER..HEADER + 4]), flags := Le32(table[HEADER + 4..FIRST_ENTRY]));
    WalkIsSummary(start, rest);
    assert [] + EnabledCpus(Entries(rest)) == EnabledCpus(Entries(rest));
    assert table == table[..HEADER] + table[HEADER..HEADER + 4] + table[HEADER + 4..FIRST_ENTRY] + rest;
  }

  // ----- the same in terms of bytes

  /** Four bytes from `p` on, the first least significant. */
  function U32At(b: seq<u8>, p: nat): (n: int)
    requires p + 4 <= |b|
  {
    var b0: int, b1: int, b2: int, b3: int := b[p], b[p + 1], b[p + 2], b[p + 3];
    b0 + 256 * (b1 + 256 * (b2 + 256 * b3))
  }

  /** Eight bytes from `p` on, the first least significant. */
  function U64At(b: seq<u8>, p: nat): (n: int)
    requires p + 8 <= |b|
  {
    U32At(b, p) + 0x1_0000_0000 * U32At(b, p + 4)
  }

  /** A whole entry lies at `p`: a type byte, a length byte, and as many bytes as that says. */
  predicate EntryAt(b: seq<u8>, p: nat) {
    p + 1 < |b| && 2 <= b[p + 1] && p + b[p + 1] <= |b|
  }

  predicate EnabledAt(b: seq<u8>, p: nat)
    requires EntryAt(b, p)
  {
    (b[p] == 0 && b[p + 1] >= 8 && b[p + 4] % 2 == 1) || (b[p] == 9 && b[p + 1] >= 16 && b[p + 8] % 2 == 1)
  }

  predicate OverrideAt(b: seq<u8>, p: nat)
    requires EntryAt(b, p)
  {
    b[p] == 5 && b[p + 1] >= 12
  }

  /** The processor described by the bytes of a local APIC or local x2APIC entry at `p`. */
  predicate DescribedAt(b: seq<u8>, p: nat, c: Cpu)
    requires EntryAt(b, p) && EnabledAt(b, p)
  {
    if b[p] == 0 then c.uid == b[p + 2] && c.apicId == b[p + 3] && c.flags == U32At(b, p + 4) && !c.x2apic
    else c.apicId == U32At(b, p + 4) && c.flags == U32At(b, p + 8) && c.uid == U32At(b, p + 12) && c.x2apic
  }

  /** Where the enabled processors of the entries from `p` on lie. */
  function CpuPlaces(b: seq<u8>, p: nat): (ps: seq<nat>)
    requires p <= |b|
    ensures forall k :: 0 <= k < |ps| ==> EntryAt(b, ps[k]) && EnabledAt(b, ps[k])
    decreases |b| - p
  {
    if !EntryAt(b, p) then [] else (if EnabledAt(b, p) then [p] else []) + CpuPlaces(b, p + b[p + 1])
  }

  function OverridePlaces(b: seq<u8>, p: nat): (ps: seq<nat>)
    requires p <= |b|
    ensures forall k :: 0 <= k < |ps| ==> EntryAt(b, ps[k]) && OverrideAt(b, ps[k])
    decreases |b| - p
  {
    if !EntryAt(b, p) then [] else (if OverrideAt(b, p) then [p] else []) + OverridePlaces(b, p + b[p + 1])
  }

  /** Where the entries from `p` on end. */
  function EndOfEntries(b: seq<u8>, p: nat): (e: nat)
    requires p <= |b|
    ensures p <= e <= |b|
    decreases |b| - p
  {
    if !EntryAt(b, p) then p else EndOfEntries(b, p + b[p + 1])
  }

  lemma Le32IsU32(b: seq<u8>, p: nat)
    requires p + 4 <= |b|
    ensures Le32(b[p..p + 4]) == U32At(b, p)
  {
  }

  lemma Slice(b: seq<u8>, p: nat, q: nat, i: nat, j: nat)
    requires p <= q <= |b| && i <= j <= q - p
    ensures b[p..q][i..j] == b[p + i..p + j]
  {
    var x, y := b[p..q][i..j], b[p + i..p + j];
    forall k | 0 <= k < j - i
      ensures x[k] == y[k]
    {
      assert x[k] == b[p..q][i + k] == b[p + i + k];
    }
    assert |x| == |y|;
  }

  lemma OneEntry(b: seq<u8>, p: nat)
    requires EntryAt(b, p)
    ensures var e := Decode(b[p..p + b[p + 1]]);
            && (EnabledAt(b, p) ==> |EnabledCpu(e)| == 1 && DescribedAt(b, p, EnabledCpu(e)[0]))
            && (!EnabledAt(b, p) ==> EnabledCpu(e) == [])
            && (e.AddressOverride? <==> OverrideAt(b, p)) && (OverrideAt(b, p) ==> e.address == U64At(b, p + 4))
  {
    hide Le32, U32At;
    var raw := b[p..p + b[p + 1]];
    if b[p] == 0 && b[p + 1] >= 8 {
      Slice(b, p, p + b[p + 1], 4, 8);
      Le32IsU32(b, p + 4);
      Parity(b, p + 4);
    } else if b[p] == 5 && b[p + 1] >= 12 {
      Slice(b, p, p + b[p + 1], 4, 12);
      Slice(b, p + 4, p + 12, 0, 4);
      Slice(b, p + 4, p + 12, 4, 8);
      Le32IsU32(b, p + 4);
      Le32IsU32(b, p + 8);
    } else if b[p] == 9 && b[p + 1] >= 16 {
      Slice(b, p, p + b[p + 1], 4, 8);
      Slice(b, p, p + b[p + 1], 8, 12);
      Slice(b, p, p + b[p + 1], 12, 16);
      Le32IsU32(b, p + 4);
      Le32IsU32(b, p + 8);
      Le32IsU32(b, p + 12);
      Parity(b, p + 8);
    }
  }

  lemma Parity(b: seq<u8>, p: nat)
    requires p + 4 <= |b|
    ensures U32At(b, p) % 2 == b[p] % 2
  {
  }

  lemma {:induction false} PlacesDescribe(b: seq<u8>, p: nat)
    requires p <= |b|
    ensures var cs, ps := EnabledCpus(Entries(b[p..])), CpuPlaces(b, p);
            |cs| == |ps| && forall k :: 0 <= k < |ps| ==> DescribedAt(b, ps[k], cs[k])
    ensures Rest(b[p..]) == b[EndOfEntries(b, p)..]
    decreases |b| - p
  {
    hide Decode, EnabledCpu, DescribedAt, EnabledAt;
    if EntryAt(b, p) {
      var q := p + b[p + 1];
      var e, more := Decode(b[p..q]), Entries(b[q..]);
      assert b[p..][..b[p + 1]] == b[p..q] && b[p..][b[p + 1]..] == b[q..];
      assert Entries(b[p..]) == [e] + more && ([e] + more)[1..] == more;
      OneEntry(b, p);
      PlacesDescribe(b, q);
    }
  }

  lemma {:induction false} PlacesOverride(b: seq<u8>, p: nat, base: u64)
    requires p <= |b|
    ensures var ps := OverridePlaces(b, p);
            LastOverride(Entries(b[p..]), base) == if ps == [] then base else U64At(b, ps[|ps| - 1] + 4)
    decreases |b| - p
  {
    hide Decode, LastOverride, OverrideAt, U64At, Entries;
    if EntryAt(b, p) {
      var q := p + b[p + 1];
      var e, more := Decode(b[p..q]), Entries(b[q..]);
      EntriesFrom(b, p);
      OneEntry(b, p);
      LastOverrideCons(e, more, base);
      PlacesOverride(b, q, if e.AddressOverride? then e.address else base);
    } else {
      EntriesFrom(b, p);
      NoOverride(base);
    }
  }

  lemma EntriesFrom(b: seq<u8>, p: nat)
    requires p <= |b|
    ensures EntryAt(b, p) ==> Entries(b[p..]) == [Decode(b[p..p + b[p + 1]])] + Entries(b[p + b[p + 1]..])
    ensures !EntryAt(b, p) ==> Entries(b[p..]) == []
  {
    hide Decode;
    if EntryAt(b, p) {
      var q := p + b[p + 1];
      assert b[p..][..b[p + 1]] == b[p..q] && b[p..][b[p + 1]..] == b[q..];
    }
  }

  lemma NoOverride(base: u64)
    ensures LastOverride([], base) == base
  {
  }

  /** What parsing stores, read off the bytes of the table: the stored processors are those described at the
      first 32 places of enabled processors, in order; the base is the one at the last override or in the
      header; the parse fails exactly if the entries do not end with the table. */
  lemma ParseByBytes(table: seq<u8>, descs: seq<Descriptor>, addr: u64)
    requires FIRST_ENTRY <= |table| <= MAX_LENGTH && Sum(table) % 256 == 0 && Contains(descs, addr, |table|)
    ensures var r := Parsed(ZEROED, descs, addr, table);
            var cpus, overrides := CpuPlaces(table, 44), OverridePlaces(table, 44);
            && r.enabled == |cpus| && |r.cpus| == (if |cpus| < 32 then |cpus| else 32) && r.flags == U32At(table, 40)
            && (forall k :: 0 <= k < |r.cpus| ==> DescribedAt(table, cpus[k], r.cpus[k]))
            && r.base == (if overrides == [] then U32At(table, 36) else U64At(table, overrides[|overrides| - 1] + 4))
            && (r.error == AcpiOk <==> EndOfEntries(table, 44) == |table|)
  {
    hide Le32, U32At, U64At, Parsed, Sum, Contains, EnabledCpus, LastOverride, Entries, Rest, CpuPlaces, OverridePlaces, DescribedAt, EnabledAt, OverrideAt, Table, WellFormed;
    ParseOfBytes(table, descs, addr);
    PlacesDescribe(table, FIRST_ENTRY);
    Le32IsU32(table, HEADER);
    Le32IsU32(table, HEADER + 4);
    PlacesOverride(table, FIRST_ENTRY, Le32(table[HEADER..HEADER + 4]));
  }
}
