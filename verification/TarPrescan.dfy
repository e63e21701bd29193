/**
 The raw tar prescan of a source archive, from the decompressed byte stream on: a streaming
 acceptor with one pending path, and the grammar of what it accepts. Every rejection ends the
 program, so an outcome is acceptance or not. Formats are those of POSIX.1-2017, pax utility,
 sections "ustar Interchange Format" and "pax Extended Header".
 */
module TarPrescan {
  import opened Wrappers

  type Byte = b: int | 0 <= b < 256
  type Bytes = seq<Byte>

  const BLOCK := 512
  const CHUNK := 65536
  const MAX_MEMBERS := 1024
  const MAX_HEADER_BYTES := 1048576
  const MAX_UNPACKED_BYTES := 33554432
  const MAX_TRAILING_ZERO_BYTES := 65536

  const FILE_TYPE: Byte := 0x30
  const DIRECTORY_TYPE: Byte := 0x35
  const PAX_TYPE: Byte := 0x78

  /** "././@PaxHeader" */
  const PAX_NAME: Bytes := [0x2E, 0x2F, 0x2E, 0x2F, 0x40, 0x50, 0x61, 0x78, 0x48, 0x65, 0x61, 0x64, 0x65, 0x72]
  /** "path=" */
  const PATH_KEY: Bytes := [0x70, 0x61, 0x74, 0x68, 0x3D]

  /** Whether bytes are UTF-8, and whether a path is allowed for a directory or a file. */
  datatype Rules = Rules(utf8: Bytes -> bool, allowed: (Bytes, bool) -> bool)

  predicate Zeros(s: Bytes) {
    forall i :: 0 <= i < |s| ==> s[i] == 0
  }

  // ---------------------------------------------------------------- numbers in headers

  predicate Octal(b: Byte) {
    0x30 <= b <= 0x37
  }

  predicate Decimal(b: Byte) {
    0x30 <= b <= 0x39
  }

  function Value(digits: Bytes, base: nat): int {
    if digits == [] then 0 else Value(digits[..|digits| - 1], base) * base + digits[|digits| - 1] - 0x30
  }

  /** The last `width` octal digits of a number. */
  function OctalDigits(n: nat, width: nat): (r: Bytes)
    ensures |r| == width && forall i :: 0 <= i < width ==> Octal(r[i])
  {
    if width == 0 then [] else OctalDigits(n / 8, width - 1) + [n % 8 + 0x30]
  }

  function Power(base: nat, n: nat): nat {
    if n == 0 then 1 else base * Power(base, n - 1)
  }

  /** The digits are the number's own when it fits. */
  lemma {:induction false} OctalRoundTrip(n: nat, width: nat)
    requires n < Power(8, width)
    ensures Value(OctalDigits(n, width), 8) == n
  {
    if width > 0 {
      OctalRoundTrip(n / 8, width - 1);
      assert (OctalDigits(n / 8, width - 1) + [n % 8 + 0x30])[..width - 1] == OctalDigits(n / 8, width - 1);
    }
  }

  function Sum(s: Bytes): (r: nat)
    ensures r <= 255 * |s|
  {
    if s == [] then 0 else Sum(s[..|s| - 1]) + s[|s| - 1]
  }

  function Spaces(n: nat): Bytes {
    seq(n, _ => 0x20)
  }

  /** The header's byte sum with its checksum field read as spaces. */
  function ChecksumOf(header: Bytes): nat
    requires |header| == BLOCK
  {
    Sum(header[..148] + Spaces(8) + header[156..])
  }

  /** A header's checksum always fits the six octal digits it is written in. */
  lemma ChecksumFits(header: Bytes)
    requires |header| == BLOCK
    ensures ChecksumOf(header) <= 512 * 255 < Power(8, 6)
    ensures Value(OctalDigits(ChecksumOf(header), 6), 8) == ChecksumOf(header)
  {
    assert Power(8, 6) == 262144 by {
      assert Power(8, 2) == 64;
      assert Power(8, 4) == 4096;
    }
    OctalRoundTrip(ChecksumOf(header), 6);
  }

  // ---------------------------------------------------------------- one header

  function FirstZero(s: Bytes): (i: nat)
    ensures i <= |s| && (i < |s| ==> s[i] == 0) && forall j :: 0 <= j < i ==> s[j] != 0
  {
    if s == [] || s[0] == 0 then 0 else FirstZero(s[1..]) + 1
  }

  function Type(header: Bytes): Byte
    requires |header| == BLOCK
  {
    header[156]
  }

  function Name(header: Bytes): Bytes
    requires |header| == BLOCK
  {
    header[..FirstZero(header[..100])]
  }

  function Size(header: Bytes): int
    requires |header| == BLOCK
  {
    Value(header[124..135], 8)
  }

  function Padded(size: int): int {
    (size + BLOCK - 1) / BLOCK * BLOCK
  }

  /** "0000644" for files and directories, "0000000" for extended headers, both closed by a zero byte. */
  function Mode(kind: Byte): Bytes {
    if kind == PAX_TYPE then [0x30, 0x30, 0x30, 0x30, 0x30, 0x30, 0x30, 0]
    else [0x30, 0x30, 0x30, 0x30, 0x36, 0x34, 0x34, 0]
  }

  /** "13615410400" for files and directories, and the epoch for extended headers. */
  function Mtime(kind: Byte): Bytes {
    if kind == PAX_TYPE then [0x30, 0x30, 0x30, 0x30, 0x30, 0x30, 0x30, 0x30, 0x30, 0x30, 0x30, 0]
    else [0x31, 0x33, 0x36, 0x31, 0x35, 0x34, 0x31, 0x30, 0x34, 0x30, 0x30, 0]
  }

  const ZERO_ID: Bytes := [0x30, 0x30, 0x30, 0x30, 0x30, 0x30, 0x30, 0]
  /** "ustar", a zero byte and version "00". */
  const MAGIC: Bytes := [0x75, 0x73, 0x74, 0x61, 0x72, 0, 0x30, 0x30]

  /** The canonical header: a known type, every fixed field, the size digits, the name and the checksum. */
  predicate Canonical(header: Bytes, rules: Rules) {
    && |header| == BLOCK
    && Type(header) in {FILE_TYPE, DIRECTORY_TYPE, PAX_TYPE}
    && header[100..108] == Mode(Type(header))
    && header[108..116] == ZERO_ID
    && header[116..124] == ZERO_ID
    && (forall i :: 124 <= i < 135 ==> Octal(header[i])) && header[135] == 0
    && header[136..148] == Mtime(Type(header))
    && header[148..156] == OctalDigits(ChecksumOf(header), 6) + [0, 0x20]
    && Zeros(header[157..257])
    && header[257..265] == MAGIC
    && Zeros(header[265..512])
    && Name(header) != [] && Zeros(header[|Name(header)|..100])
    && rules.utf8(Name(header))
  }

  lemma {:induction false} DigitsNotNegative(digits: Bytes, base: nat)
    requires forall i :: 0 <= i < |digits| ==> digits[i] >= 0x30
    ensures Value(digits, base) >= 0
  {
    if digits != [] { DigitsNotNegative(digits[..|digits| - 1], base); }
  }

  lemma CanonicalSize(header: Bytes, rules: Rules)
    requires Canonical(header, rules)
    ensures 0 <= Size(header) <= Padded(Size(header)) < Size(header) + BLOCK && Padded(Size(header)) % BLOCK == 0
    ensures !Zeros(header)
    ensures Type(header) == FILE_TYPE || Type(header) == DIRECTORY_TYPE || Type(header) == PAX_TYPE
  {
    DigitsNotNegative(header[124..135], 8);
  }

  // ---------------------------------------------------------------- the extended header record

  /** The payload is exactly one record, "<length> path=<path>\n", and its length is the payload's. */
  ghost predicate PathRecord(payload: Bytes, path: Bytes, rules: Rules) {
    exists digits: Bytes :: digits != [] && Record(payload, digits, path, rules)
  }

  predicate Record(payload: Bytes, digits: Bytes, path: Bytes, rules: Rules) {
    && (forall i :: 0 <= i < |digits| ==> Decimal(digits[i]))
    && payload == digits + [0x20] + PATH_KEY + path + [0x0A]
    && Value(digits, 10) == |payload|
    && path != []
    && rules.utf8(PATH_KEY + path)
  }

  /** The position of the first space from `from` on, and the length when there is none. */
  function FindSpace(payload: Bytes, from: nat): (i: nat)
    requires from <= |payload|
    ensures from <= i <= |payload| && (i < |payload| ==> payload[i] == 0x20)
    ensures forall j :: from <= j < i ==> payload[j] != 0x20
    decreases |payload| - from
  {
    if from == |payload| || payload[from] == 0x20 then from else FindSpace(payload, from + 1)
  }

  /** One record from `offset`: its end and its path, when it is well formed. */
  function ReadRecord(payload: Bytes, offset: nat, rules: Rules): (r: Option<(nat, Bytes)>)
    requires offset < |payload|
    ensures r.Some? ==> offset + 2 < r.value.0 <= |payload|
  {
    var separator := FindSpace(payload, offset);
    var digits := payload[offset..separator];
    if separator == |payload| || digits == [] || exists i :: 0 <= i < |digits| && !Decimal(digits[i]) then None
    else
      var end := offset + Value(digits, 10);
      if end > |payload| || Value(digits, 10) <= separator - offset + 2 then None
      else
        var record := payload[separator + 1..end];
        var assignment := record[..|record| - 1];
        if record[|record| - 1] != 0x0A || !rules.utf8(assignment) then None
        else if |assignment| <= |PATH_KEY| || assignment[..|PATH_KEY|] != PATH_KEY then None
        else Some((end, assignment[|PATH_KEY|..]))
  }

  /** The record loop: a second record repeats the only allowed key, so one record must fill the payload. */
  method ValidateLocalPax(payload: Bytes, rules: Rules) returns (path: Option<Bytes>)
    ensures path == PaxPath(payload, rules)
  {
    path := None;
    if payload == [] {
      return None;
    }
    var offset := 0;
    var seen := false;
    while offset < |payload|
      invariant offset <= |payload|
      invariant seen <==> offset > 0
      invariant seen ==> path.Some? && ReadRecord(payload, 0, rules) == Some((offset, path.value))
      decreases |payload| - offset
    {
      var record := ReadRecord(payload, offset, rules);
      if record.None? || seen {
        return None;
      }
      seen := true;
      path := Some(record.value.1);
      offset := record.value.0;
    }
  }

  function PaxPath(payload: Bytes, rules: Rules): Option<Bytes> {
    if payload == [] then None
    else
      var r := ReadRecord(payload, 0, rules);
      if r.Some? && r.value.0 == |payload| then Some(r.value.1) else None
  }

  lemma {:induction false} SpaceAt(payload: Bytes, from: nat, i: nat)
    requires from <= i < |payload| && payload[i] == 0x20
    requires forall j :: from <= j < i ==> payload[j] != 0x20
    ensures FindSpace(payload, from) == i
  {
  }

  lemma RecordRead(payload: Bytes, path: Bytes, rules: Rules)
    requires PaxPath(payload, rules) == Some(path)
    ensures PathRecord(payload, path, rules)
  {
    hide Value;
    var separator := FindSpace(payload, 0);
    var digits := payload[0..separator];
    var record := payload[separator + 1..|payload|];
    var assignment := record[..|record| - 1];
    assert assignment == PATH_KEY + path;
    assert payload == digits + [0x20] + record;
    assert record == assignment + [0x0A];
    assert payload == digits + [0x20] + PATH_KEY + path + [0x0A];
    assert Record(payload, digits, path, rules);
  }

  lemma RecordAccepted(payload: Bytes, digits: Bytes, path: Bytes, rules: Rules)
    requires digits != [] && Record(payload, digits, path, rules)
    ensures PaxPath(payload, rules) == Some(path)
  {
    hide Value, FindSpace;
    var n := |digits|;
    assert payload[n] == 0x20;
    assert forall j :: 0 <= j < n ==> payload[j] == digits[j];
    SpaceAt(payload, 0, n);
    assert payload[0..n] == digits;
    var record := payload[n + 1..|payload|];
    assert record == PATH_KEY + path + [0x0A];
    var assignment := record[..|record| - 1];
    assert assignment == PATH_KEY + path;
    assert assignment[..|PATH_KEY|] == PATH_KEY;
    assert assignment[|PATH_KEY|..] == path;
  }

  /** The record loop accepts exactly the single path record. */
  lemma PaxPathExactly(payload: Bytes, path: Bytes, rules: Rules)
    ensures PaxPath(payload, rules) == Some(path) <==> PathRecord(payload, path, rules)
  {
    hide PaxPath, Record;
    if PaxPath(payload, rules) == Some(path) { RecordRead(payload, path, rules); }
    if PathRecord(payload, path, rules) {
      var digits :| digits != [] && Record(payload, digits, path, rules);
      RecordAccepted(payload, digits, path, rules);
    }
  }

  // ---------------------------------------------------------------- the acceptor

  datatype Counts = Counts(members: int, headerBytes: int, unpackedBytes: int)

  predicate Within(c: Counts) {
    c.members <= MAX_MEMBERS && c.headerBytes <= MAX_HEADER_BYTES && c.unpackedBytes <= MAX_UNPACKED_BYTES
  }

  /** Everything after the first zero block: a second one, then aligned zeros up to the limit. */
  predicate EndsWell(rest: Bytes) {
    && BLOCK <= |rest| && Zeros(rest)
    && BLOCK + |rest| <= MAX_TRAILING_ZERO_BYTES
    && |rest| % BLOCK == 0
  }

  /** The stream goes on with `size` bytes and the zeros that fill their last block. */
  predicate Filled(rest: Bytes, size: int) {
    0 <= size <= Padded(size) <= |rest| && Zeros(rest[size..Padded(size)])
  }

  function First(s: Bytes, n: nat): Bytes {
    if |s| <= n then s else s[..n]
  }

  /** What reading one header, and what belongs to it, comes to. */
  datatype Verdict = Reject | Accept | Continue(consumed: nat, pending: Option<Bytes>, counts: Counts)

  function ScanPax(header: Bytes, rest: Bytes, pending: Option<Bytes>, c: Counts, rules: Rules): (r: Verdict)
    requires |header| == BLOCK
    ensures r.Continue? ==> r.consumed <= |rest|
  {
    var d := c.(headerBytes := c.headerBytes + Padded(Size(header)));
    if pending.Some? || Name(header) != PAX_NAME || !Within(d) || !Filled(rest, Size(header)) then Reject
    else
      var path := PaxPath(rest[..Size(header)], rules);
      if path.None? || !rules.allowed(path.value, false) then Reject
      else Continue(Padded(Size(header)), path, d)
  }

  function ScanFile(header: Bytes, rest: Bytes, pending: Option<Bytes>, c: Counts, rules: Rules): (r: Verdict)
    requires |header| == BLOCK
    ensures r.Continue? ==> r.consumed <= |rest|
  {
    var d := c.(unpackedBytes := c.unpackedBytes + Size(header));
    if pending.Some? && Name(header) != First(pending.value, 100) then Reject
    else if pending.None? && !rules.allowed(Name(header), false) then Reject
    else if !Within(d) || !Filled(rest, Size(header)) then Reject
    else Continue(Padded(Size(header)), None, d)
  }

  function ScanDirectory(header: Bytes, pending: Option<Bytes>, c: Counts, rules: Rules): Verdict
    requires |header| == BLOCK
  {
    if Size(header) != 0 || pending.Some? || !rules.allowed(Name(header), true) then Reject
    else Continue(0, None, c)
  }

  /** The outcome after the header block; `Continue` counts the bytes that follow the header. */
  function Scan(s: Bytes, pending: Option<Bytes>, c: Counts, rules: Rules): (r: Verdict)
    ensures r.Continue? ==> BLOCK + r.consumed <= |s|
  {
    if |s| < BLOCK then Reject
    else
      var header, rest := s[..BLOCK], s[BLOCK..];
      var d := Counts(c.members + 1, c.headerBytes + BLOCK, c.unpackedBytes);
      if Zeros(header) then (if pending.None? && EndsWell(rest) then Accept else Reject)
      else if !Within(d) || !Canonical(header, rules) then Reject
      else if Type(header) == PAX_TYPE then ScanPax(header, rest, pending, d, rules)
      else if Type(header) == FILE_TYPE then ScanFile(header, rest, pending, d, rules)
      else ScanDirectory(header, pending, d, rules)
  }

  /** The rest of the stream is accepted, with a path pending and these bytes counted so far. */
  predicate Accepts(s: Bytes, pending: Option<Bytes>, c: Counts, rules: Rules)
    decreases |s|
  {
    match Scan(s, pending, c, rules)
    case Reject => false
    case Accept => true
    case Continue(consumed, next, counts) => Accepts(s[BLOCK + consumed..], next, counts, rules)
  }

  /** Zero-only padding, read in chunks. */
  method DiscardZeroPadding(stream: Bytes, from: nat, count: nat) returns (ok: bool)
    requires from <= |stream|
    ensures ok <==> from + count <= |stream| && Zeros(stream[from..from + count])
  {
    var remaining, at := count, from;
    while remaining > 0
      invariant remaining >= 0 && at + remaining == from + count && from <= at <= |stream|
      invariant Zeros(stream[from..at])
      decreases remaining
    {
      var n := if remaining < CHUNK then remaining else CHUNK;
      var chunk := stream[at..if at + n <= |stream| then at + n else |stream|];
      if chunk == [] {
        return false;
      }
      if exists i :: 0 <= i < |chunk| && chunk[i] != 0 {
        ghost var i :| 0 <= i < |chunk| && chunk[i] != 0;
        if from + count <= |stream| { assert stream[from..from + count][at + i - from] == chunk[i]; }
        return false;
      }
      ghost var before := at;
      assert forall i :: before <= i < before + |chunk| ==> stream[i] == chunk[i - before] == 0;
      remaining := remaining - |chunk|;
      at := at + |chunk|;
      assert stream[from..at] == stream[from..before] + chunk;
    }
    return true;
  }

  method ConsumeTarEnd(stream: Bytes, from: nat) returns (ok: bool)
    requires from <= |stream|
    ensures ok <==> EndsWell(stream[from..])
  {
    if from + BLOCK > |stream| {
      return false;
    }
    ghost var rest := stream[from..];
    var second := stream[from..from + BLOCK];
    if exists i :: 0 <= i < BLOCK && second[i] != 0 {
      ghost var i :| 0 <= i < BLOCK && second[i] != 0;
      assert rest[i] == second[i];
      return false;
    }
    var trailing, at := 2 * BLOCK, from + BLOCK;
    assert forall i :: 0 <= i < BLOCK ==> rest[i] == second[i] == 0;
    while at < |stream|
      invariant from + BLOCK <= at <= |stream| && trailing == BLOCK + at - from
      invariant trailing <= MAX_TRAILING_ZERO_BYTES
      invariant forall i :: 0 <= i < at - from ==> rest[i] == 0
      decreases |stream| - at
    {
      var chunk := stream[at..if at + CHUNK <= |stream| then at + CHUNK else |stream|];
      if exists i :: 0 <= i < |chunk| && chunk[i] != 0 {
        ghost var i :| 0 <= i < |chunk| && chunk[i] != 0;
        assert rest[at + i - from] == chunk[i];
        return false;
      }
      assert forall i :: at - from <= i < at - from + |chunk| ==> rest[i] == chunk[i - (at - from)] == 0;
      trailing := trailing + |chunk|;
      at := at + |chunk|;
      if trailing > MAX_TRAILING_ZERO_BYTES {
        return false;
      }
    }
    return trailing % BLOCK == 0;
  }

  /** The payload of an extended header, read, validated and skipped with its padding. */
  method ReadPax(header: Bytes, stream: Bytes, at: nat, pending: Option<Bytes>, c: Counts, rules: Rules)
    returns (verdict: Verdict)
    requires at <= |stream| && Canonical(header, rules)
    ensures verdict == ScanPax(header, stream[at..], pending, c, rules)
  {
    CanonicalSize(header, rules);
    hide Canonical, Name, Size;
    if pending.Some? || Name(header) != PAX_NAME {
      return Reject;
    }
    var size := Size(header);
    var d := c.(headerBytes := c.headerBytes + Padded(size));
    if !Within(d) || at + size > |stream| {
      return Reject;
    }
    var path := ValidateLocalPax(stream[at..at + size], rules);
    if path.None? || !rules.allowed(path.value, false) {
      FilledAt(stream, at, size);
      return Reject;
    }
    var padded := DiscardZeroPadding(stream, at + size, Padded(size) - size);
    FilledAt(stream, at, size);
    verdict := if padded then Continue(Padded(size), path, d) else Reject;
  }

  /** The payload of a file, counted and skipped with its padding. */
  method SkipFile(header: Bytes, stream: Bytes, at: nat, pending: Option<Bytes>, c: Counts, rules: Rules)
    returns (verdict: Verdict)
    requires at <= |stream| && Canonical(header, rules)
    ensures verdict == ScanFile(header, stream[at..], pending, c, rules)
  {
    CanonicalSize(header, rules);
    hide Canonical, Name, Size;
    if pending.Some? {
      if Name(header) != First(pending.value, 100) {
        return Reject;
      }
    } else if !rules.allowed(Name(header), false) {
      return Reject;
    }
    var size := Size(header);
    var d := c.(unpackedBytes := c.unpackedBytes + size);
    if !Within(d) || at + size > |stream| {
      return Reject;
    }
    var padded := DiscardZeroPadding(stream, at + size, Padded(size) - size);
    FilledAt(stream, at, size);
    verdict := if padded then Continue(Padded(size), None, d) else Reject;
  }

  /** One round of the prescan loop. */
  method ScanMember(stream: Bytes, at: nat, pending: Option<Bytes>, c: Counts, rules: Rules) returns (verdict: Verdict)
    requires at <= |stream|
    ensures verdict == Scan(stream[at..], pending, c, rules)
  {
    hide Canonical, ScanPax, ScanFile, EndsWell, Zeros;
    if at + BLOCK > |stream| {
      return Reject;
    }
    var header := stream[at..at + BLOCK];
    assert stream[at..][..BLOCK] == header && stream[at..][BLOCK..] == stream[at + BLOCK..];
    if Zeros(header) {
      if pending.Some? {
        return Reject;
      }
      var ends := ConsumeTarEnd(stream, at + BLOCK);
      return if ends then Accept else Reject;
    }
    var d := Counts(c.members + 1, c.headerBytes + BLOCK, c.unpackedBytes);
    if !Within(d) || !Canonical(header, rules) {
      return Reject;
    }
    if Type(header) == PAX_TYPE {
      verdict := ReadPax(header, stream, at + BLOCK, pending, d, rules);
    } else if Type(header) == FILE_TYPE {
      verdict := SkipFile(header, stream, at + BLOCK, pending, d, rules);
    } else {
      verdict := ScanDirectory(header, pending, d, rules);
    }
  }

  method PrescanTarHeaders(stream: Bytes, rules: Rules) returns (ok: bool)
    ensures ok == Accepts(stream, None, Counts(0, 0, 0), rules)
  {
    hide Scan;
    var at, c := 0, Counts(0, 0, 0);
    var pending: Option<Bytes> := None;
    assert stream[0..] == stream;
    while true
      invariant at <= |stream|
      invariant Accepts(stream[at..], pending, c, rules) == Accepts(stream, None, Counts(0, 0, 0), rules)
      decreases |stream| - at
    {
      var verdict := ScanMember(stream, at, pending, c, rules);
      match verdict
      case Reject => return false;
      case Accept => return true;
      case Continue(consumed, next, counts) =>
        assert stream[at..][BLOCK + consumed..] == stream[at + BLOCK + consumed..];
        at, pending, c := at + BLOCK + consumed, next, counts;
    }
  }

  lemma FilledAt(stream: Bytes, at: nat, size: nat)
    requires at + size <= |stream| && size <= Padded(size)
    ensures Filled(stream[at..], size) <==>
      at + Padded(size) <= |stream| && Zeros(stream[at + size..at + size + (Padded(size) - size)])
    ensures stream[at..][..size] == stream[at..at + size]
  {
    if at + Padded(size) <= |stream| {
      assert stream[at..][size..Padded(size)] == stream[at + size..at + Padded(size)];
    }
  }

  // ---------------------------------------------------------------- the grammar

  /** A header with what belongs to it. */
  datatype Block = Block(header: Bytes, payload: Bytes, padding: Bytes)

  datatype Member =
    | Directory(block: Block)
    | File(block: Block)
    | Described(pax: Block, path: Bytes, file: Block)

  /** A canonical header, a payload of the size it states, and zeros up to the next block. */
  ghost predicate WellFormed(b: Block, kind: Byte, rules: Rules) {
    && Canonical(b.header, rules) && Type(b.header) == kind
    && |b.payload| == Size(b.header)
    && |b.payload| + |b.padding| == Padded(Size(b.header))
    && Zeros(b.padding)
  }

  /** A directory carries nothing; a described file is named by the first 100 bytes of the path in its one record. */
  ghost predicate Grammatical(m: Member, rules: Rules) {
    match m
    case Directory(b) => WellFormed(b, DIRECTORY_TYPE, rules) && b.payload == [] && rules.allowed(Name(b.header), true)
    case File(b) => WellFormed(b, FILE_TYPE, rules) && rules.allowed(Name(b.header), false)
    case Described(pax, path, b) =>
      && WellFormed(pax, PAX_TYPE, rules) && Name(pax.header) == PAX_NAME
      && PathRecord(pax.payload, path, rules) && rules.allowed(path, false)
      && WellFormed(b, FILE_TYPE, rules) && Name(b.header) == First(path, 100)
  }

  function BytesOf(b: Block): Bytes {
    b.header + b.payload + b.padding
  }

  function Encoded(m: Member): Bytes {
    match m
    case Directory(b) => BytesOf(b)
    case File(b) => BytesOf(b)
    case Described(pax, _, b) => BytesOf(pax) + BytesOf(b)
  }

  function Archive(members: seq<Member>): Bytes {
    if members == [] then [] else Encoded(members[0]) + Archive(members[1..])
  }

  /** What the members add to the counts: headers, header bytes with extended payloads, and file bytes. */
  function Weigh(members: seq<Member>, c: Counts): Counts {
    if members == [] then c
    else match members[0]
      case Directory(_) => Weigh(members[1..], Counts(c.members + 1, c.headerBytes + BLOCK, c.unpackedBytes))
      case File(b) =>
        Weigh(members[1..], Counts(c.members + 1, c.headerBytes + BLOCK, c.unpackedBytes + |b.payload|))
      case Described(pax, _, b) =>
        Weigh(members[1..], Counts(c.members + 2, c.headerBytes + 2 * BLOCK + |pax.payload| + |pax.padding|,
                                   c.unpackedBytes + |b.payload|))
  }

  /** The two zero blocks and the aligned zero padding that close an archive. */
  predicate Closing(tail: Bytes) {
    2 * BLOCK <= |tail| <= MAX_TRAILING_ZERO_BYTES && |tail| % BLOCK == 0 && Zeros(tail)
  }

  /** The whole stream is members within the budgets, then the closing zeros. */
  ghost predicate IsArchive(stream: Bytes, c: Counts, rules: Rules) {
    exists members, tail :: Spells(stream, members, tail, c, rules)
  }

  ghost predicate Spells(stream: Bytes, members: seq<Member>, tail: Bytes, c: Counts, rules: Rules) {
    && stream == Archive(members) + tail
    && (forall m <- members :: Grammatical(m, rules))
    && Closing(tail)
    && Within(Weigh(members, c))
  }

  // ---------------------------------------------------------------- acceptance is the grammar

  lemma BlockAhead(s: Bytes, b: Block, rest: Bytes, kind: Byte, rules: Rules)
    requires WellFormed(b, kind, rules) && s == BytesOf(b) + rest
    ensures BLOCK <= |s| && s[..BLOCK] == b.header && !Zeros(b.header) && Filled(s[BLOCK..], Size(b.header))
    ensures s[BLOCK..][..Size(b.header)] == b.payload
    ensures BLOCK + Padded(Size(b.header)) <= |s| && s[BLOCK + Padded(Size(b.header))..] == rest
    ensures |b.payload| == Size(b.header) && |b.payload| + |b.padding| == Padded(Size(b.header))
  {
    CanonicalSize(b.header, rules);
    hide Canonical, Size;
    var size := Size(b.header);
    assert s == b.header + (b.payload + (b.padding + rest));
    assert s[BLOCK..] == b.payload + (b.padding + rest);
    assert s[BLOCK..][size..Padded(size)] == b.padding;
  }

  /** What a canonical header and filled blocks spell. */
  lemma BlockFound(s: Bytes, kind: Byte, rules: Rules) returns (b: Block)
    requires BLOCK <= |s| && Canonical(s[..BLOCK], rules) && Type(s[..BLOCK]) == kind
    requires Filled(s[BLOCK..], Size(s[..BLOCK]))
    ensures WellFormed(b, kind, rules) && b.header == s[..BLOCK]
    ensures b.payload == s[BLOCK..][..Size(b.header)]
    ensures BLOCK + Padded(Size(b.header)) <= |s|
    ensures s == BytesOf(b) + s[BLOCK + Padded(Size(b.header))..]
    ensures |b.payload| == Size(b.header) && |b.payload| + |b.padding| == Padded(Size(b.header))
  {
    CanonicalSize(s[..BLOCK], rules);
    hide Canonical, Size;
    var header, rest := s[..BLOCK], s[BLOCK..];
    var size := Size(header);
    b := Block(header, rest[..size], rest[size..Padded(size)]);
    assert rest == b.payload + b.padding + rest[Padded(size)..];
    assert rest[Padded(size)..] == s[BLOCK + Padded(size)..];
  }

  lemma {:induction false} WeighGrows(members: seq<Member>, c: Counts)
    ensures Within(Weigh(members, c)) ==> Within(c)
    ensures c.members <= Weigh(members, c).members && c.headerBytes <= Weigh(members, c).headerBytes
      && c.unpackedBytes <= Weigh(members, c).unpackedBytes
    decreases |members|
  {
    if members != [] {
      match members[0]
      case Directory(_) => WeighGrows(members[1..], Counts(c.members + 1, c.headerBytes + BLOCK, c.unpackedBytes));
      case File(b) =>
        WeighGrows(members[1..], Counts(c.members + 1, c.headerBytes + BLOCK, c.unpackedBytes + |b.payload|));
      case Described(pax, _, b) =>
        WeighGrows(members[1..], Counts(c.members + 2, c.headerBytes + 2 * BLOCK + |pax.payload| + |pax.padding|,
                                        c.unpackedBytes + |b.payload|));
    }
  }

  lemma OneMember(m: Member, members: seq<Member>, rest: Bytes, tail: Bytes, c: Counts, d: Counts, rules: Rules)
    requires Spells(rest, members, tail, d, rules) && Grammatical(m, rules)
    requires Weigh([m], c) == d
    ensures Spells(Encoded(m) + rest, [m] + members, tail, c, rules)
  {
    hide Grammatical, Encoded, Closing;
    var all := [m] + members;
    assert all[0] == m && all[1..] == members;
    assert [m][1..] == [];
    assert Weigh([m], c) == Weigh([], d);
    assert Weigh(all, c) == Weigh(members, d);
    assert Encoded(m) + rest == Archive(all) + tail;
  }

  lemma AcceptedGoesOn(s: Bytes, pending: Option<Bytes>, c: Counts, rules: Rules)
    requires Accepts(s, pending, c, rules) && Scan(s, pending, c, rules) != Accept
    ensures var v := Scan(s, pending, c, rules);
      v.Continue? && Accepts(s[BLOCK + v.consumed..], v.pending, v.counts, rules)
  {
    hide Scan;
  }

  lemma PendingNeverEnds(s: Bytes, path: Bytes, c: Counts, rules: Rules)
    ensures Scan(s, Some(path), c, rules) != Accept
  {
  }

  /** A described file: an extended header is accepted only when the file it names follows. */
  lemma PaxFound(s: Bytes, c: Counts, rules: Rules) returns (m: Member, rest: Bytes, d: Counts)
    requires BLOCK <= |s| && !Zeros(s[..BLOCK]) && Accepts(s, None, c, rules) && Scan(s, None, c, rules) != Accept
    requires Type(s[..BLOCK]) == PAX_TYPE
    ensures Grammatical(m, rules) && s == Encoded(m) + rest && |rest| < |s|
    ensures Weigh([m], c) == d && Within(d) && Accepts(rest, None, d, rules)
  {
    hide Scan, Accepts, Canonical, Size, PathRecord, Zeros, Weigh, Name, First;
    AcceptedGoesOn(s, None, c, rules);
    var verdict := Scan(s, None, c, rules);
    var pax := PaxBlock(s, c, rules);
    var path := verdict.pending.value;
    var t := s[BLOCK + verdict.consumed..];
    PendingNeverEnds(t, path, verdict.counts, rules);
    AcceptedGoesOn(t, Some(path), verdict.counts, rules);
    var next := Scan(t, Some(path), verdict.counts, rules);
    var b := FileBlock(t, Some(path), verdict.counts, rules);
    m, rest, d := Described(pax, path, b), t[BLOCK + next.consumed..], next.counts;
    WeighOne(m, c);
    assert s == BytesOf(pax) + (BytesOf(b) + rest);
  }

  lemma WeighOne(m: Member, c: Counts)
    ensures Weigh([m], c) == match m
      case Directory(_) => Counts(c.members + 1, c.headerBytes + BLOCK, c.unpackedBytes)
      case File(b) => Counts(c.members + 1, c.headerBytes + BLOCK, c.unpackedBytes + |b.payload|)
      case Described(pax, _, b) =>
        Counts(c.members + 2, c.headerBytes + 2 * BLOCK + |pax.payload| + |pax.padding|, c.unpackedBytes + |b.payload|)
  {
    assert [m][1..] == [];
  }

  lemma PaxBlock(s: Bytes, c: Counts, rules: Rules) returns (b: Block)
    requires BLOCK <= |s| && !Zeros(s[..BLOCK]) && Scan(s, None, c, rules).Continue?
    requires Type(s[..BLOCK]) == PAX_TYPE
    ensures var v := Scan(s, None, c, rules);
      && WellFormed(b, PAX_TYPE, rules) && Name(b.header) == PAX_NAME
      && s == BytesOf(b) + s[BLOCK + v.consumed..]
      && v.pending.Some? && PathRecord(b.payload, v.pending.value, rules) && rules.allowed(v.pending.value, false)
      && v.counts == Counts(c.members + 1, c.headerBytes + BLOCK + |b.payload| + |b.padding|, c.unpackedBytes)
      && Within(v.counts)
  {
    hide Canonical, PaxPath, PathRecord, Size, Name, Zeros, EndsWell;
    b := BlockFound(s, PAX_TYPE, rules);
    var path := Scan(s, None, c, rules).pending.value;
    PaxPathExactly(b.payload, path, rules);
  }

  lemma FileBlock(s: Bytes, pending: Option<Bytes>, c: Counts, rules: Rules) returns (b: Block)
    requires Scan(s, pending, c, rules).Continue? || (pending.Some? && Scan(s, pending, c, rules) != Reject)
    requires pending.None? ==> !Zeros(s[..BLOCK]) && Type(s[..BLOCK]) == FILE_TYPE
    ensures BLOCK <= |s|
    ensures var v := Scan(s, pending, c, rules);
      && v.Continue? && WellFormed(b, FILE_TYPE, rules)
      && s == BytesOf(b) + s[BLOCK + v.consumed..]
      && (if pending.Some? then Name(b.header) == First(pending.value, 100) else rules.allowed(Name(b.header), false))
      && v.pending.None?
      && v.counts == Counts(c.members + 1, c.headerBytes + BLOCK, c.unpackedBytes + |b.payload|)
      && Within(v.counts)
  {
    hide Canonical, PaxPath, PathRecord, Size, Name, Zeros, EndsWell, First;
    CanonicalKinds(s[..BLOCK], rules);
    b := BlockFound(s, FILE_TYPE, rules);
  }

  lemma CanonicalKinds(header: Bytes, rules: Rules)
    ensures Canonical(header, rules) ==>
      Type(header) == FILE_TYPE || Type(header) == DIRECTORY_TYPE || Type(header) == PAX_TYPE
  {
  }

  lemma DirectoryBlock(s: Bytes, c: Counts, rules: Rules) returns (b: Block)
    requires BLOCK <= |s| && !Zeros(s[..BLOCK]) && Scan(s, None, c, rules).Continue?
    requires Type(s[..BLOCK]) != FILE_TYPE && Type(s[..BLOCK]) != PAX_TYPE
    ensures Grammatical(Directory(b), rules) && s == BytesOf(b) + s[BLOCK..]
    ensures Scan(s, None, c, rules) == Continue(0, None, Counts(c.members + 1, c.headerBytes + BLOCK, c.unpackedBytes))
    ensures Within(Scan(s, None, c, rules).counts)
  {
    hide Canonical, PaxPath, PathRecord, Size, Name, Zeros, EndsWell;
    CanonicalKinds(s[..BLOCK], rules);
    assert Padded(0) == 0;
    assert Filled(s[BLOCK..], 0) by { NoZeros(s[BLOCK..]); }
    b := BlockFound(s, DIRECTORY_TYPE, rules);
  }

  lemma NoZeros(s: Bytes)
    ensures Zeros(s[0..0])
  {
  }

  /** What is accepted is an archive of the grammar. */
  lemma {:induction false} AcceptedIsArchive(s: Bytes, c: Counts, rules: Rules)
    requires Accepts(s, None, c, rules) && Within(c)
    ensures IsArchive(s, c, rules)
    decreases |s|
  {
    var verdict := Scan(s, None, c, rules);
    if verdict == Accept {
      ClosingFound(s, c, rules);
    } else {
      var m: Member, rest: Bytes, d: Counts := MemberFound(s, c, rules);
      AcceptedIsArchive(rest, d, rules);
      hide Scan, Accepts, Grammatical, Spells;
      var members, tail :| Spells(rest, members, tail, d, rules);
      OneMember(m, members, rest, tail, c, d, rules);
    }
  }

  lemma ClosingFound(s: Bytes, c: Counts, rules: Rules)
    requires Scan(s, None, c, rules) == Accept && Within(c)
    ensures IsArchive(s, c, rules)
  {
    hide Canonical, PaxPath, Size, Name;
    assert s == s[..BLOCK] + s[BLOCK..];
    assert s == Archive([]) + s;
    assert Spells(s, [], s, c, rules);
  }

  lemma MemberFound(s: Bytes, c: Counts, rules: Rules) returns (m: Member, rest: Bytes, d: Counts)
    requires Accepts(s, None, c, rules) && Scan(s, None, c, rules) != Accept
    ensures Grammatical(m, rules) && s == Encoded(m) + rest && |rest| < |s|
    ensures Weigh([m], c) == d && Within(d) && Accepts(rest, None, d, rules)
  {
    hide Canonical, PaxPath, PathRecord, Size, Name, Zeros, EndsWell, First;
    var verdict := Scan(s, None, c, rules);
    if Type(s[..BLOCK]) == PAX_TYPE {
      m, rest, d := PaxFound(s, c, rules);
    } else if Type(s[..BLOCK]) == FILE_TYPE {
      var b := FileBlock(s, None, c, rules);
      m, rest, d := File(b), s[BLOCK + verdict.consumed..], verdict.counts;
      assert [m][1..] == [];
    } else {
      var b := DirectoryBlock(s, c, rules);
      m, rest, d := Directory(b), s[BLOCK..], verdict.counts;
      assert [m][1..] == [];
    }
  }

  lemma {:induction false} ArchiveAccepted(s: Bytes, members: seq<Member>, tail: Bytes, c: Counts, rules: Rules)
    requires Spells(s, members, tail, c, rules)
    ensures Accepts(s, None, c, rules)
    decreases |members|
  {
    if members == [] {
      ClosingAccepted(s, c, rules);
    } else {
      var m, rest := members[0], Archive(members[1..]) + tail;
      assert s == Encoded(m) + rest;
      WeighMore(members, c);
      WeighOne(m, c);
      WeighGrows(members[1..], Weigh([m], c));
      hide Accepts, Scan, Weigh, Grammatical, Encoded, Closing;
      assert Spells(rest, members[1..], tail, Weigh([m], c), rules);
      ArchiveAccepted(rest, members[1..], tail, Weigh([m], c), rules);
      MemberAccepted(s, m, rest, c, rules);
    }
  }

  lemma WeighMore(members: seq<Member>, c: Counts)
    requires members != []
    ensures Weigh(members, c) == Weigh(members[1..], Weigh([members[0]], c))
  {
    WeighOne(members[0], c);
  }

  lemma ClosingAccepted(s: Bytes, c: Counts, rules: Rules)
    requires Closing(s)
    ensures Accepts(s, None, c, rules)
  {
    hide Canonical, ScanPax, ScanFile, ScanDirectory;
    assert Zeros(s[..BLOCK]) && EndsWell(s[BLOCK..]);
  }

  lemma MemberAccepted(s: Bytes, m: Member, rest: Bytes, c: Counts, rules: Rules)
    requires Grammatical(m, rules) && s == Encoded(m) + rest && Within(Weigh([m], c))
    requires Accepts(rest, None, Weigh([m], c), rules)
    ensures Accepts(s, None, c, rules)
  {
    WeighOne(m, c);
    hide Weigh, Scan, Accepts, WellFormed, PathRecord, Canonical, Size, Name, First;
    match m {
      case Directory(b) =>
        DirectoryScanned(s, b, rest, c, rules);
        ScannedAccepted(s, None, c, rules);
      case File(b) =>
        FileScanned(s, b, rest, None, c, rules);
        ScannedAccepted(s, None, c, rules);
      case Described(pax, path, b) =>
        var d := Counts(c.members + 1, c.headerBytes + BLOCK + |pax.payload| + |pax.padding|, c.unpackedBytes);
        var t := BytesOf(b) + rest;
        assert s == BytesOf(pax) + t;
        PaxScanned(s, pax, path, t, c, rules);
        FileScanned(t, b, rest, Some(path), d, rules);
        ScannedAccepted(t, Some(path), d, rules);
        ScannedAccepted(s, None, c, rules);
    }
  }

  lemma ScannedAccepted(s: Bytes, pending: Option<Bytes>, c: Counts, rules: Rules)
    requires var v := Scan(s, pending, c, rules);
      v.Continue? && Accepts(s[BLOCK + v.consumed..], v.pending, v.counts, rules)
    ensures Accepts(s, pending, c, rules)
  {
    hide Scan;
  }

  lemma DirectoryScanned(s: Bytes, b: Block, rest: Bytes, c: Counts, rules: Rules)
    requires WellFormed(b, DIRECTORY_TYPE, rules) && b.payload == [] && rules.allowed(Name(b.header), true)
    requires s == BytesOf(b) + rest && Within(Counts(c.members + 1, c.headerBytes + BLOCK, c.unpackedBytes))
    ensures |s| == BLOCK + |rest| && s[BLOCK..] == rest
    ensures Scan(s, None, c, rules) == Continue(0, None, Counts(c.members + 1, c.headerBytes + BLOCK, c.unpackedBytes))
  {
    BlockAhead(s, b, rest, DIRECTORY_TYPE, rules);
    hide Canonical, Name, Size, Zeros, EndsWell;
  }

  lemma FileScanned(s: Bytes, b: Block, rest: Bytes, pending: Option<Bytes>, c: Counts, rules: Rules)
    requires WellFormed(b, FILE_TYPE, rules) && s == BytesOf(b) + rest
    requires if pending.Some? then Name(b.header) == First(pending.value, 100) else rules.allowed(Name(b.header), false)
    requires Within(Counts(c.members + 1, c.headerBytes + BLOCK, c.unpackedBytes + |b.payload|))
    ensures BLOCK + Padded(Size(b.header)) <= |s| && s[BLOCK + Padded(Size(b.header))..] == rest
    ensures 0 <= Padded(Size(b.header))
    ensures Scan(s, pending, c, rules) == Continue(Padded(Size(b.header)), None,
      Counts(c.members + 1, c.headerBytes + BLOCK, c.unpackedBytes + |b.payload|))
  {
    BlockAhead(s, b, rest, FILE_TYPE, rules);
    hide Canonical, Name, Size, Zeros, EndsWell, First;
  }

  lemma PaxScanned(s: Bytes, b: Block, path: Bytes, rest: Bytes, c: Counts, rules: Rules)
    requires WellFormed(b, PAX_TYPE, rules) && s == BytesOf(b) + rest && Name(b.header) == PAX_NAME
    requires PathRecord(b.payload, path, rules) && rules.allowed(path, false)
    requires Within(Counts(c.members + 1, c.headerBytes + BLOCK + |b.payload| + |b.padding|, c.unpackedBytes))
    ensures BLOCK + Padded(Size(b.header)) <= |s| && s[BLOCK + Padded(Size(b.header))..] == rest
    ensures 0 <= Padded(Size(b.header))
    ensures Scan(s, None, c, rules) == Continue(Padded(Size(b.header)), Some(path),
      Counts(c.members + 1, c.headerBytes + BLOCK + |b.payload| + |b.padding|, c.unpackedBytes))
  {
    BlockAhead(s, b, rest, PAX_TYPE, rules);
    PaxPathExactly(b.payload, path, rules);
    hide Canonical, Name, Size, Zeros, EndsWell, PaxPath, PathRecord;
  }

  /** The prescan accepts a stream if and only if it is an archive of the grammar within the budgets. */
  lemma AcceptsExactly(stream: Bytes, rules: Rules)
    ensures Accepts(stream, None, Counts(0, 0, 0), rules) <==> IsArchive(stream, Counts(0, 0, 0), rules)
  {
    hide Accepts, Spells;
    var c := Counts(0, 0, 0);
    if Accepts(stream, None, c, rules) { AcceptedIsArchive(stream, c, rules); }
    if IsArchive(stream, c, rules) {
      var members, tail :| Spells(stream, members, tail, c, rules);
      ArchiveAccepted(stream, members, tail, c, rules);
    }
  }
}
