/**
 What the header readers of the prescan mean, byte by byte: the checksum, the numbers, the name and
 the fields that a header must have.
 */
module TarHeaders {
  import opened Wrappers
  import opened TarPrescan

  function Ascii(text: string): Bytes
    requires forall i :: 0 <= i < |text| ==> text[i] < 128 as char
  {
    seq(|text|, i requires 0 <= i < |text| => text[i] as int)
  }

  // ---- numbers -----------------------------------------------------------------------------

  /** Digits by their weights, the first one weighing most. */
  function Weighted(digits: Bytes, base: nat): int {
    if digits == [] then 0 else (digits[0] - 0x30) * Power(base, |digits| - 1) + Weighted(digits[1..], base)
  }

  lemma {:induction false} WeightedAppend(digits: Bytes, last: Byte, base: nat)
    ensures Weighted(digits + [last], base) == Weighted(digits, base) * base + last - 0x30
  {
    if digits == [] {
      assert [last][1..] == [];
      assert Power(base, 0) == 1;
    } else {
      assert (digits + [last])[1..] == digits[1..] + [last];
      WeightedAppend(digits[1..], last, base);
      var d: int := digits[0];
      PowerTimes(d - 0x30, base, |digits| - 1);
      Distribute((d - 0x30) * Power(base, |digits| - 1), Weighted(digits[1..], base), base);
    }
  }

  lemma PowerTimes(x: int, base: nat, n: nat)
    ensures x * Power(base, n + 1) == x * Power(base, n) * base
  {
  }

  lemma Distribute(x: int, y: int, z: int)
    ensures (x + y) * z == x * z + y * z
  {
  }

  /** A digit string reads as its digits by weight. */
  lemma {:induction false} ValueIs(digits: Bytes, base: nat)
    ensures Value(digits, base) == Weighted(digits, base)
  {
    if digits != [] {
      var front, last := digits[..|digits| - 1], digits[|digits| - 1];
      ValueIs(front, base);
      WeightedAppend(front, last, base);
      assert digits == front + [last];
    }
  }

  // ---- the checksum ------------------------------------------------------------------------

  /** The first `n` bytes added up, with the checksum's own field read as spaces. */
  function Spaced(header: Bytes, n: nat): int
    requires n <= |header|
  {
    if n == 0 then 0 else Spaced(header, n - 1) + if 148 <= n - 1 < 156 then 0x20 else header[n - 1]
  }

  lemma {:induction false} SumIs(header: Bytes, read: Bytes, n: nat)
    requires n <= |header| == |read|
    requires forall i :: 0 <= i < |header| ==> read[i] == if 148 <= i < 156 then 0x20 else header[i]
    ensures Sum(read[..n]) == Spaced(header, n)
  {
    if n > 0 {
      SumIs(header, read, n - 1);
      assert read[..n][..n - 1] == read[..n - 1];
    }
  }

  /** The checksum adds up every byte of the header, its own field as eight spaces. */
  lemma ChecksumIs(header: Bytes)
    requires |header| == BLOCK
    ensures ChecksumOf(header) == Spaced(header, 512)
  {
    var read := header[..148] + Spaces(8) + header[156..];
    forall i | 0 <= i < |header| ensures read[i] == if 148 <= i < 156 then 0x20 else header[i] {
    }
    SumIs(header, read, 512);
    assert read[..512] == read;
  }

  /** So changing a byte changes it by the difference, unless the byte is in the checksum's own field. */
  lemma {:induction false} ChecksumChanges(header: Bytes, at: nat, b: Byte, n: nat)
    requires at < |header| && n <= |header|
    ensures Spaced(header[at := b], n) == Spaced(header, n) + if at < n && !(148 <= at < 156) then b - header[at] else 0
  {
    if n > 0 { ChecksumChanges(header, at, b, n - 1); }
  }

  // ---- names and sizes ---------------------------------------------------------------------

  /** The name is what precedes the first zero byte of its field of 100 bytes. */
  lemma NameIs(header: Bytes, name: Bytes)
    requires |header| == BLOCK
    ensures Name(header) == name <==>
      && |name| <= 100 && header[..|name|] == name
      && (forall i :: 0 <= i < |name| ==> name[i] != 0)
      && (|name| < 100 ==> header[|name|] == 0)
  {
    var field := header[..100];
    var n := FirstZero(field);
    assert Name(header) == field[..n];
    assert forall i :: 0 <= i < 100 ==> field[i] == header[i];
    if |name| <= 100 && header[..|name|] == name && (forall i :: 0 <= i < |name| ==> name[i] != 0)
        && (|name| < 100 ==> header[|name|] == 0) {
      assert forall i :: 0 <= i < |name| ==> header[i] == name[i];
      assert n == |name|;
    }
  }

  /** A payload occupies the fewest whole blocks that hold it. */
  lemma PaddedIs(size: nat, blocks: nat)
    ensures Padded(size) == blocks * 512 <==> (blocks - 1) * 512 < size <= blocks * 512
  {
  }

  lemma SizeIs(header: Bytes)
    requires |header| == BLOCK
    ensures Size(header) == Weighted(header[124..135], 8)
  {
    ValueIs(header[124..135], 8);
  }

  /** The shared limits and names, spelled out. */
  lemma Spelled(c: Counts, path: Bytes)
    ensures Within(c) <==> c.members <= 1024 && c.headerBytes <= 1024 * 1024 && c.unpackedBytes <= 32 * 1024 * 1024
    ensures PAX_NAME == Ascii("././@PaxHeader") && PATH_KEY == Ascii("path=")
    ensures First(path, 100) == if |path| <= 100 then path else path[..100]
    ensures MAX_TRAILING_ZERO_BYTES == 64 * 1024
  {
  }

  // ---- the whole header ----------------------------------------------------------------------

  predicate Zeroed(header: Bytes, from: nat, to: nat)
    requires from <= to <= |header|
  {
    forall i :: from <= i < to ==> header[i] == 0
  }

  /** A header of type "0", "5" or "x" with every field as a reproducible archive writes it. */
  ghost predicate Genuine(header: Bytes, rules: Rules) {
    && |header| == 512
    && var extended := header[156] == 'x' as int;
    && (header[156] == '0' as int || header[156] == '5' as int || extended)
    && header[100..108] == Ascii(if extended then "0000000" else "0000644") + [0]
    && header[108..116] == Ascii("0000000") + [0]
    && header[116..124] == Ascii("0000000") + [0]
    && (forall i :: 124 <= i < 135 ==> '0' as int <= header[i] <= '7' as int) && header[135] == 0
    && header[136..148] == Ascii(if extended then "00000000000" else "13615410400") + [0]
    && (forall i :: 148 <= i < 154 ==> '0' as int <= header[i] <= '7' as int)
    && Weighted(header[148..154], 8) == Spaced(header, 512)
    && header[154] == 0 && header[155] == ' ' as int
    && Zeroed(header, 157, 257)
    && header[257..265] == Ascii("ustar") + [0] + Ascii("00")
    && Zeroed(header, 265, 512)
    && exists name :: Named(header, name, rules)
  }

  /** The name field holds this name, which is UTF-8, and zeros. */
  predicate Named(header: Bytes, name: Bytes, rules: Rules)
    requires |header| == 512
  {
    && 1 <= |name| <= 100 && header[..|name|] == name && (forall i :: 0 <= i < |name| ==> name[i] != 0)
    && Zeroed(header, |name|, 100) && rules.utf8(name)
  }

  /** Octal digits of one length that weigh the same are the same. */
  lemma {:induction false} OctalUnique(a: Bytes, b: Bytes)
    requires |a| == |b| && Value(a, 8) == Value(b, 8)
    requires forall i :: 0 <= i < |a| ==> Octal(a[i]) && Octal(b[i])
    ensures a == b
  {
    if a != [] {
      var n := |a| - 1;
      OctalUnique(a[..n], b[..n]);
      assert a == a[..n] + [a[n]] && b == b[..n] + [b[n]];
    }
  }

  /** The checksum field is the one that the header's bytes call for. */
  lemma ChecksumField(header: Bytes)
    requires |header| == BLOCK
    ensures header[148..156] == OctalDigits(ChecksumOf(header), 6) + [0, 0x20] <==>
      && (forall i :: 148 <= i < 154 ==> '0' as int <= header[i] <= '7' as int)
      && Weighted(header[148..154], 8) == Spaced(header, 512)
      && header[154] == 0 && header[155] == ' ' as int
  {
    hide ChecksumOf, OctalDigits, Value, Weighted, Spaced;
    var digits, sum := header[148..154], ChecksumOf(header);
    ChecksumIs(header);
    ChecksumFits(header);
    ValueIs(digits, 8);
    var field := header[148..156];
    assert field == digits + [header[154], header[155]];
    assert forall i :: 0 <= i < 6 ==> digits[i] == header[148 + i];
    if (forall i :: 148 <= i < 154 ==> '0' as int <= header[i] <= '7' as int)
        && Weighted(digits, 8) == Spaced(header, 512) {
      OctalUnique(digits, OctalDigits(sum, 6));
    }
    if field == OctalDigits(sum, 6) + [0, 0x20] {
      assert digits == field[..6] == OctalDigits(sum, 6);
      assert field[6] == 0 && field[7] == 0x20;
      forall i | 148 <= i < 154 ensures '0' as int <= header[i] <= '7' as int {
        assert Octal(digits[i - 148]);
      }
    }
  }

  lemma NameField(header: Bytes, rules: Rules)
    requires |header| == BLOCK
    ensures Name(header) != [] && Zeros(header[|Name(header)|..100]) && rules.utf8(Name(header)) <==>
      exists name :: Named(header, name, rules)
  {
    hide Name;
    var name := Name(header);
    NameIs(header, name);
    ZeroedIs(header, |name|, 100);
    if name != [] && Zeros(header[|name|..100]) && rules.utf8(name) { assert Named(header, name, rules); }
    if other :| Named(header, other, rules) { NameIs(header, other); }
  }

  lemma ZeroedIs(header: Bytes, from: nat, to: nat)
    requires from <= to <= |header|
    ensures Zeros(header[from..to]) <==> Zeroed(header, from, to)
  {
    assert forall i :: from <= i < to ==> header[i] == header[from..to][i - from];
  }

  lemma Texts()
    ensures MAGIC == Ascii("ustar") + [0] + Ascii("00")
    ensures ZERO_ID == Ascii("0000000") + [0]
    ensures Mode(PAX_TYPE) == Ascii("0000000") + [0] && Mtime(PAX_TYPE) == Ascii("00000000000") + [0]
    ensures forall kind: Byte :: kind != PAX_TYPE ==> Mode(kind) == Ascii("0000644") + [0]
    ensures forall kind: Byte :: kind != PAX_TYPE ==> Mtime(kind) == Ascii("13615410400") + [0]
  {
  }

  /** The prescan takes exactly the genuine headers. */
  lemma CanonicalExactly(header: Bytes, rules: Rules)
    ensures Canonical(header, rules) <==> Genuine(header, rules)
  {
    if |header| == BLOCK {
      Texts();
      ChecksumField(header);
      NameField(header, rules);
      ZeroedIs(header, 157, 257);
      ZeroedIs(header, 265, 512);
      hide Ascii, Mode, Mtime, Name, ChecksumOf, OctalDigits, Weighted, Spaced, Zeros, Zeroed, Named;
    }
  }
}
