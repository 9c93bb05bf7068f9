/**
 Escaping a UDN into an element of a D-Bus object path
 (libdleyna/core/core.c; D-Bus Specification, section "Valid Object Paths").
 */
module UdnPath {
  import opened Wrappers

  /** A character of a C string over 7-bit bytes: no NUL inside, and no sign to extend in %02x. */
  type Ascii = b: int | 0 < b < 128 witness 1

  /** A byte of the output buffer; 0 terminates the string. */
  type Byte = b: int | 0 <= b < 256

  const UNDERSCORE: Ascii := 0x5f

  /** G_MAXUINT32 / 2 */
  const MAX_PATH: nat := 0xFFFF_FFFF / 2

  predicate IsAlnum(b: Byte) {
    0x30 <= b <= 0x39 || 0x41 <= b <= 0x5a || 0x61 <= b <= 0x7a
  }

  /** The alphabet of a path element. */
  predicate IsPathByte(b: Byte) {
    IsAlnum(b) || b == UNDERSCORE
  }

  function HexDigit(n: nat): (d: Ascii)
    requires n < 16
    ensures IsAlnum(d) && HexValue(d) == n
  {
    if n < 10 then 0x30 + n else 0x61 + n - 10
  }

  /** The value of a lower-case hexadecimal digit, or -1. */
  function HexValue(b: Byte): int {
    if 0x30 <= b <= 0x39 then b - 0x30
    else if 0x61 <= b <= 0x66 then b - 0x61 + 10
    else -1
  }

  /** A path byte stands for itself; anything else becomes _hh. */
  function EscapeChar(c: Ascii): seq<Byte> {
    if IsPathByte(c) then [c] else [UNDERSCORE, HexDigit(c / 16), HexDigit(c % 16)]
  }

  function Escape(udn: seq<Ascii>): seq<Byte> {
    if udn == [] then [] else Escape(udn[..|udn| - 1]) + EscapeChar(udn[|udn| - 1])
  }

  function EscapedCount(udn: seq<Ascii>): nat {
    if udn == [] then 0
    else EscapedCount(udn[..|udn| - 1]) + (if IsPathByte(udn[|udn| - 1]) then 0 else 1)
  }

  /** Length and alphabet of the escaped form. */
  lemma {:induction false} EscapeShape(udn: seq<Ascii>)
    ensures |Escape(udn)| == |udn| + 2 * EscapedCount(udn)
    ensures EscapedCount(udn) <= |udn|
    ensures forall b | b in Escape(udn) ::
              0x30 <= b <= 0x39 || 0x41 <= b <= 0x5a || 0x61 <= b <= 0x7a || b == 0x5f
  {
    if udn != [] {
      EscapeShape(udn[..|udn| - 1]);
    }
  }

  /** Letters of either case, digits and underscores stand for themselves, and nothing else does. */
  lemma PlainChar(c: Ascii)
    ensures EscapeChar(c) == [c] <==>
              0x30 <= c <= 0x39 || 0x41 <= c <= 0x5a || 0x61 <= c <= 0x7a || c == 0x5f
    ensures EscapeChar(c) != [c] ==>
              EscapeChar(c) == [0x5f, "0123456789abcdef"[c / 16] as int, "0123456789abcdef"[c % 16] as int]
  {
    hide HexDigit;
  }

  lemma {:induction false} PlainEscape(udn: seq<Ascii>)
    requires forall c | c in udn :: 0x30 <= c <= 0x39 || 0x41 <= c <= 0x5a || 0x61 <= c <= 0x7a || c == 0x5f
    ensures Escape(udn) == udn
  {
    if udn != [] {
      var front, c := udn[..|udn| - 1], udn[|udn| - 1];
      assert udn == front + [c] && c in udn && forall x | x in front :: x in udn;
      PlainEscape(front);
      PlainChar(c);
    }
  }

  // ---------------------------------------------------------------------
  // The buffer
  // ---------------------------------------------------------------------

  function Capacity(udn: seq<Ascii>): nat {
    if 3 * |udn| <= MAX_PATH then 3 * |udn| else MAX_PATH
  }

  /** How many characters the loop consumes, starting after the first n. */
  function Consumed(udn: seq<Ascii>, n: nat): (m: nat)
    requires n <= |udn|
    ensures n <= m <= |udn|
    ensures m < |udn| ==> |Escape(udn[..m])| >= Capacity(udn)
    ensures forall j | n <= j < m :: |Escape(udn[..j])| < Capacity(udn)
    decreases |udn| - n
  {
    if n == |udn| || |Escape(udn[..n])| >= Capacity(udn) then n else Consumed(udn, n + 1)
  }

  /** What the loop leaves in front of the terminator. */
  function PathElement(udn: seq<Ascii>): seq<Byte> {
    Escape(udn[..Consumed(udn, 0)])
  }

  /** The loop stays inside its buffer: it ends on the capacity, or short of it. */
  predicate Fits(udn: seq<Ascii>) {
    |PathElement(udn)| <= Capacity(udn)
  }

  lemma {:induction false} EscapeGrows(udn: seq<Ascii>, m: nat, n: nat)
    requires m <= n <= |udn|
    ensures |Escape(udn[..m])| + (n - m) <= |Escape(udn[..n])| <= |Escape(udn[..m])| + 3 * (n - m)
    decreases n
  {
    if m < n {
      EscapeGrows(udn, m, n - 1);
      assert udn[..n][..n - 1] == udn[..n - 1];
    }
  }

  /**
   When the loop stays in bounds, in terms of the escaped lengths of the input alone:
   the whole escaped form fits, or some prefix fills the buffer to the byte.
   */
  lemma FitsIff(udn: seq<Ascii>)
    ensures Fits(udn) <==>
            || |Escape(udn)| <= Capacity(udn)
            || exists n :: 0 <= n <= |udn| && |Escape(udn[..n])| == Capacity(udn)
  {
    var m := Consumed(udn, 0);
    assert udn[..|udn|] == udn;
    EscapeGrows(udn, m, |udn|);
    if |Escape(udn)| <= Capacity(udn) {
      assert Fits(udn);
    } else if n :| 0 <= n <= |udn| && |Escape(udn[..n])| == Capacity(udn) {
      assert m <= n;
      EscapeGrows(udn, m, n);
      assert Fits(udn);
    }
  }

  /** Inputs up to a third of the limit fit, and are escaped to the end. */
  lemma ShortUdnFits(udn: seq<Ascii>)
    requires 3 * |udn| <= 2147483647
    ensures Fits(udn) && PathElement(udn) == Escape(udn)
    ensures |PathElement(udn)| == |udn| + 2 * EscapedCount(udn)
  {
    var m := Consumed(udn, 0);
    assert udn[..|udn|] == udn && udn[..0] == [];
    EscapeShape(udn);
    EscapeShape(udn[..m]);
    EscapeGrows(udn, m, |udn|);
    assert m == |udn|;
  }

  /** A UDN already in the path alphabet is its own path element. */
  lemma PlainUdnStays(udn: seq<Ascii>)
    requires forall c | c in udn :: 0x30 <= c <= 0x39 || 0x41 <= c <= 0x5a || 0x61 <= c <= 0x7a || c == 0x5f
    requires 3 * |udn| <= 2147483647
    ensures Fits(udn) && PathElement(udn) == udn
  {
    ShortUdnFits(udn);
    PlainEscape(udn);
  }

  /** Every byte of every path element is in the alphabet of the D-Bus Specification, "Valid Object Paths". */
  lemma PathAlphabet(udn: seq<Ascii>)
    ensures forall b | b in PathElement(udn) ::
              0x30 <= b <= 0x39 || 0x41 <= b <= 0x5a || 0x61 <= b <= 0x7a || b == 0x5f
  {
    EscapeShape(udn[..Consumed(udn, 0)]);
  }

  lemma {:induction false} AllEscapedLength(udn: seq<Ascii>)
    requires forall c | c in udn :: !(0x30 <= c <= 0x39 || 0x41 <= c <= 0x5a || 0x61 <= c <= 0x7a || c == 0x5f)
    ensures |Escape(udn)| == 3 * |udn|
  {
    if udn != [] {
      var front, c := udn[..|udn| - 1], udn[|udn| - 1];
      assert udn == front + [c] && c in udn && forall x | x in front :: x in udn;
      AllEscapedLength(front);
      PlainChar(c);
    }
  }

  /** A UDN in which every character is escaped fits up to a third of the limit, and no further. */
  lemma AllEscapedFitsIff(udn: seq<Ascii>)
    requires forall c | c in udn :: !(0x30 <= c <= 0x39 || 0x41 <= c <= 0x5a || 0x61 <= c <= 0x7a || c == 0x5f)
    ensures Fits(udn) <==> 3 * |udn| <= 2147483647
  {
    FitsIff(udn);
    hide Fits, Escape, IsAlnum;
    forall n | 0 <= n <= |udn|
      ensures |Escape(udn[..n])| == 3 * n
    {
      assert forall c | c in udn[..n] :: c in udn;
      AllEscapedLength(udn[..n]);
    }
    assert udn[..|udn|] == udn;
  }

  /** The limit in the code does not keep long UDNs in bounds: enough dashes run over the end of the buffer. */
  lemma DashesOverrun(n: nat)
    requires 3 * n > 2147483647
    ensures !Fits(seq(n, _ => 0x2d))
  {
    AllEscapedFitsIff(seq(n, _ => 0x2d));
  }

  /** One turn of the loop: writes c at i, as itself or as g_snprintf of "_%02x" with its terminator. */
  method WriteChar(uuid: array<Byte>, i: nat, c: Ascii) returns (next: nat)
    requires i + |EscapeChar(c)| < uuid.Length
    modifies uuid
    ensures next == i + |EscapeChar(c)|
    ensures uuid[..next] == old(uuid[..i]) + EscapeChar(c)
    ensures uuid[next + 1..] == old(uuid[next + 1..])
  {
    if IsPathByte(c) {
      uuid[i] := c;
      next := i + 1;
    } else {
      var high: nat, low: nat := c / 16, c % 16;
      uuid[i] := UNDERSCORE;
      uuid[i + 1] := HexDigit(high);
      uuid[i + 2] := HexDigit(low);
      uuid[i + 3] := 0;
      next := i + 3;
    }
  }

  /** A character that would be written across the end of the buffer is the last one the loop consumes. */
  lemma RunsOver(udn: seq<Ascii>, n: nat)
    requires n < |udn| && n < Consumed(udn, 0) && |Escape(udn[..n + 1])| > Capacity(udn)
    ensures !Fits(udn)
  {
    hide Escape, Capacity;
    assert Consumed(udn, 0) == n + 1;
  }

  /**
   The loop: fills the buffer from the front and returns where the terminator belongs.
   None stands for a write behind the end of the buffer.  The size given to g_snprintf,
   that of the whole buffer, never shortens an escape: the buffer holds at least four bytes.
   */
  method FillBuffer(udn: seq<Ascii>, uuid: array<Byte>) returns (end: Option<nat>)
    requires uuid.Length == Capacity(udn) + 1
    modifies uuid
    ensures end.Some? <==> Fits(udn)
    ensures end.Some? ==> end.value == |PathElement(udn)| && uuid[..end.value] == PathElement(udn)
  {
    var destLen := uuid.Length - 1;
    var i, n := 0, 0;
    assert udn[..0] == [] && Escape(udn[..0]) == [];
    hide Escape, EscapeChar, Consumed, Fits, Capacity, IsPathByte;
    while n < |udn| && i < destLen
      invariant n <= Consumed(udn, 0)
      invariant i == |Escape(udn[..n])| <= destLen && uuid[..i] == Escape(udn[..n])
      decreases |udn| - n
    {
      EscapeNext(udn, n);
      var width := if IsPathByte(udn[n]) then 1 else 3;
      if i + width > destLen {
        RunsOver(udn, n);
        return None;
      }
      i := WriteChar(uuid, i, udn[n]);
      n := n + 1;
    }
    assert n == Consumed(udn, 0);
    return Some(i);
  }

  /** dleyna_core_prv_convert_udn_to_path; None stands for a write behind the end of the buffer. */
  method ConvertUdnToPath(udn: seq<Ascii>) returns (path: Option<array<Byte>>)
    ensures path.Some? <==> Fits(udn)
    ensures path.Some? ==>
              var uuid := path.value;
              && fresh(uuid) && |PathElement(udn)| < uuid.Length
              && uuid.Length == (if 3 * |udn| <= 2147483647 then 3 * |udn| else 2147483647) + 1
              && uuid[..|PathElement(udn)|] == PathElement(udn) && uuid[|PathElement(udn)|] == 0
  {
    var destLen := if 3 * |udn| <= MAX_PATH then 3 * |udn| else MAX_PATH;
    var uuid := new Byte[destLen + 1];
    var end := FillBuffer(udn, uuid);
    if end == None {
      return None;
    }
    uuid[end.value] := 0;
    return Some(uuid);
  }

  lemma EscapeNext(udn: seq<Ascii>, n: nat)
    requires n < |udn|
    ensures Escape(udn[..n + 1]) == Escape(udn[..n]) + EscapeChar(udn[n])
  {
    assert udn[..n + 1][..n] == udn[..n];
  }

  // ---------------------------------------------------------------------
  // Decoding
  // ---------------------------------------------------------------------

  /** Reads _hh as the byte hh and every other byte as itself. */
  function Decode(path: seq<Byte>): Option<seq<Byte>> {
    if path == [] then Some([])
    else if path[0] != UNDERSCORE then Prepend(path[0], Decode(path[1..]))
    else if |path| < 3 || HexValue(path[1]) < 0 || HexValue(path[2]) < 0 then None
    else Prepend(16 * HexValue(path[1]) + HexValue(path[2]), Decode(path[3..]))
  }

  function Prepend(b: Byte, rest: Option<seq<Byte>>): Option<seq<Byte>> {
    match rest
    case None => None
    case Some(bs) => Some([b] + bs)
  }

  lemma {:induction false} EscapeCons(c: Ascii, udn: seq<Ascii>)
    ensures Escape([c] + udn) == EscapeChar(c) + Escape(udn)
    decreases |udn|
  {
    if udn == [] {
      assert [c] + udn == [c];
      assert [c][..0] == [];
    } else {
      var front := udn[..|udn| - 1];
      EscapeCons(c, front);
      assert ([c] + udn)[..|udn|] == [c] + front;
      assert EscapeChar(c) + Escape(front) + EscapeChar(udn[|udn| - 1])
          == EscapeChar(c) + (Escape(front) + EscapeChar(udn[|udn| - 1]));
    }
  }

  lemma EscapeUncons(udn: seq<Ascii>)
    requires udn != []
    ensures Escape(udn) == EscapeChar(udn[0]) + Escape(udn[1..])
  {
    assert udn == [udn[0]] + udn[1..];
    EscapeCons(udn[0], udn[1..]);
  }

  function Underscores(udn: seq<Ascii>): nat {
    if udn == [] then 0 else (if udn[0] == UNDERSCORE then 1 else 0) + Underscores(udn[1..])
  }

  lemma {:induction false} UnderscoresCount(udn: seq<Ascii>)
    ensures Underscores(udn) == 0 <==> UNDERSCORE !in udn
  {
    if udn != [] {
      UnderscoresCount(udn[1..]);
      assert udn == [udn[0]] + udn[1..];
    }
  }

  lemma DecodeEscaped(c: Ascii, rest: seq<Byte>)
    requires c != UNDERSCORE
    ensures Decode(EscapeChar(c) + rest) == Prepend(c, Decode(rest))
  {
    var e := EscapeChar(c);
    assert (e + rest)[|e|..] == rest;
  }

  lemma {:induction false} DecodeInverts(udn: seq<Ascii>)
    requires UNDERSCORE !in udn
    ensures Decode(Escape(udn)) == Some(udn)
    decreases |udn|
  {
    if udn != [] {
      EscapeUncons(udn);
      DecodeInverts(udn[1..]);
      DecodeEscaped(udn[0], Escape(udn[1..]));
      hide Decode, Escape, EscapeChar;
      assert udn == [udn[0]] + udn[1..];
    }
  }

  lemma SwallowedIsLiteral(udn: seq<Ascii>)
    requires Escape(udn) != [] && HexValue(Escape(udn)[0]) >= 0
    ensures udn != [] && udn[0] != UNDERSCORE && Escape(udn)[0] == udn[0]
    ensures Escape(udn)[1..] == Escape(udn[1..])
    ensures Underscores(udn) == Underscores(udn[1..])
  {
    EscapeUncons(udn);
  }

  lemma DecodedLength(path: seq<Byte>)
    requires path != [] && Decode(path).Some?
    ensures path[0] == UNDERSCORE ==> |path| >= 3 && HexValue(path[1]) >= 0 && HexValue(path[2]) >= 0
    ensures var n := if path[0] == UNDERSCORE then 3 else 1;
            Decode(path[n..]).Some? && |Decode(path).value| == 1 + |Decode(path[n..]).value|
  {
  }

  /** A literal underscore swallows the two bytes behind it. */
  lemma {:induction false} DecodeShrinks(udn: seq<Ascii>)
    requires Decode(Escape(udn)).Some?
    ensures |Decode(Escape(udn)).value| + 2 * Underscores(udn) == |udn|
    decreases |udn|
  {
    if udn != [] {
      var e, rest := EscapeChar(udn[0]), udn[1..];
      EscapeUncons(udn);
      DecodedLength(Escape(udn));
      hide Decode, Escape;
      assert (e + Escape(rest))[|e|..] == Escape(rest);
      if udn[0] == UNDERSCORE {
        var rest2 := rest[1..][1..];
        SwallowedIsLiteral(rest);
        SwallowedIsLiteral(rest[1..]);
        assert Escape(udn)[3..] == Escape(rest2);
        DecodeShrinks(rest2);
      } else {
        DecodeShrinks(rest);
      }
    }
  }

  /** The escaping can be undone exactly when the UDN has no underscore of its own. */
  lemma RoundTripIff(udn: seq<Ascii>)
    ensures Decode(Escape(udn)) == Some(udn) <==> UNDERSCORE !in udn
  {
    if UNDERSCORE !in udn {
      DecodeInverts(udn);
    } else if Decode(Escape(udn)).Some? {
      UnderscoresCount(udn);
      DecodeShrinks(udn);
    }
  }

  /** Two underscore-free UDNs of permitted length never share a path element. */
  lemma PathElementsDiffer(a: seq<Ascii>, b: seq<Ascii>)
    requires UNDERSCORE !in a && UNDERSCORE !in b && a != b
    requires 3 * |a| <= 2147483647 && 3 * |b| <= 2147483647
    ensures PathElement(a) != PathElement(b)
  {
    ShortUdnFits(a);
    ShortUdnFits(b);
    RoundTripIff(a);
    RoundTripIff(b);
  }

  /** With underscores they can: "-" and "_2d". */
  lemma UnderscoreCollision()
    ensures PathElement([0x2d]) == PathElement([0x5f, 0x32, 0x64])
  {
    ShortUdnFits([0x2d]);
    ShortUdnFits([0x5f, 0x32, 0x64]);
    EscapeUncons([0x2d]);
    EscapeUncons([0x5f, 0x32, 0x64]);
    EscapeUncons([0x32, 0x64]);
    EscapeUncons([0x64]);
  }
}
