/** The text form of identifiers (globals.go). A string is the sequence of its bytes. */
module Uuids {
  import opened Rows

  const DIGITS: string := "0123456789abcdef"

  predicate IsDigit(c: char) {
    '0' <= c <= '9' || 'a' <= c <= 'f' || 'A' <= c <= 'F'
  }

  predicate IsLowerDigit(c: char) {
    '0' <= c <= '9' || 'a' <= c <= 'f'
  }

  function DigitValue(c: char): (v: nat)
    requires IsDigit(c)
    ensures v < 16
    ensures IsLowerDigit(c) ==> DIGITS[v] == c
  {
    if '0' <= c <= '9' then c as nat - '0' as nat
    else if 'a' <= c <= 'f' then c as nat - 'a' as nat + 10
    else c as nat - 'A' as nat + 10
  }

  predicate AllDigits(s: string) {
    forall k :: 0 <= k < |s| ==> IsDigit(s[k])
  }

  function Nibble(b: seq<Byte>, k: nat): (v: nat)
    requires k < 2 * |b|
    ensures v < 16
  {
    if k % 2 == 0 then b[k / 2] / 16 else b[k / 2] % 16
  }

  /** Two digits a byte. */
  function Hex(b: seq<Byte>): (s: string)
    ensures |s| == 2 * |b|
    ensures forall k :: 0 <= k < |s| ==> s[k] == DIGITS[Nibble(b, k)]
  {
    seq(2 * |b|, k requires 0 <= k < 2 * |b| => DIGITS[Nibble(b, k)])
  }

  function Unhex(s: string): (b: seq<Byte>)
    requires AllDigits(s)
    ensures |b| == |s| / 2
    ensures forall k :: 0 <= k < |b| ==> b[k] == 16 * DigitValue(s[2 * k]) + DigitValue(s[2 * k + 1])
  {
    seq(|s| / 2, k requires 0 <= k < |s| / 2 => 16 * DigitValue(s[2 * k]) + DigitValue(s[2 * k + 1]))
  }

  /** 8-4-4-4-12 */
  function Dashed(h: string): (s: string)
    requires |h| == 32
    ensures |s| == 36
  {
    h[..8] + "-" + h[8..12] + "-" + h[12..16] + "-" + h[16..20] + "-" + h[20..]
  }

  function Text(id: Uuid): string {
    Dashed(Hex(id))
  }

  /** `strings.ReplaceAll(s, "-", "")` */
  function Dashless(s: string): string {
    if s == [] then [] else (if s[0] == '-' then [] else [s[0]]) + Dashless(s[1..])
  }

  datatype ParseError = BadLength(length: nat) | BadByte(c: char)

  function FirstBad(s: string): (k: nat)
    requires !AllDigits(s)
    ensures k < |s| && !IsDigit(s[k]) && AllDigits(s[..k])
  {
    if !IsDigit(s[0]) then 0 else
      assert !AllDigits(s[1..]) by {
        var k :| 0 <= k < |s| && !IsDigit(s[k]);
        assert s[1..][k - 1] == s[k];
      }
      1 + FirstBad(s[1..])
  }

  function Parse(s: string): Result<Uuid, ParseError> {
    var h := Dashless(s);
    if |h| != 32 then Err(BadLength(|h|))
    else if AllDigits(h) then Ok(Unhex(h))
    else Err(BadByte(h[FirstBad(h)]))
  }

  /** A malformed id is answered with an error, yet the handler goes on with NULL, which is no row's id. */
  function IdOf(text: string): Option<Uuid> {
    match Parse(text)
    case Ok(id) => Some(id)
    case Err(_) => None
  }

  /** The text form of section 4 of RFC 9562, in lower case. */
  predicate Canonical(s: string) {
    |s| == 36 &&
    forall k :: 0 <= k < 36 ==> if k in {8, 13, 18, 23} then s[k] == '-' else IsLowerDigit(s[k])
  }

  function FoldDigit(c: char): char {
    if 'A' <= c <= 'F' then (c as int - 'A' as int + 'a' as int) as char else c
  }

  /** Lower case. */
  function Fold(s: string): (r: string)
    ensures |r| == |s| && forall k :: 0 <= k < |s| ==> r[k] == FoldDigit(s[k])
  {
    seq(|s|, k requires 0 <= k < |s| => FoldDigit(s[k]))
  }

  // ----- Hexadecimal -----

  lemma UnhexHex(b: seq<Byte>)
    ensures AllDigits(Hex(b)) && Unhex(Hex(b)) == b
  {
    var h := Hex(b);
    assert forall v :: 0 <= v < 16 ==> IsLowerDigit(DIGITS[v]) && DigitValue(DIGITS[v]) == v;
    forall k | 0 <= k < |b|
      ensures Unhex(h)[k] == b[k]
    {
      assert h[2 * k] == DIGITS[Nibble(b, 2 * k)] && h[2 * k + 1] == DIGITS[Nibble(b, 2 * k + 1)];
      assert (2 * k) / 2 == k && (2 * k + 1) / 2 == k;
    }
  }

  lemma DigitAndBack(c: char)
    requires IsDigit(c)
    ensures DIGITS[DigitValue(c)] == FoldDigit(c)
  {
    if !IsLowerDigit(c) {
      assert DigitValue(c) == DigitValue(FoldDigit(c));
    }
  }

  lemma Halves(hi: nat, lo: nat)
    requires hi < 16 && lo < 16
    ensures (16 * hi + lo) / 16 == hi && (16 * hi + lo) % 16 == lo
  {
  }

  lemma HexUnhex(s: string)
    requires AllDigits(s) && |s| % 2 == 0
    ensures Hex(Unhex(s)) == Fold(s)
  {
    var b := Unhex(s);
    forall k | 0 <= k < |s|
      ensures Hex(b)[k] == FoldDigit(s[k])
    {
      HexUnhexAt(s, k);
    }
  }

  lemma HexUnhexAt(s: string, k: nat)
    requires AllDigits(s) && |s| % 2 == 0 && k < |s|
    ensures Hex(Unhex(s))[k] == FoldDigit(s[k])
  {
    var i, b := k / 2, Unhex(s);
    assert b[i] == 16 * DigitValue(s[2 * i]) + DigitValue(s[2 * i + 1]);
    Halves(DigitValue(s[2 * i]), DigitValue(s[2 * i + 1]));
    DigitAndBack(s[k]);
    assert k == 2 * i || k == 2 * i + 1;
    assert Nibble(b, k) == DigitValue(s[k]);
  }

  lemma HexSlice(b: seq<Byte>, i: nat, j: nat)
    requires i <= j <= |b|
    ensures Hex(b[i..j]) == Hex(b)[2 * i..2 * j]
  {
    forall k | 0 <= k < 2 * (j - i)
      ensures Hex(b[i..j])[k] == Hex(b)[2 * i..2 * j][k]
    {
      assert (2 * i + k) / 2 == i + k / 2 && (2 * i + k) % 2 == k % 2;
    }
  }

  lemma UnhexStep(s: string, k: nat)
    requires 2 * k + 2 <= |s| && AllDigits(s[..2 * k + 2])
    ensures AllDigits(s[..2 * k])
    ensures Unhex(s[..2 * k + 2]) == Unhex(s[..2 * k]) + [16 * DigitValue(s[2 * k]) + DigitValue(s[2 * k + 1])]
  {
    assert forall j :: 0 <= j < 2 * k ==> s[..2 * k][j] == s[..2 * k + 2][j];
    assert s[..2 * k + 2][2 * k] == s[2 * k] && s[..2 * k + 2][2 * k + 1] == s[2 * k + 1];
  }

  // ----- Dashes -----

  lemma {:induction false} DashlessPlain(s: string)
    requires '-' !in s
    ensures Dashless(s) == s
  {
    if s != [] {
      DashlessPlain(s[1..]);
    }
  }

  lemma {:induction false} DashlessPart(p: string, rest: string)
    requires '-' !in p
    ensures Dashless(p + "-" + rest) == p + Dashless(rest)
  {
    if p == [] {
      assert (p + "-" + rest)[1..] == rest;
    } else {
      assert (p + "-" + rest)[1..] == p[1..] + "-" + rest;
      DashlessPart(p[1..], rest);
    }
  }

  lemma DashedNested(h: string)
    requires |h| == 32
    ensures Dashed(h) == h[..8] + "-" + (h[8..12] + "-" + (h[12..16] + "-" + (h[16..20] + "-" + h[20..])))
    ensures h == h[..8] + (h[8..12] + (h[12..16] + (h[16..20] + h[20..])))
  {
  }

  lemma DashlessDashed(h: string)
    requires |h| == 32 && '-' !in h
    ensures Dashless(Dashed(h)) == h
  {
    DashedNested(h);
    var t3 := h[16..20] + "-" + h[20..];
    var t2 := h[12..16] + "-" + t3;
    var t1 := h[8..12] + "-" + t2;
    DashlessPart(h[..8], t1);
    DashlessPart(h[8..12], t2);
    DashlessPart(h[12..16], t3);
    DashlessPart(h[16..20], h[20..]);
    DashlessPlain(h[20..]);
  }

  /** The digits of a text in canonical shape. */
  function Digits(s: string): string
    requires |s| == 36
  {
    s[..8] + s[9..13] + s[14..18] + s[19..23] + s[24..]
  }

  lemma CanonicalIsDashed(s: string)
    requires Canonical(s)
    ensures s == Dashed(Digits(s)) && forall k :: 0 <= k < 32 ==> IsLowerDigit(Digits(s)[k])
  {
    var d := Digits(s);
    assert d[..8] == s[..8] && d[8..12] == s[9..13] && d[12..16] == s[14..18] && d[16..20] == s[19..23] && d[20..] == s[24..];
    assert s[8..9] == "-" && s[13..14] == "-" && s[18..19] == "-" && s[23..24] == "-";
    assert s == s[..8] + s[8..9] + s[9..13] + s[13..14] + s[14..18] + s[18..19] + s[19..23] + s[23..24] + s[24..];
    forall k | 0 <= k < 32
      ensures IsLowerDigit(Digits(s)[k])
    {
      var p := if k < 8 then k else if k < 12 then k + 1 else if k < 16 then k + 2 else if k < 20 then k + 3 else k + 4;
      assert Digits(s)[k] == s[p];
    }
  }

  lemma HexIsLower(b: seq<Byte>)
    ensures forall k :: 0 <= k < |Hex(b)| ==> IsLowerDigit(Hex(b)[k])
  {
    assert forall v :: 0 <= v < 16 ==> IsLowerDigit(DIGITS[v]);
  }

  // ----- What the two functions promise together -----

  lemma ParseFormat(id: Uuid)
    ensures Parse(Text(id)) == Ok(id)
  {
    HexIsLower(id);
    DashlessDashed(Hex(id));
    UnhexHex(id);
  }

  /** Different identifiers have different texts. */
  lemma FormatInjective(a: Uuid, b: Uuid)
    ensures Text(a) == Text(b) <==> a == b
  {
    ParseFormat(a);
    ParseFormat(b);
  }

  /** The canonical texts are exactly the formatted ones, and formatting what was parsed gives them back. */
  lemma CanonicalTexts(s: string)
    ensures Canonical(s) <==> Parse(s).Ok? && Text(Parse(s).value) == s
  {
    if Canonical(s) {
      CanonicalIsDashed(s);
      var h := Digits(s);
      DashlessDashed(h);
      HexUnhex(h);
      assert Fold(h) == h;
    }
    if Parse(s).Ok? && Text(Parse(s).value) == s {
      FormatIsCanonical(Parse(s).value);
    }
  }

  lemma FormatIsCanonical(id: Uuid)
    ensures Canonical(Text(id))
  {
    HexIsLower(id);
  }

  /** Format after parse: canonical text, and a second round changes nothing. */
  lemma Normalised(s: string)
    requires Parse(s).Ok?
    ensures var text := Text(Parse(s).value);
            Canonical(text) && Parse(text) == Parse(s) && Text(Parse(text).value) == text
  {
    FormatIsCanonical(Parse(s).value);
    ParseFormat(Parse(s).value);
  }

  /** Two accepted strings name the same row iff they agree without dashes and case. */
  lemma SameUuid(s: string, t: string)
    requires Parse(s).Ok? && Parse(t).Ok?
    ensures Parse(s) == Parse(t) <==> Fold(Dashless(s)) == Fold(Dashless(t))
  {
    var g, h := Dashless(s), Dashless(t);
    HexUnhex(g);
    HexUnhex(h);
    if Fold(g) == Fold(h) {
      UnhexHex(Unhex(g));
      UnhexHex(Unhex(h));
    }
  }

  // ----- The code itself -----

  /** `hex.Encode(dst[at..], src)` */
  method Encode(dst: array<char>, at: nat, src: seq<Byte>)
    requires at + 2 * |src| <= dst.Length
    modifies dst
    ensures dst[..at + 2 * |src|] == old(dst[..at]) + Hex(src)
    ensures dst[at + 2 * |src|..] == old(dst[at + 2 * |src|..])
  {
    for k := 0 to |src|
      invariant forall j :: 0 <= j < 2 * k ==> dst[at + j] == Hex(src)[j]
      invariant forall j :: 0 <= j < dst.Length && !(at <= j < at + 2 * k) ==> dst[j] == old(dst[j])
    {
      assert (2 * k) / 2 == k && (2 * k + 1) / 2 == k;
      assert Hex(src)[2 * k] == DIGITS[Nibble(src, 2 * k)] && Hex(src)[2 * k + 1] == DIGITS[Nibble(src, 2 * k + 1)];
      dst[at + 2 * k] := DIGITS[src[k] / 16];
      dst[at + 2 * k + 1] := DIGITS[src[k] % 16];
    }
  }

  method Dash(dst: array<char>, at: nat)
    requires at < dst.Length
    modifies dst
    ensures dst[..at + 1] == old(dst[..at]) + "-"
    ensures dst[at + 1..] == old(dst[at + 1..])
  {
    dst[at] := '-';
  }

  lemma HexPieces(id: Uuid)
    ensures var h := Hex(id);
            && Hex(id[..4]) == h[..8] && Hex(id[4..6]) == h[8..12] && Hex(id[6..8]) == h[12..16]
            && Hex(id[8..10]) == h[16..20] && Hex(id[10..]) == h[20..]
  {
    HexSlice(id, 0, 4);
    HexSlice(id, 4, 6);
    HexSlice(id, 6, 8);
    HexSlice(id, 8, 10);
    HexSlice(id, 10, 16);
  }

  method FormatUuid(id: Uuid) returns (s: string)
    ensures s == Text(id)
  {
    var text := new char[36];
    HexPieces(id);
    Encode(text, 0, id[..4]);
    assert text[..8] == Hex(id)[..8];
    Dash(text, 8);
    Encode(text, 9, id[4..6]);
    Dash(text, 13);
    ghost var first := text[..14];
    assert first == Hex(id)[..8] + "-" + Hex(id)[8..12] + "-";
    Encode(text, 14, id[6..8]);
    Dash(text, 18);
    ghost var second := text[..19];
    assert second == first + Hex(id)[12..16] + "-";
    Encode(text, 19, id[8..10]);
    Dash(text, 23);
    ghost var third := text[..24];
    assert third == second + Hex(id)[16..20] + "-";
    Encode(text, 24, id[10..]);
    s := text[..];
    assert s == text[..36];
    assert s == third + Hex(id)[20..];
  }

  /** Writes the sixteen bytes only when the text is accepted. */
  method ParseUuid(src: string, dst: array<Byte>) returns (error: Option<ParseError>)
    requires dst.Length == 16
    modifies dst
    ensures match Parse(src)
            case Ok(id) => error == None && dst[..] == id
            case Err(e) => error == Some(e) && dst[..] == old(dst[..])
  {
    var h := Dashless(src);
    if |h| != 32 {
      return Some(BadLength(|h|));
    }
    var bytes, bad := Decode(h);
    if bad.Some? {
      return Some(BadByte(bad.value));
    }
    for k := 0 to 16
      invariant dst[..k] == bytes[..k]
    {
      dst[k] := bytes[k];
    }
    return None;
  }

  /** `hex.DecodeString` */
  method Decode(h: string) returns (bytes: seq<Byte>, bad: Option<char>)
    requires |h| % 2 == 0
    ensures if AllDigits(h) then bytes == Unhex(h) && bad == None else bad == Some(h[FirstBad(h)])
  {
    bytes, bad := [], None;
    for k := 0 to |h| / 2
      invariant AllDigits(h[..2 * k]) && bytes == Unhex(h[..2 * k]) && bad == None
    {
      assert h[..2 * k + 1] == h[..2 * k] + [h[2 * k]];
      if !IsDigit(h[2 * k]) {
        FirstBadIs(h, 2 * k);
        return bytes, Some(h[2 * k]);
      }
      assert h[..2 * k + 2] == h[..2 * k + 1] + [h[2 * k + 1]];
      if !IsDigit(h[2 * k + 1]) {
        FirstBadIs(h, 2 * k + 1);
        return bytes, Some(h[2 * k + 1]);
      }
      UnhexStep(h, k);
      bytes := bytes + [16 * DigitValue(h[2 * k]) + DigitValue(h[2 * k + 1])];
    }
    assert h[..2 * (|h| / 2)] == h;
  }

  lemma {:induction false} FirstBadIs(s: string, k: nat)
    requires k < |s| && !IsDigit(s[k]) && AllDigits(s[..k])
    ensures !AllDigits(s) && FirstBad(s) == k
  {
    if k > 0 {
      assert s[0] == s[..k][0];
      assert s[1..][..k - 1] == s[..k][1..];
      FirstBadIs(s[1..], k - 1);
    }
  }
}
