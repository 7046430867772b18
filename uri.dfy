/** `encodeURIComponent` and its inverse `decodeURIComponent`, as the
    broadcast uses them to put a subscriber's email into an unsubscribe
    link and the query-string parser uses them to read it back. */
module UriComponent {
  import opened Js

  newtype byte = x: int | 0 <= x < 256

  /** The characters `encodeURIComponent` leaves as they are. */
  predicate Unreserved(c: char) {
    ('A' <= c <= 'Z') || ('a' <= c <= 'z') || ('0' <= c <= '9') ||
    c == '-' || c == '_' || c == '.' || c == '!' || c == '~' || c == '*' ||
    c == '\'' || c == '(' || c == ')'
  }

  /** The UTF-8 encoding of one character. */
  function Utf8(c: char): (bs: seq<byte>)
    ensures 1 <= |bs| <= 4
  {
    var cp := c as int;
    if cp < 0x80 then [cp as byte]
    else if cp < 0x800 then [(0xC0 + cp / 64) as byte, (0x80 + cp % 64) as byte]
    else if cp < 0x10000 then
      [(0xE0 + cp / 4096) as byte, (0x80 + (cp / 64) % 64) as byte, (0x80 + cp % 64) as byte]
    else
      [(0xF0 + cp / 262144) as byte, (0x80 + (cp / 4096) % 64) as byte,
       (0x80 + (cp / 64) % 64) as byte, (0x80 + cp % 64) as byte]
  }

  function HexDigit(n: nat): char
    requires n < 16
  {
    if n < 10 then ('0' as int + n) as char else ('A' as int + n - 10) as char
  }

  function HexValue(c: char): Option<nat> {
    if '0' <= c <= '9' then Some(c as int - '0' as int)
    else if 'A' <= c <= 'F' then Some(c as int - 'A' as int + 10)
    else if 'a' <= c <= 'f' then Some(c as int - 'a' as int + 10)
    else None
  }

  /** `%XX` with upper-case hex digits. */
  function Percent(b: byte): string {
    ['%', HexDigit(b as int / 16), HexDigit(b as int % 16)]
  }

  function PercentAll(bs: seq<byte>): (t: string)
    ensures |t| == 3 * |bs|
  {
    if bs == [] then "" else Percent(bs[0]) + PercentAll(bs[1..])
  }

  function EncodeChar(c: char): (e: string)
    ensures |e| >= 1
    ensures Unreserved(c) ==> e == [c]
  {
    if Unreserved(c) then [c] else PercentAll(Utf8(c))
  }

  /** `encodeURIComponent(s)`. */
  function EncodeURIComponent(s: string): (e: string)
    ensures |e| >= |s|
    ensures (forall i :: 0 <= i < |s| ==> Unreserved(s[i])) ==> e == s
  {
    if s == [] then ""
    else
      assert [s[0]] + s[1..] == s;
      EncodeChar(s[0]) + EncodeURIComponent(s[1..])
  }

  /** The byte written as `%XX` at the start of `t`, if there is one. */
  function PercentByteAt(t: string): Option<byte> {
    if |t| < 3 || t[0] != '%' then None
    else match (HexValue(t[1]), HexValue(t[2]))
      case (Some(h), Some(l)) => if h < 16 && l < 16 then Some((h * 16 + l) as byte) else None
      case _ => None
  }

  /** `n` consecutive `%XX` groups at the start of `t`. */
  function PercentBytes(t: string, n: nat): (r: Option<seq<byte>>)
    ensures r.Some? ==> |r.value| == n && |t| >= 3 * n
  {
    if n == 0 then Some([])
    else match PercentByteAt(t)
      case None => None
      case Some(b) =>
        match PercentBytes(t[3..], n - 1)
        case None => None
        case Some(rest) => Some([b] + rest)
  }

  /** The length of the UTF-8 sequence a lead byte announces (0: not a lead byte). */
  function SequenceLength(b: byte): nat {
    if b < 0x80 then 1
    else if 0xC0 <= b < 0xE0 then 2
    else if 0xE0 <= b < 0xF0 then 3
    else if 0xF0 <= b < 0xF8 then 4
    else 0
  }

  predicate IsScalar(cp: int) {
    (0 <= cp < 0xD800) || (0xE000 <= cp < 0x11_0000)
  }

  /** The character a complete UTF-8 sequence stands for, refusing overlong
      forms, surrogates and bad continuation bytes. */
  function Utf8Char(bs: seq<byte>): Option<char>
    requires 1 <= |bs| <= 4
  {
    if exists i :: 1 <= i < |bs| && !(0x80 <= bs[i] < 0xC0) then None
    else
      var cp :=
        if |bs| == 1 then bs[0] as int
        else if |bs| == 2 then (bs[0] as int - 0xC0) * 64 + (bs[1] as int - 0x80)
        else if |bs| == 3 then
          (bs[0] as int - 0xE0) * 4096 + (bs[1] as int - 0x80) * 64 + (bs[2] as int - 0x80)
        else
          (bs[0] as int - 0xF0) * 262144 + (bs[1] as int - 0x80) * 4096 +
          (bs[2] as int - 0x80) * 64 + (bs[3] as int - 0x80);
      var least := if |bs| == 1 then 0 else if |bs| == 2 then 0x80 else if |bs| == 3 then 0x800 else 0x10000;
      if least <= cp && IsScalar(cp) then Some(cp as char) else None
  }

  function Prepend(c: char, r: Option<string>): Option<string> {
    match r
    case None => None
    case Some(s) => Some([c] + s)
  }

  /** `decodeURIComponent(t)`; `None` where it throws `URIError`. */
  function DecodeURIComponent(t: string): (r: Option<string>)
    ensures r.Some? ==> |r.value| <= |t|
    ensures (forall i :: 0 <= i < |t| ==> t[i] != '%') ==> r == Some(t)
    decreases |t|
  {
    if t == [] then Some("")
    else if t[0] != '%' then
      assert [t[0]] + t[1..] == t;
      Prepend(t[0], DecodeURIComponent(t[1..]))
    else match PercentByteAt(t)
      case None => None
      case Some(b0) =>
        var n := SequenceLength(b0);
        if n == 0 then None
        else match PercentBytes(t, n)
          case None => None
          case Some(bs) =>
            match Utf8Char(bs)
            case None => None
            case Some(c) => Prepend(c, DecodeURIComponent(t[3 * n..]))
  }

  lemma HexRoundTrip(n: nat)
    requires n < 16
    ensures HexValue(HexDigit(n)) == Some(n)
  {
  }

  lemma {:induction false} PercentAllRoundTrip(bs: seq<byte>, rest: string)
    ensures PercentBytes(PercentAll(bs) + rest, |bs|) == Some(bs)
  {
    if bs != [] {
      var t := PercentAll(bs) + rest;
      HexRoundTrip(bs[0] as int / 16);
      HexRoundTrip(bs[0] as int % 16);
      assert PercentByteAt(t) == Some(bs[0]);
      assert t[3..] == PercentAll(bs[1..]) + rest;
      PercentAllRoundTrip(bs[1..], rest);
      assert [bs[0]] + bs[1..] == bs;
    }
  }

  /** Decoding the UTF-8 bytes of a character gives the character back. */
  lemma Utf8RoundTrip(c: char)
    ensures SequenceLength(Utf8(c)[0]) == |Utf8(c)|
    ensures Utf8Char(Utf8(c)) == Some(c)
  {
    var cp := c as int;
    var bs := Utf8(c);
    if cp < 0x80 {
    } else if cp < 0x800 {
      assert (bs[0] as int - 0xC0) * 64 + (bs[1] as int - 0x80) == cp;
    } else if cp < 0x10000 {
      Split3(cp);
    } else {
      Split4(cp);
    }
  }

  lemma Split3(cp: int)
    requires 0x800 <= cp < 0x10000
    ensures (cp / 4096) * 4096 + ((cp / 64) % 64) * 64 + cp % 64 == cp
  {
    var q := cp / 64;
    assert q / 64 == cp / 4096;
  }

  lemma Split4(cp: int)
    requires 0x10000 <= cp < 0x11_0000
    ensures (cp / 262144) * 262144 + ((cp / 4096) % 64) * 4096 + ((cp / 64) % 64) * 64 + cp % 64 == cp
  {
    var q := cp / 64;
    assert q / 64 == cp / 4096;
    assert (q / 64) / 64 == cp / 262144;
    assert q == (q / 64) * 64 + q % 64;
    assert q / 64 == ((q / 64) / 64) * 64 + (q / 64) % 64;
  }

  lemma {:induction false} EncodeCharRoundTrip(c: char, rest: string)
    ensures DecodeURIComponent(EncodeChar(c) + rest) == Prepend(c, DecodeURIComponent(rest))
  {
    var t := EncodeChar(c) + rest;
    if Unreserved(c) {
      assert t[1..] == rest;
    } else {
      var bs := Utf8(c);
      PercentAllRoundTrip(bs, rest);
      Utf8RoundTrip(c);
      assert PercentAll(bs) == Percent(bs[0]) + PercentAll(bs[1..]);
      HexRoundTrip(bs[0] as int / 16);
      HexRoundTrip(bs[0] as int % 16);
      assert PercentByteAt(t) == Some(bs[0]);
      assert t[3 * |bs|..] == rest;
      if |bs| == 1 {
        assert bs[0] as int == c as int;
      }
    }
  }

  /** `decodeURIComponent(encodeURIComponent(s)) == s`. */
  lemma {:induction false} EncodeDecodeRoundTrip(s: string)
    ensures DecodeURIComponent(EncodeURIComponent(s)) == Some(s)
  {
    if s != [] {
      EncodeDecodeRoundTrip(s[1..]);
      EncodeCharRoundTrip(s[0], EncodeURIComponent(s[1..]));
      assert [s[0]] + s[1..] == s;
    }
  }

  /** An encoded component holds only unreserved characters and `%`: no
      `&`, `=`, `+`, `#` or space that a query-string parser would split on
      or rewrite. */
  lemma {:induction false} EncodedIsQuerySafe(s: string)
    ensures forall i :: 0 <= i < |EncodeURIComponent(s)| ==>
      Unreserved(EncodeURIComponent(s)[i]) || EncodeURIComponent(s)[i] == '%'
  {
    if s != [] {
      EncodedIsQuerySafe(s[1..]);
      PercentAllSafe(Utf8(s[0]));
      var e := EncodeChar(s[0]);
      var r := EncodeURIComponent(s[1..]);
      assert forall i :: 0 <= i < |e + r| ==> (e + r)[i] == if i < |e| then e[i] else r[i - |e|];
    }
  }

  lemma {:induction false} PercentAllSafe(bs: seq<byte>)
    ensures forall i :: 0 <= i < |PercentAll(bs)| ==>
      Unreserved(PercentAll(bs)[i]) || PercentAll(bs)[i] == '%'
  {
    if bs != [] {
      PercentAllSafe(bs[1..]);
      var p := Percent(bs[0]);
      var r := PercentAll(bs[1..]);
      assert forall i :: 0 <= i < |p + r| ==> (p + r)[i] == if i < |p| then p[i] else r[i - |p|];
    }
  }
}
