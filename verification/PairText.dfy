/** The key=value text exchanged with the payment gateway: writing it, reading it back, and the
    percent-decoding in between (section 2.1 of RFC 3986, octets as UTF-8). */
module PairText {
  import opened Options

  type Pairs = map<string, string>

  // ---------------------------------------------------------------------------------------
  // Splitting and joining
  // ---------------------------------------------------------------------------------------

  function Split(text: string, sep: char): (r: seq<string>)
    ensures r != []
  {
    if text == [] then [""]
    else
      var rest := Split(text[1..], sep);
      if text[0] == sep then [""] + rest else [[text[0]] + rest[0]] + rest[1..]
  }

  function Join(parts: seq<string>, sep: char): string {
    if parts == [] then ""
    else if |parts| == 1 then parts[0]
    else parts[0] + [sep] + Join(parts[1..], sep)
  }

  lemma {:induction false} SplitPrefix(part: string, text: string, sep: char)
    requires sep !in part
    ensures Split(part + text, sep) == [part + Split(text, sep)[0]] + Split(text, sep)[1..]
  {
    if part == [] {
      assert part + text == text;
      assert part + Split(text, sep)[0] == Split(text, sep)[0];
    } else {
      assert (part + text)[1..] == part[1..] + text;
      SplitPrefix(part[1..], text, sep);
      assert [part[0]] + (part[1..] + Split(text, sep)[0]) == part + Split(text, sep)[0];
    }
  }

  lemma {:induction false} SplitJoin(parts: seq<string>, sep: char)
    requires parts != [] && forall part :: part in parts ==> sep !in part
    ensures Split(Join(parts, sep), sep) == parts
  {
    if |parts| == 1 {
      SplitPrefix(parts[0], "", sep);
      assert parts[0] + "" == parts[0];
    } else {
      var rest := [sep] + Join(parts[1..], sep);
      assert Join(parts, sep) == parts[0] + rest;
      assert rest[1..] == Join(parts[1..], sep);
      SplitPrefix(parts[0], rest, sep);
      SplitJoin(parts[1..], sep);
      assert Split(rest, sep) == [""] + parts[1..];
      assert parts[0] + "" == parts[0];
    }
  }

  lemma {:induction false} JoinAppend(a: seq<string>, b: seq<string>, sep: char)
    requires a != [] && b != []
    ensures Join(a + b, sep) == Join(a, sep) + [sep] + Join(b, sep)
  {
    if |a| == 1 {
      assert (a + b)[1..] == b;
    } else {
      assert (a + b)[1..] == a[1..] + b;
      JoinAppend(a[1..], b, sep);
    }
  }

  /** Every segment is no longer than the text; with a separator in it, each is shorter. */
  lemma {:induction false} SplitShortens(text: string, sep: char)
    ensures forall part :: part in Split(text, sep) ==> |part| <= |text|
    ensures sep in text ==> forall part :: part in Split(text, sep) ==> |part| < |text|
  {
    if text != [] {
      SplitShortens(text[1..], sep);
      var rest := Split(text[1..], sep);
      assert forall part :: part in rest[1..] ==> part in rest;
    }
  }

  // ---------------------------------------------------------------------------------------
  // Percent-decoding
  // ---------------------------------------------------------------------------------------

  function HexDigit(c: char): (r: Option<int>)
    ensures r.Some? ==> 0 <= r.value < 16
  {
    if '0' <= c <= '9' then Some(c as int - '0' as int)
    else if 'A' <= c <= 'F' then Some(c as int - 'A' as int + 10)
    else if 'a' <= c <= 'f' then Some(c as int - 'a' as int + 10)
    else None
  }

  /** The octet written as a percent sign and two hexadecimal digits at the start of `s`. */
  function Octet(s: string): (r: Option<int>)
    ensures r.Some? ==> |s| >= 3 && 0 <= r.value < 256
  {
    if |s| < 3 || s[0] != '%' then None
    else
      var hi, lo := HexDigit(s[1]), HexDigit(s[2]);
      if hi.None? || lo.None? then None else Some(16 * hi.value + lo.value)
  }

  /** The payload of `n` continuation octets in a row, most significant first. */
  function Continuation(s: string, n: nat, acc: nat): (r: Option<nat>)
    ensures r.Some? ==> |s| >= 3 * n
  {
    if n == 0 then Some(acc)
    else
      var octet := Octet(s);
      if octet.None? || !(0x80 <= octet.value < 0xC0) then None
      else Continuation(s[3..], n - 1, 64 * acc + octet.value - 0x80)
  }

  predicate Scalar(code: nat) {
    code < 0xD800 || 0xE000 <= code < 0x11_0000
  }

  /** One encoded character at the start of `s` and the number of its octets. */
  function EncodedChar(s: string): (r: Option<(char, nat)>)
    ensures r.Some? ==> 1 <= r.value.1 <= 4 && |s| >= 3 * r.value.1
  {
    var first := Octet(s);
    if first.None? then None
    else
      var b := first.value;
      if b < 0x80 then Some((b as char, 1))
      else if b < 0xC0 || b >= 0xF8 then None
      else
        var n := if b < 0xE0 then 2 else if b < 0xF0 then 3 else 4;
        var payload := if n == 2 then b - 0xC0 else if n == 3 then b - 0xE0 else b - 0xF0;
        var least := if n == 2 then 0x80 else if n == 3 then 0x800 else 0x1_0000;
        var code := Continuation(s[3..], n - 1, payload);
        if code.None? || code.value < least || !Scalar(code.value) then None
        else Some((code.value as char, n))
  }

  /** Nothing when the text is malformed: the source throws. */
  function Decode(s: string): Option<string>
    decreases |s|
  {
    if s == [] then Some([])
    else if s[0] != '%' then
      var rest := Decode(s[1..]);
      if rest.None? then None else Some([s[0]] + rest.value)
    else
      var c := EncodedChar(s);
      if c.None? then None
      else
        var rest := Decode(s[3 * c.value.1..]);
        if rest.None? then None else Some([c.value.0] + rest.value)
  }

  /** Decoding never lengthens a text, and keeps its length only when it has no percent sign. */
  lemma {:induction false} DecodeShortens(s: string)
    ensures Decode(s).Some? ==> |Decode(s).value| <= |s|
    ensures Decode(s).Some? && '%' in s ==> |Decode(s).value| < |s|
    ensures '%' !in s ==> Decode(s) == Some(s)
    decreases |s|
  {
    if s == [] {
    } else if s[0] != '%' {
      DecodeShortens(s[1..]);
      assert [s[0]] + s[1..] == s;
    } else if EncodedChar(s).Some? {
      DecodeShortens(s[3 * EncodedChar(s).value.1..]);
    }
  }

  // ---------------------------------------------------------------------------------------
  // Percent-encoding, and decoding what was encoded
  // ---------------------------------------------------------------------------------------

  function HexOf(d: int): char
    requires 0 <= d < 16
  {
    if d < 10 then ('0' as int + d) as char else ('A' as int + d - 10) as char
  }

  function OctetText(b: int): string
    requires 0 <= b < 256
  {
    ['%', HexOf(b / 16), HexOf(b % 16)]
  }

  /** The octets of a character in UTF-8. */
  function Utf8(c: char): (r: seq<int>)
    ensures 1 <= |r| <= 4 && forall i :: 0 <= i < |r| ==> 0 <= r[i] < 256
  {
    var code := c as int;
    if code < 0x80 then [code]
    else if code < 0x800 then [0xC0 + code / 0x40, 0x80 + code % 0x40]
    else if code < 0x1_0000 then [0xE0 + code / 0x1000, 0x80 + code / 0x40 % 0x40, 0x80 + code % 0x40]
    else [0xF0 + code / 0x4_0000, 0x80 + code / 0x1000 % 0x40, 0x80 + code / 0x40 % 0x40, 0x80 + code % 0x40]
  }

  function OctetsText(octets: seq<int>): (r: string)
    requires forall i :: 0 <= i < |octets| ==> 0 <= octets[i] < 256
    ensures |r| == 3 * |octets|
  {
    if octets == [] then [] else OctetText(octets[0]) + OctetsText(octets[1..])
  }

  /** The characters that encodeURIComponent leaves alone. */
  predicate Unreserved(c: char) {
    'A' <= c <= 'Z' || 'a' <= c <= 'z' || '0' <= c <= '9'
    || c == '-' || c == '_' || c == '.' || c == '!' || c == '~' || c == '*' || c == '\'' || c == '(' || c == ')'
  }

  /** `plus` says whether spaces are written as plus signs, as forms do. */
  function EncodedText(c: char, plus: bool): string {
    if c == ' ' && plus then "+" else if Unreserved(c) then [c] else OctetsText(Utf8(c))
  }

  function Encode(s: string, plus: bool): string {
    if s == [] then [] else EncodedText(s[0], plus) + Encode(s[1..], plus)
  }

  /** Hexadecimal digits of either case, and no other characters. */
  lemma HexExactly(c: char, d: int)
    requires 0 <= d < 16
    ensures HexDigit(c) == Some(d) <==> c == HexOf(d) || (d >= 10 && c == ('a' as int + d - 10) as char)
  {
  }

  lemma OctetReads(b: int, rest: string)
    requires 0 <= b < 256
    ensures Octet(OctetText(b) + rest) == Some(b)
    ensures (OctetText(b) + rest)[3..] == rest
  {
  }

  /** The octets after the first, read back one by one. */
  lemma {:induction false} ContinuationReads(octets: seq<int>, rest: string, acc: nat)
    requires forall i :: 0 <= i < |octets| ==> 0x80 <= octets[i] < 0xC0
    ensures Continuation(OctetsText(octets) + rest, |octets|, acc) == Some(Payload(octets, acc))
  {
    if octets != [] {
      var later := OctetsText(octets[1..]) + rest;
      assert OctetsText(octets) + rest == OctetText(octets[0]) + later;
      OctetReads(octets[0], later);
      ContinuationReads(octets[1..], rest, 64 * acc + octets[0] - 0x80);
    }
  }

  function Payload(octets: seq<int>, acc: nat): nat
    requires forall i :: 0 <= i < |octets| ==> 0x80 <= octets[i] < 0xC0
  {
    if octets == [] then acc else Payload(octets[1..], 64 * acc + octets[0] - 0x80)
  }

  /** The bits of a code point, six at a time. */
  lemma Sixes(code: nat)
    ensures code == 64 * (code / 0x40) + code % 0x40
    ensures code / 0x40 == 64 * (code / 0x1000) + code / 0x40 % 0x40
    ensures code / 0x1000 == 64 * (code / 0x4_0000) + code / 0x1000 % 0x40
  {
  }

  lemma Payload1(a: int, acc: nat)
    requires 0x80 <= a < 0xC0
    ensures Payload([a], acc) == 64 * acc + a - 0x80
  {
    assert [a][1..] == [];
  }

  lemma Payload2(a: int, b: int, acc: nat)
    requires 0x80 <= a < 0xC0 && 0x80 <= b < 0xC0
    ensures Payload([a, b], acc) == 64 * (64 * acc + a - 0x80) + b - 0x80
  {
    assert [a, b][1..] == [b];
    Payload1(b, 64 * acc + a - 0x80);
  }

  lemma Payload3(a: int, b: int, c: int, acc: nat)
    requires 0x80 <= a < 0xC0 && 0x80 <= b < 0xC0 && 0x80 <= c < 0xC0
    ensures Payload([a, b, c], acc) == 64 * (64 * (64 * acc + a - 0x80) + b - 0x80) + c - 0x80
  {
    assert [a, b, c][1..] == [b, c];
    Payload2(b, c, 64 * acc + a - 0x80);
  }

  /** The part of the code point in the first octet. */
  function FirstPart(c: char): int {
    Utf8(c)[0] - (if |Utf8(c)| == 2 then 0xC0 else if |Utf8(c)| == 3 then 0xE0 else 0xF0)
  }

  lemma PayloadIsCode(c: char)
    requires c as int >= 0x80
    ensures FirstPart(c) >= 0
    ensures forall i :: 0 <= i < |Utf8(c)| - 1 ==> 0x80 <= Utf8(c)[1..][i] < 0xC0
    ensures Payload(Utf8(c)[1..], FirstPart(c)) == c as int
  {
    var octets, code := Utf8(c), c as int;
    Sixes(code);
    if code < 0x800 {
      assert octets[1..] == [octets[1]];
      Payload1(octets[1], FirstPart(c));
    } else if code < 0x1_0000 {
      assert octets[1..] == [octets[1], octets[2]];
      Payload2(octets[1], octets[2], FirstPart(c));
    } else {
      assert octets[1..] == [octets[1], octets[2], octets[3]];
      Payload3(octets[1], octets[2], octets[3], FirstPart(c));
    }
    hide Payload;
  }

  /** The first octet tells how many there are, and the code point needs that many. */
  lemma FirstTellsLength(c: char)
    requires c as int >= 0x80
    ensures var b, n := Utf8(c)[0], |Utf8(c)|;
      && 0xC0 <= b < 0xF8
      && (n == 2 <==> b < 0xE0) && (n == 3 <==> 0xE0 <= b < 0xF0) && (n == 4 <==> 0xF0 <= b)
      && (n == 2 ==> 0x80 <= c as int) && (n == 3 ==> 0x800 <= c as int) && (n == 4 ==> 0x1_0000 <= c as int)
  {
  }

  lemma OctetsTextFirst(octets: seq<int>, rest: string)
    requires octets != [] && forall i :: 0 <= i < |octets| ==> 0 <= octets[i] < 256
    ensures Octet(OctetsText(octets) + rest) == Some(octets[0])
    ensures (OctetsText(octets) + rest)[3..] == OctetsText(octets[1..]) + rest
  {
    assert OctetsText(octets) + rest == OctetText(octets[0]) + (OctetsText(octets[1..]) + rest);
    OctetReads(octets[0], OctetsText(octets[1..]) + rest);
  }

  /** An encoded character is read back, whatever follows it. */
  lemma CharReads(c: char, rest: string)
    ensures EncodedChar(OctetsText(Utf8(c)) + rest) == Some((c, |Utf8(c)|))
    ensures (OctetsText(Utf8(c)) + rest)[3 * |Utf8(c)|..] == rest
  {
    var octets := Utf8(c);
    OctetsTextFirst(octets, rest);
    if c as int >= 0x80 {
      FirstTellsLength(c);
      PayloadIsCode(c);
      ContinuationReads(octets[1..], rest, FirstPart(c));
      hide Utf8, OctetsText, Payload, Continuation, Octet;
    } else {
      hide OctetsText, Octet, Continuation;
    }
  }

  // The other way round: what is read as one character is its shortest form, and nothing else.

  /** The octets read from a text, one by one. */
  ghost predicate Spells(s: string, octets: seq<int>) {
    |s| >= 3 * |octets| && forall i :: 0 <= i < |octets| ==> Octet(s[3 * i..]) == Some(octets[i])
  }

  /** Continuation octets read, and the bits they add. */
  lemma ContinuationStep(s: string, n: nat, acc: nat)
    requires n > 0 && Continuation(s, n, acc).Some?
    ensures |s| >= 3 && Octet(s).Some? && 0x80 <= Octet(s).value < 0xC0
    ensures Continuation(s[3..], n - 1, 64 * acc + Octet(s).value - 0x80) == Continuation(s, n, acc)
  {
  }

  lemma SplitSix(high: nat, low: int)
    requires 0 <= low < 0x40
    ensures (64 * high + low) / 0x40 == high && (64 * high + low) % 0x40 == low
  {
  }

  lemma TwoSixes(code: nat)
    ensures code / 0x40 / 0x40 == code / 0x1000 && code / 0x1000 / 0x40 == code / 0x4_0000
  {
  }

  /** Only the shortest form of a character is read as it. */
  lemma OnlyShortestForm(s: string)
    requires EncodedChar(s).Some?
    ensures var (c, n) := EncodedChar(s).value; n == |Utf8(c)| && Spells(s, Utf8(c))
  {
    var b := Octet(s).value;
    var (c, n) := EncodedChar(s).value;
    assert s[0..] == s;
    if b >= 0x80 {
      var first := b - (if n == 2 then 0xC0 else if n == 3 then 0xE0 else 0xF0);
      ContinuationStep(s[3..], n - 1, first);
      var b1 := Octet(s[3..]).value;
      var acc1 := 64 * first + b1 - 0x80;
      SplitSix(first, b1 - 0x80);
      assert s[3..][3..] == s[6..];
      if n > 2 {
        ContinuationStep(s[6..], n - 2, acc1);
        var b2 := Octet(s[6..]).value;
        var acc2 := 64 * acc1 + b2 - 0x80;
        SplitSix(acc1, b2 - 0x80);
        assert s[6..][3..] == s[9..];
        if n > 3 {
          ContinuationStep(s[9..], n - 3, acc2);
          var b3 := Octet(s[9..]).value;
          SplitSix(acc2, b3 - 0x80);
          FourOctets(s, c, b, b1, b2, b3);
        } else {
          ThreeOctets(s, c, b, b1, b2);
        }
      } else {
        TwoOctets(s, c, b, b1);
      }
    }
  }

  lemma TwoOctets(s: string, c: char, b: int, b1: int)
    requires |s| >= 6 && Octet(s) == Some(b) && Octet(s[3..]) == Some(b1)
    requires 0xC0 <= b < 0xE0 && 0x80 <= b1 < 0xC0 && c as int == 64 * (b - 0xC0) + b1 - 0x80 >= 0x80
    ensures |Utf8(c)| == 2 && Spells(s, Utf8(c))
  {
    SplitSix(b - 0xC0, b1 - 0x80);
    assert Utf8(c) == [b, b1] && s[3 * 0..] == s;
    hide Utf8, Octet;
  }

  lemma ThreeOctets(s: string, c: char, b: int, b1: int, b2: int)
    requires |s| >= 9 && Octet(s) == Some(b) && Octet(s[3..]) == Some(b1) && Octet(s[6..]) == Some(b2)
    requires 0xE0 <= b < 0xF0 && 0x80 <= b1 < 0xC0 && 0x80 <= b2 < 0xC0
    requires c as int == 64 * (64 * (b - 0xE0) + b1 - 0x80) + b2 - 0x80 >= 0x800
    ensures |Utf8(c)| == 3 && Spells(s, Utf8(c))
  {
    SplitSix(b - 0xE0, b1 - 0x80);
    SplitSix(64 * (b - 0xE0) + b1 - 0x80, b2 - 0x80);
    TwoSixes(c as int);
    assert Utf8(c) == [b, b1, b2] && s[3 * 0..] == s;
    hide Utf8, Octet;
  }

  lemma FourOctets(s: string, c: char, b: int, b1: int, b2: int, b3: int)
    requires |s| >= 12 && Octet(s) == Some(b) && Octet(s[3..]) == Some(b1)
    requires Octet(s[6..]) == Some(b2) && Octet(s[9..]) == Some(b3)
    requires 0xF0 <= b < 0xF8 && 0x80 <= b1 < 0xC0 && 0x80 <= b2 < 0xC0 && 0x80 <= b3 < 0xC0
    requires c as int == 64 * (64 * (64 * (b - 0xF0) + b1 - 0x80) + b2 - 0x80) + b3 - 0x80 >= 0x1_0000
    ensures |Utf8(c)| == 4 && Spells(s, Utf8(c))
  {
    FourSixes(c, b - 0xF0, b1 - 0x80, b2 - 0x80, b3 - 0x80);
    assert s[3 * 0..] == s;
    hide Utf8, Octet;
    assert Utf8(c) == [b, b1, b2, b3];
  }

  lemma FourSixes(c: char, x3: nat, x2: nat, x1: nat, x0: nat)
    requires x2 < 0x40 && x1 < 0x40 && x0 < 0x40
    requires c as int == 64 * (64 * (64 * x3 + x2) + x1) + x0 >= 0x1_0000
    ensures Utf8(c) == [0xF0 + x3, 0x80 + x2, 0x80 + x1, 0x80 + x0]
  {
    var code := c as int;
    var y := 64 * x3 + x2;
    var z := 64 * y + x1;
    SplitSix(x3, x2);
    SplitSix(y, x1);
    SplitSix(z, x0);
    TwoSixes(code);
    assert code / 0x40 == z && code / 0x1000 == y && code / 0x4_0000 == x3;
  }

  function PlusToSpace(s: string): (r: string)
    ensures |r| == |s|
    ensures forall i :: 0 <= i < |s| ==> r[i] == (if s[i] == '+' then ' ' else s[i])
  {
    seq(|s|, i requires 0 <= i < |s| => if s[i] == '+' then ' ' else s[i])
  }

  function ReadValue(v: string): Option<string> {
    Decode(PlusToSpace(v))
  }

  lemma PlusAppend(a: string, b: string)
    ensures PlusToSpace(a + b) == PlusToSpace(a) + PlusToSpace(b)
  {
  }

  lemma {:induction false} OctetsNoPlus(octets: seq<int>)
    requires forall i :: 0 <= i < |octets| ==> 0 <= octets[i] < 256
    ensures forall i :: 0 <= i < |OctetsText(octets)| ==>
      OctetsText(octets)[i] != '+' && OctetsText(octets)[i] != '&' && OctetsText(octets)[i] != '='
    ensures octets != [] ==> OctetsText(octets)[0] == '%'
  {
    if octets != [] {
      OctetsNoPlus(octets[1..]);
    }
  }

  lemma {:induction false} EncodedNoSeparator(s: string, plus: bool)
    ensures '&' !in Encode(s, plus) && '=' !in Encode(s, plus)
  {
    if s != [] {
      OctetsNoPlus(Utf8(s[0]));
      EncodedNoSeparator(s[1..], plus);
    }
  }

  /** One encoded character, read in front of whatever follows. */
  lemma PieceReads(c: char, plus: bool, rest: string)
    ensures Decode(PlusToSpace(EncodedText(c, plus)) + rest) ==
      if Decode(rest).None? then None else Some([c] + Decode(rest).value)
  {
    var first := EncodedText(c, plus);
    if (c == ' ' && plus) || Unreserved(c) {
      assert PlusToSpace(first) == [c];
      assert ([c] + rest)[1..] == rest;
    } else {
      OctetsNoPlus(Utf8(c));
      assert PlusToSpace(first) == first;
      CharReads(c, rest);
      hide EncodedChar, OctetsText, Utf8;
    }
  }

  /** Reading undoes encoding: every text, encoded as encodeURIComponent or as a form does, is
      read back as it was. */
  lemma {:induction false} ReadUndoesEncode(s: string, plus: bool)
    ensures ReadValue(Encode(s, plus)) == Some(s)
  {
    hide Decode, EncodedText;
    if s == [] {
      NothingReads();
    } else {
      ReadUndoesEncode(s[1..], plus);
      PlusAppend(EncodedText(s[0], plus), Encode(s[1..], plus));
      PieceReads(s[0], plus, PlusToSpace(Encode(s[1..], plus)));
      assert s == [s[0]] + s[1..];
    }
  }

  lemma NothingReads()
    ensures ReadValue("") == Some("")
  {
    assert PlusToSpace("") == "";
  }

  /** A value is read back as it was written if and only if it holds no plus and no percent
      sign. */
  lemma ValueIntact(v: string)
    ensures ReadValue(v) == Some(v) <==> '+' !in v && '%' !in v
    ensures ReadValue(v).Some? ==> |ReadValue(v).value| <= |v|
  {
    var p := PlusToSpace(v);
    DecodeShortens(p);
    assert '%' in p <==> '%' in v by {
      assert forall i :: 0 <= i < |v| ==> (p[i] == '%' <==> v[i] == '%');
    }
    if '+' in v {
      var i :| 0 <= i < |v| && v[i] == '+';
      assert p[i] != v[i];
    } else {
      assert p == v;
    }
  }

  // ---------------------------------------------------------------------------------------
  // Reading
  // ---------------------------------------------------------------------------------------

  function IndexOf(s: string, c: char): (r: int)
    ensures -1 <= r < |s|
    ensures r >= 0 ==> s[r] == c && c !in s[..r]
    ensures r < 0 <==> c !in s
  {
    if s == [] then -1
    else if s[0] == c then 0
    else
      var rest := IndexOf(s[1..], c);
      assert rest >= 0 ==> s[..rest + 1] == [s[0]] + s[1..][..rest];
      if rest < 0 then -1 else rest + 1
  }

  lemma {:induction false} IndexOfFirst(s: string, c: char, n: nat)
    requires n < |s| && s[n] == c && c !in s[..n]
    ensures IndexOf(s, c) == n
  {
  }

  /** A segment without an equals sign is skipped; the first one ends the key. */
  function AfterSegment(parsed: Pairs, segment: string): Option<Pairs> {
    var eq := IndexOf(segment, '=');
    if eq < 0 then Some(parsed)
    else
      var value := ReadValue(segment[eq + 1..]);
      if value.None? then None else Some(parsed[segment[..eq] := value.value])
  }

  function ReadSegments(segments: seq<string>): Option<Pairs> {
    if segments == [] then Some(map[])
    else
      var before := ReadSegments(segments[..|segments| - 1]);
      if before.None? then None else AfterSegment(before.value, segments[|segments| - 1])
  }

  function Parse(text: string): Option<Pairs> {
    ReadSegments(Split(text, '&'))
  }

  lemma ReadAppend(segments: seq<string>, segment: string)
    ensures ReadSegments(segments + [segment]) ==
      var before := ReadSegments(segments);
      if before.None? then None else AfterSegment(before.value, segment)
  {
  }

  // ---------------------------------------------------------------------------------------
  // Writing, and the round trip
  // ---------------------------------------------------------------------------------------

  function Segment(pair: (string, string)): string {
    pair.0 + "=" + pair.1
  }

  function Segments(pairs: seq<(string, string)>): (r: seq<string>)
    ensures |r| == |pairs|
    ensures forall i :: 0 <= i < |pairs| ==> r[i] == Segment(pairs[i])
  {
    seq(|pairs|, i requires 0 <= i < |pairs| => Segment(pairs[i]))
  }

  function Write(pairs: seq<(string, string)>): string {
    Join(Segments(pairs), '&')
  }

  /** The last pair with a key wins. */
  function MapOf(pairs: seq<(string, string)>): Pairs {
    if pairs == [] then map[]
    else
      var last := pairs[|pairs| - 1];
      MapOf(pairs[..|pairs| - 1])[last.0 := last.1]
  }

  predicate PlainKey(k: string) {
    '=' !in k && '&' !in k
  }

  predicate PlainValue(v: string) {
    '&' !in v && '+' !in v && '%' !in v
  }

  predicate Plain(pair: (string, string)) {
    PlainKey(pair.0) && PlainValue(pair.1)
  }

  lemma SegmentReads(parsed: Pairs, k: string, v: string)
    requires PlainKey(k)
    ensures AfterSegment(parsed, Segment((k, v))) ==
      if ReadValue(v).None? then None else Some(parsed[k := ReadValue(v).value])
  {
    var s := Segment((k, v));
    assert s[..|k|] == k;
    IndexOfFirst(s, '=', |k|);
    assert s[|k| + 1..] == v;
  }

  /** Each written value is read as the one that is meant. */
  ghost predicate Reads(written: seq<(string, string)>, meant: seq<(string, string)>) {
    && |written| == |meant|
    && forall i :: 0 <= i < |written| ==>
         && PlainKey(written[i].0) && written[i].0 == meant[i].0
         && '&' !in written[i].1 && ReadValue(written[i].1) == Some(meant[i].1)
  }

  lemma WrittenReads(written: seq<(string, string)>, meant: seq<(string, string)>)
    requires Reads(written, meant)
    ensures Parse(Write(written)) == Some(MapOf(meant))
  {
    if written == [] {
      assert Segments(written) == [];
      assert Split("", '&') == [""];
      assert ReadSegments([""]) == AfterSegment(map[], "");
    } else {
      forall part | part in Segments(written) ensures '&' !in part {
        var i :| 0 <= i < |written| && part == Segment(written[i]);
        assert PlainKey(written[i].0) && '&' !in written[i].1;
      }
      SplitJoin(Segments(written), '&');
      SegmentsRead(written, meant);
    }
  }

  lemma {:induction false} SegmentsRead(written: seq<(string, string)>, meant: seq<(string, string)>)
    requires Reads(written, meant)
    ensures ReadSegments(Segments(written)) == Some(MapOf(meant))
  {
    if written == [] {
      assert Segments(written) == [];
    } else {
      var n := |written| - 1;
      SegmentsRead(written[..n], meant[..n]);
      assert Segments(written) == Segments(written[..n]) + [Segment(written[n])];
      ReadAppend(Segments(written[..n]), Segment(written[n]));
      SegmentReads(MapOf(meant[..n]), written[n].0, written[n].1);
    }
  }

  /** Reading undoes writing: every list of plain pairs comes back as the map in which the last
      of equal keys wins, also when values hold equals signs. */
  lemma {:induction false} ReadUndoesWrite(pairs: seq<(string, string)>)
    requires forall i :: 0 <= i < |pairs| ==> Plain(pairs[i])
    ensures Parse(Write(pairs)) == Some(MapOf(pairs))
  {
    forall i | 0 <= i < |pairs| ensures ReadValue(pairs[i].1) == Some(pairs[i].1) {
      assert Plain(pairs[i]);
      ValueIntact(pairs[i].1);
    }
    WrittenReads(pairs, pairs);
  }

  function EncodeValues(pairs: seq<(string, string)>, plus: bool): seq<(string, string)> {
    seq(|pairs|, i requires 0 <= i < |pairs| => (pairs[i].0, Encode(pairs[i].1, plus)))
  }

  /** And with encoded values every list of pairs comes back, whatever the values hold. */
  lemma ReadUndoesEncodedWrite(pairs: seq<(string, string)>, plus: bool)
    requires forall i :: 0 <= i < |pairs| ==> PlainKey(pairs[i].0)
    ensures Parse(Write(EncodeValues(pairs, plus))) == Some(MapOf(pairs))
  {
    forall i | 0 <= i < |pairs|
      ensures '&' !in Encode(pairs[i].1, plus) && ReadValue(Encode(pairs[i].1, plus)) == Some(pairs[i].1)
    {
      EncodedNoSeparator(pairs[i].1, plus);
      ReadUndoesEncode(pairs[i].1, plus);
    }
    WrittenReads(EncodeValues(pairs, plus), pairs);
  }

  ghost predicate Shorter(parsed: Pairs, bound: nat) {
    forall k :: k in parsed ==> |parsed[k]| < bound
  }

  /** A short segment adds only a short value. */
  lemma SegmentShort(parsed: Pairs, segment: string, bound: nat)
    requires Shorter(parsed, bound) && |segment| < bound
    ensures var read := AfterSegment(parsed, segment); read.Some? ==> Shorter(read.value, bound)
  {
    var eq := IndexOf(segment, '=');
    if eq >= 0 {
      ValueIntact(segment[eq + 1..]);
    }
  }

  /** For one pair the domain is exact: whatever the value, it comes back as it was written if
      and only if it is plain. */
  lemma PairIntact(k: string, v: string)
    requires PlainKey(k)
    ensures Parse(Segment((k, v))) == Some(map[k := v]) <==> PlainValue(v)
  {
    if '&' in v {
      CutValueLost(k, v);
    } else {
      var s := Segment((k, v));
      SplitJoin([s], '&');
      assert Split(s, '&') == [s];
      ReadAppend([], s);
      assert [] + [s] == [s];
      SegmentReads(map[], k, v);
      ValueIntact(v);
      if ReadValue(v).Some? {
        assert (map[k := ReadValue(v).value])[k] == ReadValue(v).value;
        assert (map[k := v])[k] == v;
      }
    }
  }

  lemma CutValueLost(k: string, v: string)
    requires PlainKey(k) && '&' in v
    ensures Parse(Segment((k, v))) != Some(map[k := v])
  {
    var parts := Split(v, '&');
    SplitShortens(v, '&');
    SplitPrefix(k + "=", v, '&');
    assert Segment((k, v)) == k + "=" + v;
    var first := Segment((k, parts[0]));
    assert k + "=" + parts[0] == first;
    assert Split(Segment((k, v)), '&') == [first] + parts[1..];
    FirstThenShort(k, parts[0], parts[1..], |v|);
    assert k in map[k := v] && |(map[k := v])[k]| == |v|;
  }

  /** After a first segment for `k`, further short segments never make its value long. */
  lemma {:induction false} FirstThenShort(k: string, v: string, rest: seq<string>, bound: nat)
    requires PlainKey(k) && |v| < bound && forall i :: 0 <= i < |rest| ==> |rest[i]| < bound
    ensures var read := ReadSegments([Segment((k, v))] + rest);
      read.Some? ==> Shorter(read.value, bound)
  {
    var first := [Segment((k, v))];
    if rest == [] {
      assert first + rest == [] + first;
      ReadAppend([], Segment((k, v)));
      SegmentReads(map[], k, v);
      ValueIntact(v);
    } else {
      var n := |rest| - 1;
      FirstThenShort(k, v, rest[..n], bound);
      assert first + rest == first + rest[..n] + [rest[n]];
      ReadAppend(first + rest[..n], rest[n]);
      var before := ReadSegments(first + rest[..n]);
      if before.Some? {
        SegmentShort(before.value, rest[n], bound);
      }
    }
  }
}
