/** Unpadded base64url, and the scanner that reads padded base64 back. */
module Base64 {
  import opened Basics

  type Sextet = n: int | 0 <= n < 64 witness 0

  function Symbol(v: Sextet): char {
    if v < 26 then 'A' + v as char
    else if v < 52 then 'a' + (v - 26) as char
    else if v < 62 then '0' + (v - 52) as char
    else if v == 62 then '-'
    else '_'
  }

  /** The value of a symbol of either alphabet; anything else has none. */
  function Value(c: char): Option<Sextet> {
    if 'A' <= c <= 'Z' then Some(c as int - 'A' as int)
    else if 'a' <= c <= 'z' then Some(c as int - 'a' as int + 26)
    else if '0' <= c <= '9' then Some(c as int - '0' as int + 52)
    else if c == '-' || c == '+' then Some(62)
    else if c == '_' || c == '/' then Some(63)
    else None
  }

  lemma SymbolValue(v: Sextet)
    ensures Value(Symbol(v)) == Some(v) && Symbol(v) != '=' && Symbol(v) != '.'
  {
  }

  // --------------------------------------------------------------- encoding

  function First(a: int): Sextet
    requires 0 <= a < 256
  {
    a / 4
  }

  function Second(a: int, b: int): Sextet
    requires 0 <= a < 256 && 0 <= b < 256
  {
    a % 4 * 16 + b / 16
  }

  function Third(b: int, c: int): Sextet
    requires 0 <= b < 256 && 0 <= c < 256
  {
    b % 16 * 4 + c / 64
  }

  function Fourth(c: int): Sextet
    requires 0 <= c < 256
  {
    c % 64
  }

  /** The four symbols of three bytes. */
  function Group(a: int, b: int, c: int): string
    requires 0 <= a < 256 && 0 <= b < 256 && 0 <= c < 256
  {
    [Symbol(First(a)), Symbol(Second(a, b)), Symbol(Third(b, c)), Symbol(Fourth(c))]
  }

  /** Base64 with `=` to a multiple of four characters. */
  function Encode(raw: Bytes): string {
    if |raw| == 0 then ""
    else
      var a := raw[0] as int;
      if |raw| == 1 then [Symbol(First(a)), Symbol(Second(a, 0)), '=', '=']
      else
        var b := raw[1] as int;
        if |raw| == 2 then [Symbol(First(a)), Symbol(Second(a, b)), Symbol(Third(b, 0)), '=']
        else
          Group(a, b, raw[2] as int) + Encode(raw[3..])
  }

  function Strip(text: string): string {
    if text != "" && text[|text| - 1] == '=' then Strip(text[..|text| - 1]) else text
  }

  function Equals(n: nat): string {
    seq(n, _ => '=')
  }

  /** As many `=` as the negated length leaves modulo four. */
  function Restore(text: string): string {
    text + Equals(-|text| % 4)
  }

  // --------------------------------------------------------------- decoding

  function Join(b: int, rest: Option<Bytes>): Option<Bytes>
    requires 0 <= b < 256
  {
    match rest
    case None => None
    case Some(bytes) => Some([b as Byte] + bytes)
  }

  /** The lenient scanner: `quad` symbols of a group read, `left` bits over,
      `pads` padding characters in a row. Foreign characters are skipped, enough
      padding ends the text, and a group cut short is an error. */
  function Scan(text: string, quad: nat, left: int, pads: nat): Option<Bytes>
    requires quad < 4 && 0 <= left
    requires (quad == 1 ==> left < 64) && (quad == 2 ==> left < 16) && (quad == 3 ==> left < 4)
  {
    if text == "" then (if quad == 0 then Some([]) else None)
    else if text[0] == '=' then
      if quad >= 2 && quad + pads + 1 >= 4 then Some([])
      else Scan(text[1..], quad, left, if quad >= 2 then pads + 1 else pads)
    else
      match Value(text[0])
      case None => Scan(text[1..], quad, left, pads)
      case Some(v) =>
        if quad == 0 then Scan(text[1..], 1, v, 0)
        else if quad == 1 then Join(left * 4 + v / 16, Scan(text[1..], 2, v % 16, 0))
        else if quad == 2 then Join(left * 16 + v / 4, Scan(text[1..], 3, v % 4, 0))
        else Join(left * 64 + v, Scan(text[1..], 0, 0, 0))
  }

  function Decode(text: string): Option<Bytes> {
    Scan(text, 0, 0, 0)
  }

  // -------------------------------------------------------------- round trip

  lemma Pieces(a: int, b: int, c: int)
    requires 0 <= a < 256 && 0 <= b < 256 && 0 <= c < 256
    ensures First(a) * 4 + Second(a, b) / 16 == a && Second(a, b) % 16 == b / 16
    ensures b / 16 * 16 + Third(b, c) / 4 == b && Third(b, c) % 4 == c / 64
    ensures c / 64 * 64 + Fourth(c) == c
  {
  }

  lemma ScanTwo(a: Byte, b: int, rest: string)
    requires 0 <= b < 256
    ensures Decode([Symbol(First(a as int)), Symbol(Second(a as int, b))] + rest)
            == Join(a as int, Scan(rest, 2, b / 16, 0))
  {
    hide Symbol, Value, First, Second;
    SymbolValue(First(a as int));
    SymbolValue(Second(a as int, b));
    Pieces(a as int, b, 0);
    var text := [Symbol(First(a as int)), Symbol(Second(a as int, b))] + rest;
    assert text[1..] == [Symbol(Second(a as int, b))] + rest && text[1..][1..] == rest;
    assert Decode(text) == Scan(text[1..], 1, First(a as int), 0);
  }

  lemma ScanThird(b: Byte, c: int, rest: string)
    requires 0 <= c < 256
    ensures Scan([Symbol(Third(b as int, c))] + rest, 2, b as int / 16, 0) == Join(b as int, Scan(rest, 3, c / 64, 0))
  {
    hide Symbol, Value, Third;
    SymbolValue(Third(b as int, c));
    Pieces(0, b as int, c);
    assert ([Symbol(Third(b as int, c))] + rest)[1..] == rest;
  }

  lemma ScanFourth(c: Byte, rest: string)
    ensures Scan([Symbol(Fourth(c as int))] + rest, 3, c as int / 64, 0) == Join(c as int, Decode(rest))
  {
    hide Symbol, Value, Fourth;
    SymbolValue(Fourth(c as int));
    Pieces(0, 0, c as int);
    assert ([Symbol(Fourth(c as int))] + rest)[1..] == rest;
  }

  /** The unpadded form of a text, piece by piece. */
  function Unpadded(raw: Bytes): string {
    if |raw| == 0 then ""
    else
      var a := raw[0] as int;
      if |raw| == 1 then [Symbol(First(a)), Symbol(Second(a, 0))]
      else
        var b := raw[1] as int;
        if |raw| == 2 then [Symbol(First(a)), Symbol(Second(a, b)), Symbol(Third(b, 0))]
        else
          Group(a, b, raw[2] as int) + Unpadded(raw[3..])
  }

  lemma {:induction false} StripKeeps(text: string, n: nat)
    requires text == "" || text[|text| - 1] != '='
    ensures Strip(text + Equals(n)) == text
  {
    if n == 0 {
      assert text + Equals(0) == text;
    } else {
      assert (text + Equals(n))[..|text| + n - 1] == text + Equals(n - 1);
      StripKeeps(text, n - 1);
    }
  }

  /** The padding of the last group. */
  function Padding(raw: Bytes): nat {
    if |raw| == 0 then 0 else if |raw| == 1 then 2 else if |raw| == 2 then 1 else Padding(raw[3..])
  }

  predicate Unreserved(text: string) {
    forall c | c in text :: c != '=' && c != '.'
  }

  lemma {:induction false} EncodeIsPadded(raw: Bytes)
    ensures Encode(raw) == Unpadded(raw) + Equals(Padding(raw))
    decreases |raw|
  {
    hide Symbol, First, Second, Third, Fourth, Group;
    if |raw| == 1 {
      assert Equals(2) == ['=', '='];
    } else if |raw| == 2 {
      assert Equals(1) == ['='];
    } else if |raw| > 2 {
      EncodeIsPadded(raw[3..]);
      var g := Group(raw[0] as int, raw[1] as int, raw[2] as int);
      assert g + (Unpadded(raw[3..]) + Equals(Padding(raw[3..]))) == g + Unpadded(raw[3..]) + Equals(Padding(raw[3..]));
    }
  }

  lemma {:induction false} PaddedLength(raw: Bytes)
    ensures (|Unpadded(raw)| + Padding(raw)) % 4 == 0 && Padding(raw) < 3
    decreases |raw|
  {
    hide Symbol, First, Second, Third, Fourth;
    if |raw| > 2 { PaddedLength(raw[3..]); }
  }

  lemma {:induction false} UnpaddedIsUnreserved(raw: Bytes)
    ensures Unreserved(Unpadded(raw))
    decreases |raw|
  {
    hide Symbol, First, Second, Third, Fourth;
    if |raw| > 0 {
      var a := raw[0] as int;
      SymbolValue(First(a));
      if |raw| == 1 {
        SymbolValue(Second(a, 0));
      } else {
        var b := raw[1] as int;
        SymbolValue(Second(a, b));
        if |raw| == 2 {
          SymbolValue(Third(b, 0));
        } else {
          SymbolValue(Third(b, raw[2] as int));
          SymbolValue(Fourth(raw[2] as int));
          UnpaddedIsUnreserved(raw[3..]);
        }
      }
    }
  }

  lemma MissingPadding(n: int, pad: int)
    requires 0 <= pad && (n + pad) % 4 == 0 && pad < 3
    ensures -n % 4 == pad
  {
  }

  /** Stripping takes exactly the padding away. */
  lemma {:induction false} StripEncoded(raw: Bytes)
    ensures Strip(Encode(raw)) == Unpadded(raw)
    ensures Restore(Strip(Encode(raw))) == Encode(raw)
    ensures Unreserved(Strip(Encode(raw)))
  {
    hide Encode, Unpadded;
    EncodeIsPadded(raw);
    PaddedLength(raw);
    UnpaddedIsUnreserved(raw);
    var text := Unpadded(raw);
    if text != "" { assert text[|text| - 1] in text; }
    StripKeeps(text, Padding(raw));
    MissingPadding(|text|, Padding(raw));
  }

  lemma DecodeOne(a: Byte)
    ensures Decode(Encode([a])) == Some([a])
  {
    hide Symbol, Value, First, Second;
    ScanTwo(a, 0, "==");
    PadsEnd();
    assert Encode([a]) == [Symbol(First(a as int)), Symbol(Second(a as int, 0))] + "==";
    assert [a] + [] == [a];
  }

  lemma DecodeTwo(a: Byte, b: Byte)
    ensures Decode(Encode([a, b])) == Some([a, b])
  {
    hide Symbol, Value, First, Second, Third, Scan;
    ScanTwo(a, b as int, [Symbol(Third(b as int, 0))] + "=");
    ScanThird(b, 0, "=");
    PadsEnd();
    assert Encode([a, b]) == [Symbol(First(a as int)), Symbol(Second(a as int, b as int))]
                             + ([Symbol(Third(b as int, 0))] + "=");
    assert [a] + ([b] + []) == [a, b];
  }

  lemma DecodeGroup(a: Byte, b: Byte, c: Byte, rest: string)
    ensures Decode(Group(a as int, b as int, c as int) + rest)
            == Join(a as int, Join(b as int, Join(c as int, Decode(rest))))
  {
    hide Symbol, Value, First, Second, Third, Fourth, Scan, Join;
    var tail := [Symbol(Fourth(c as int))] + rest;
    ScanTwo(a, b as int, [Symbol(Third(b as int, c as int))] + tail);
    ScanThird(b, c as int, tail);
    ScanFourth(c, rest);
    assert Group(a as int, b as int, c as int) + rest
           == [Symbol(First(a as int)), Symbol(Second(a as int, b as int))]
              + ([Symbol(Third(b as int, c as int))] + tail);
  }

  lemma {:induction false} DecodeEncoded(raw: Bytes)
    ensures Decode(Encode(raw)) == Some(raw)
    decreases |raw|
  {
    hide Group, Scan;
    if |raw| == 0 {
      assert Decode("") == Some([]) by { DecodeNothing(); }
    } else if |raw| == 1 {
      DecodeOne(raw[0]);
      assert raw == [raw[0]];
    } else if |raw| == 2 {
      DecodeTwo(raw[0], raw[1]);
      assert raw == [raw[0], raw[1]];
    } else {
      DecodeGroup(raw[0], raw[1], raw[2], Encode(raw[3..]));
      DecodeEncoded(raw[3..]);
      assert [raw[0]] + ([raw[1]] + ([raw[2]] + raw[3..])) == raw;
    }
  }

  lemma DecodeNothing()
    ensures Decode("") == Some([])
  {
  }

  lemma PadsEnd()
    ensures Scan("==", 2, 0, 0) == Some([]) && Scan("=", 3, 0, 0) == Some([])
  {
    assert "=="[1..] == "=";
  }

  /** Every byte string comes back from its unpadded form, whatever its length. */
  lemma {:induction false} RoundTrip(raw: Bytes)
    ensures Decode(Restore(Strip(Encode(raw)))) == Some(raw)
  {
    hide Decode, Encode, Strip, Restore;
    StripEncoded(raw);
    DecodeEncoded(raw);
  }

  // ------------------------------------------------------- bit by bit

  /** The symbols in order: capitals, small letters, digits, `-` and `_`. */
  lemma {:induction false} SymbolsInOrder(v: Sextet)
    ensures Symbol(0) == 'A' && Symbol(26) == 'a' && Symbol(52) == '0' && Symbol(62) == '-' && Symbol(63) == '_'
    ensures v !in {25, 51, 61, 62, 63} ==> Symbol(v + 1) as int == Symbol(v) as int + 1
  {
  }

  /** The 24 bits of the group from `3 * i`, zero where the text has ended. */
  function Bits(raw: Bytes, i: nat): nat
    requires 3 * i < |raw|
  {
    var b := if 3 * i + 1 < |raw| then raw[3 * i + 1] as nat else 0;
    var c := if 3 * i + 2 < |raw| then raw[3 * i + 2] as nat else 0;
    raw[3 * i] as nat * 65536 + b * 256 + c
  }

  /** Every group of three bytes becomes four symbols of six bits each, the highest
      first; a last group of one or two bytes becomes two or three, and `=`. */
  lemma {:induction false} EncodedBits(raw: Bytes, i: nat)
    requires 3 * i < |raw|
    ensures var text := Encode(raw);
            var n := Bits(raw, i);
            && 4 * i + 4 <= |text|
            && text[4 * i] == Symbol(n / 262144 % 64) && text[4 * i + 1] == Symbol(n / 4096 % 64)
            && text[4 * i + 2] == (if 3 * i + 1 < |raw| then Symbol(n / 64 % 64) else '=')
            && text[4 * i + 3] == (if 3 * i + 2 < |raw| then Symbol(n % 64) else '=')
    decreases |raw|
  {
    hide Symbol, Bits;
    if i > 0 {
      EncodedBits(raw[3..], i - 1);
      LaterBits(raw, i);
      assert Encode(raw)[4..] == Encode(raw[3..]);
    } else {
      FirstBits(raw);
    }
  }

  lemma LaterBits(raw: Bytes, i: nat)
    requires 0 < i && 3 * i < |raw|
    ensures Bits(raw[3..], i - 1) == Bits(raw, i)
  {
    var rest := raw[3..];
    assert rest[3 * (i - 1)] == raw[3 * i];
    if 3 * i + 1 < |raw| { assert rest[3 * (i - 1) + 1] == raw[3 * i + 1]; }
    if 3 * i + 2 < |raw| { assert rest[3 * (i - 1) + 2] == raw[3 * i + 2]; }
  }

  lemma FirstBits(raw: Bytes)
    requires 0 < |raw|
    ensures var text := Encode(raw);
            var n := Bits(raw, 0);
            && 4 <= |text|
            && text[0] == Symbol(n / 262144 % 64) && text[1] == Symbol(n / 4096 % 64)
            && text[2] == (if 1 < |raw| then Symbol(n / 64 % 64) else '=')
            && text[3] == (if 2 < |raw| then Symbol(n % 64) else '=')
  {
    hide Symbol, First, Second, Third, Fourth;
    var a := raw[0] as int;
    var b := if 1 < |raw| then raw[1] as int else 0;
    var c := if 2 < |raw| then raw[2] as int else 0;
    SixBits(a, b, c);
  }

  lemma Quotient(n: nat, q: nat, r: nat, d: nat)
    requires 0 < d && n == q * d + r && r < d
    ensures n / d == q && n % d == r
  {
    var x := n / d - q;
    assert n == d * (n / d) + n % d;
    assert d * x == r - n % d;
    Scaled(d, x);
  }

  lemma Scaled(d: nat, x: int)
    ensures x >= 1 ==> d * x >= d
    ensures x <= -1 ==> d * x + d <= 0
  {
    if x >= 1 { assert d * x == d + d * (x - 1); }
    if x <= -1 { assert d * x == d * (x + 1) - d; }
  }

  lemma SixBits(a: int, b: int, c: int)
    requires 0 <= a < 256 && 0 <= b < 256 && 0 <= c < 256
    ensures var n := a * 65536 + b * 256 + c;
            First(a) == n / 262144 % 64 && Second(a, b) == n / 4096 % 64 && Third(b, c) == n / 64 % 64
            && Fourth(c) == n % 64
  {
    var n := a * 65536 + b * 256 + c;
    Quotient(n, a / 4, a % 4 * 65536 + b * 256 + c, 262144);
    Quotient(n, a * 16 + b / 16, b % 16 * 256 + c, 4096);
    Quotient(a * 16 + b / 16, a / 4, a % 4 * 16 + b / 16, 64);
    Quotient(n, a * 1024 + b * 4 + c / 64, c % 64, 64);
    Quotient(a * 1024 + b * 4 + c / 64, a * 16 + b / 16, b % 16 * 4 + c / 64, 64);
  }
}
