/**
  The base64 codec of section 4 of RFC 4648, with the one liberty Go's decoder takes: carriage
  returns and line feeds in the input are skipped, and the unused low bits of a padded final quantum
  are not inspected.
 */
module Base64 {
  import opened Basics

  type Sextet = x: int | 0 <= x < 64

  function Symbol(v: Sextet): char {
    if v < 26 then 'A' + v as char
    else if v < 52 then 'a' + (v - 26) as char
    else if v < 62 then '0' + (v - 52) as char
    else if v == 62 then '+'
    else '/'
  }

  function Value(c: char): Option<Sextet> {
    if 'A' <= c <= 'Z' then Some((c - 'A') as int)
    else if 'a' <= c <= 'z' then Some((c - 'a') as int + 26)
    else if '0' <= c <= '9' then Some((c - '0') as int + 52)
    else if c == '+' then Some(62)
    else if c == '/' then Some(63)
    else None
  }

  lemma SymbolRoundTrip(v: Sextet)
    ensures Value(Symbol(v)) == Some(v)
    ensures Symbol(v) != '=' && Symbol(v) != '\r' && Symbol(v) != '\n'
  {
    if v < 26 {
    } else if v < 52 {
    } else if v < 62 {
    }
  }

  // The four sextets of three octets.
  function First(b0: Byte): Sextet { b0 / 4 }

  function Second(b0: Byte, b1: Byte): Sextet { b0 % 4 * 16 + b1 / 16 }

  function Third(b1: Byte, b2: Byte): Sextet { b1 % 16 * 4 + b2 / 64 }

  function Fourth(b2: Byte): Sextet { b2 % 64 }

  /** The three octets of four sextets. */
  function Join(x: Sextet, y: Sextet, z: Sextet, w: Sextet): (Byte, Byte, Byte) {
    (x * 4 + y / 16, y % 16 * 16 + z / 4, z % 4 * 64 + w)
  }

  function Encode(b: Bytes): string {
    if |b| == 0 then ""
    else if |b| == 1 then [Symbol(First(b[0])), Symbol(Second(b[0], 0)), '=', '=']
    else if |b| == 2 then [Symbol(First(b[0])), Symbol(Second(b[0], b[1])), Symbol(Third(b[1], 0)), '=']
    else
      [Symbol(First(b[0])), Symbol(Second(b[0], b[1])), Symbol(Third(b[1], b[2])), Symbol(Fourth(b[2]))]
      + Encode(b[3..])
  }

  function SkipNewlines(s: string): string {
    if s == "" then ""
    else if s[0] == '\r' || s[0] == '\n' then SkipNewlines(s[1..])
    else [s[0]] + SkipNewlines(s[1..])
  }

  function DecodeQuanta(s: string): Option<Bytes> {
    if s == "" then Some([])
    else if |s| < 4 || Value(s[0]).None? || Value(s[1]).None? then None
    else
      var x, y := Value(s[0]).value, Value(s[1]).value;
      if s[2] == '=' then
        if s[3] == '=' && |s| == 4 then Some([Join(x, y, 0, 0).0]) else None
      else if Value(s[2]).None? then None
      else
        var z := Value(s[2]).value;
        if s[3] == '=' then
          if |s| == 4 then Some([Join(x, y, z, 0).0, Join(x, y, z, 0).1]) else None
        else if Value(s[3]).None? then None
        else
          var w := Value(s[3]).value;
          match DecodeQuanta(s[4..])
          case None => None
          case Some(rest) => Some([Join(x, y, z, w).0, Join(x, y, z, w).1, Join(x, y, z, w).2] + rest)
  }

  function Decode(s: string): Option<Bytes> {
    DecodeQuanta(SkipNewlines(s))
  }

  predicate IsSymbol(c: char) {
    Value(c).Some?
  }

  /** Encoded text: symbols only, then `pads` padding characters. */
  ghost predicate PaddedText(t: string, pads: nat) {
    && pads <= |t|
    && (forall i :: 0 <= i < |t| - pads ==> IsSymbol(t[i]))
    && (forall i :: |t| - pads <= i < |t| ==> t[i] == '=')
  }

  /** What section 4 of RFC 4648 calls valid: whole quanta, and 0, 1 or 2 padding characters at the end. */
  ghost predicate WellFormed(t: string) {
    |t| % 4 == 0 && (PaddedText(t, 0) || (|t| > 0 && (PaddedText(t, 1) || PaddedText(t, 2))))
  }

  lemma {:induction false} EncodeLength(b: Bytes)
    ensures |Encode(b)| == (|b| + 2) / 3 * 4
  {
    if |b| >= 3 {
      EncodeLength(b[3..]);
      OneMoreGroup(|b|);
      assert |Encode(b)| == 4 + |Encode(b[3..])|;
    } else if |b| == 2 {
      assert |Encode(b)| == 4;
    } else if |b| == 1 {
      assert |Encode(b)| == 4;
    }
  }

  lemma OneMoreGroup(n: nat)
    requires n >= 3
    ensures (n + 2) / 3 * 4 == (n - 3 + 2) / 3 * 4 + 4
  {
  }

  lemma {:induction false} QuantaRoundTrip(b: Bytes)
    ensures DecodeQuanta(Encode(b)) == Some(b)
  {
    if |b| == 0 {
    } else if |b| < 3 {
      ShortRoundTrip(b);
    } else {
      QuantaRoundTrip(b[3..]);
      LongRoundTrip(b);
    }
  }

  lemma ShortRoundTrip(b: Bytes)
    requires 0 < |b| < 3
    ensures DecodeQuanta(Encode(b)) == Some(b)
  {
    if |b| == 1 {
      Regroup(b[0], 0, 0);
      DecodeOne(First(b[0]), Second(b[0], 0), b);
    } else {
      Regroup(b[0], b[1], 0);
      DecodeTwo(First(b[0]), Second(b[0], b[1]), Third(b[1], 0), b);
    }
  }

  lemma LongRoundTrip(b: Bytes)
    requires |b| >= 3 && DecodeQuanta(Encode(b[3..])) == Some(b[3..])
    ensures DecodeQuanta(Encode(b)) == Some(b)
  {
    Regroup(b[0], b[1], b[2]);
    DecodeThree(First(b[0]), Second(b[0], b[1]), Third(b[1], b[2]), Fourth(b[2]), Encode(b[3..]), b);
  }

  /** Cutting 24 bits into four sextets and back into three octets. */
  lemma Regroup(b0: Byte, b1: Byte, b2: Byte)
    ensures Join(First(b0), Second(b0, b1), Third(b1, b2), Fourth(b2)) == (b0, b1, b2)
  {
    Halves(b0, b1);
    Quarters(b1, b2);
  }

  /** The two sextets that share an octet give its halves back ... */
  lemma Halves(b0: Byte, b1: Byte)
    ensures First(b0) * 4 + Second(b0, b1) / 16 == b0 && Second(b0, b1) % 16 == b1 / 16
  {
  }

  /** ... and so for the octet that is cut at its last two bits. */
  lemma Quarters(b1: Byte, b2: Byte)
    ensures Third(b1, b2) / 4 == b1 % 16 && Third(b1, b2) % 4 == b2 / 64
    ensures b1 / 16 * 16 + b1 % 16 == b1 && b2 / 64 * 64 + Fourth(b2) == b2
  {
  }

  lemma DecodeOne(x: Sextet, y: Sextet, b: Bytes)
    requires |b| == 1 && Join(x, y, 0, 0).0 == b[0]
    ensures DecodeQuanta([Symbol(x), Symbol(y), '=', '=']) == Some(b)
  {
    SymbolRoundTrip(x);
    SymbolRoundTrip(y);
    assert b == [b[0]];
  }

  lemma DecodeTwo(x: Sextet, y: Sextet, z: Sextet, b: Bytes)
    requires |b| == 2 && Join(x, y, z, 0).0 == b[0] && Join(x, y, z, 0).1 == b[1]
    ensures DecodeQuanta([Symbol(x), Symbol(y), Symbol(z), '=']) == Some(b)
  {
    SymbolRoundTrip(x);
    SymbolRoundTrip(y);
    SymbolRoundTrip(z);
    assert b == [b[0], b[1]];
  }

  lemma DecodeThree(x: Sextet, y: Sextet, z: Sextet, w: Sextet, t: string, b: Bytes)
    requires |b| >= 3 && DecodeQuanta(t) == Some(b[3..]) && Join(x, y, z, w) == (b[0], b[1], b[2])
    ensures DecodeQuanta([Symbol(x), Symbol(y), Symbol(z), Symbol(w)] + t) == Some(b)
  {
    SymbolRoundTrip(x);
    SymbolRoundTrip(y);
    SymbolRoundTrip(z);
    SymbolRoundTrip(w);
    assert ([Symbol(x), Symbol(y), Symbol(z), Symbol(w)] + t)[4..] == t;
    assert b == [b[0], b[1], b[2]] + b[3..];
  }

  lemma {:induction false} SkipIsIdentity(s: string)
    requires '\r' !in s && '\n' !in s
    ensures SkipNewlines(s) == s
  {
    if s != "" {
      SkipIsIdentity(s[1..]);
    }
  }

  lemma NoNewlineInWellFormed(t: string)
    requires WellFormed(t)
    ensures '\r' !in t && '\n' !in t
  {
    assert !IsSymbol('\r') && !IsSymbol('\n');
  }

  lemma RoundTrip(b: Bytes)
    ensures Decode(Encode(b)) == Some(b)
  {
    QuantaRoundTrip(b);
    DecodeAccepts(Encode(b));
    NoNewlineInWellFormed(Encode(b));
    SkipIsIdentity(Encode(b));
  }

  /** The decoder accepts a text exactly when, newlines aside, it is well-formed base64. */
  lemma {:induction false} DecodeAccepts(t: string)
    ensures DecodeQuanta(t).Some? <==> WellFormed(t)
  {
    if |t| < 4 {
    } else if |t| == 4 {
      assert t[4..] == "";
      LastQuantum(t);
    } else {
      DecodeAccepts(t[4..]);
      FirstQuantum(t);
    }
  }

  lemma LastQuantum(t: string)
    requires |t| == 4
    ensures DecodeQuanta(t).Some? <==> WellFormed(t)
  {
    assert t[4..] == "";
    assert DecodeQuanta(t[4..]) == Some([]);
    assert Value('=').None?;
    if DecodeQuanta(t).Some? {
      assert IsSymbol(t[0]) && IsSymbol(t[1]);
      if t[2] == '=' {
        assert PaddedText(t, 2);
      } else if t[3] == '=' {
        assert PaddedText(t, 1);
      } else {
        assert PaddedText(t, 0);
      }
    }
  }

  lemma FirstQuantum(t: string)
    requires |t| > 4
    ensures WellFormed(t) <==>
            WellFormed(t[4..]) && IsSymbol(t[0]) && IsSymbol(t[1]) && IsSymbol(t[2]) && IsSymbol(t[3])
  {
    var r := t[4..];
    if |t| % 4 == 0 {
      forall p: nat | p <= 2
        ensures PaddedText(t, p) <==>
                PaddedText(r, p) && IsSymbol(t[0]) && IsSymbol(t[1]) && IsSymbol(t[2]) && IsSymbol(t[3])
      {
        if PaddedText(t, p) {
          assert forall i :: 0 <= i < |r| ==> r[i] == t[i + 4];
        }
        if PaddedText(r, p) && IsSymbol(t[0]) && IsSymbol(t[1]) && IsSymbol(t[2]) && IsSymbol(t[3]) {
          forall i | 0 <= i < |t|
            ensures if i < |t| - p then IsSymbol(t[i]) else t[i] == '='
          {
            if i >= 4 {
              assert t[i] == r[i - 4];
            }
          }
        }
      }
    }
  }

  /** Vectors of section 10 of RFC 4648: "f", "fo", "foo". */
  lemma Vectors()
    ensures Encode([102]) == "Zg==" && Encode([102, 111]) == "Zm8=" && Encode([102, 111, 111]) == "Zm9v"
  {
    assert [102, 111, 111][3..] == [];
  }

  /** The alphabet of table 1 of RFC 4648, and nothing else is a symbol. */
  lemma Alphabet(v: Sextet, c: char)
    ensures v < 26 ==> Symbol(v) as int == 65 + v
    ensures 26 <= v < 52 ==> Symbol(v) as int == 97 + (v - 26)
    ensures 52 <= v < 62 ==> Symbol(v) as int == 48 + (v - 52)
    ensures Symbol(62) == '+' && Symbol(63) == '/'
    ensures Value(c) == Some(v) <==> c == Symbol(v)
  {
    SymbolRoundTrip(v);
    if Value(c) == Some(v) {
      ValueRoundTrip(c);
    }
  }

  lemma ValueRoundTrip(c: char)
    requires Value(c).Some?
    ensures Symbol(Value(c).value) == c
  {
    if 'A' <= c <= 'Z' {
    } else if 'a' <= c <= 'z' {
    } else if '0' <= c <= '9' {
    }
  }

  /** The bits of a group run from the first octet's highest to the last octet's lowest. */
  lemma GroupBits(b0: Byte, b1: Byte, b2: Byte)
    ensures First(b0) * 262144 + Second(b0, b1) * 4096 + Third(b1, b2) * 64 + Fourth(b2)
            == b0 * 65536 + b1 * 256 + b2
  {
    Halves(b0, b1);
    Quarters(b1, b2);
  }

  /** In a last group the missing octets count as zero, and symbols without a bit of input become padding. */
  lemma LastGroup(b0: Byte, b1: Byte)
    ensures Encode([b0]) == [Symbol(First(b0)), Symbol(Second(b0, 0)), '=', '=']
    ensures Encode([b0, b1]) == [Symbol(First(b0)), Symbol(Second(b0, b1)), Symbol(Third(b1, 0)), '=']
    ensures Encode([b0]) == Encode([b0, 0, 0])[..2] + "==" && Encode([b0, b1]) == Encode([b0, b1, 0])[..3] + "="
  {
    assert [b0, 0, 0][3..] == [] && [b0, b1, 0][3..] == [];
  }

  /** A carriage return or line feed anywhere makes no difference to the decoder. */
  lemma NewlineIgnored(a: string, c: char, b: string)
    requires c == '\r' || c == '\n'
    ensures Decode(a + [c] + b) == Decode(a + b)
  {
    SkipConcat(a + [c], b);
    SkipConcat(a, [c]);
    SkipConcat(a, b);
    assert SkipNewlines([c]) == [];
    assert SkipNewlines(a) + [] == SkipNewlines(a);
  }

  lemma SkipHead(c: char, s: string)
    ensures SkipNewlines([c] + s) == (if c == '\r' || c == '\n' then "" else [c]) + SkipNewlines(s)
  {
    assert ([c] + s)[1..] == s;
  }

  lemma {:induction false} SkipConcat(a: string, b: string)
    ensures SkipNewlines(a + b) == SkipNewlines(a) + SkipNewlines(b)
  {
    if a == "" {
      assert a + b == b;
    } else {
      var c, rest := a[0], a[1..];
      assert a == [c] + rest && a + b == [c] + (rest + b);
      SkipHead(c, rest);
      SkipHead(c, rest + b);
      SkipConcat(rest, b);
    }
  }
}
