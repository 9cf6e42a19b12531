/** Loading the master key: whitespace around 64 hex digits (section 8 of RFC 4648). */
module MasterKey {
  import opened Basics

  predicate IsSpace(c: Byte) {
    c == 32 || c == 10 || c == 13 || c == 9
  }

  /** b without its leading and trailing whitespace. */
  function TrimLeft(b: Bytes): Bytes {
    if b != [] && IsSpace(b[0]) then TrimLeft(b[1..]) else b
  }

  function TrimRight(b: Bytes): Bytes {
    if b != [] && IsSpace(b[|b| - 1]) then TrimRight(b[..|b| - 1]) else b
  }

  function Trimmed(b: Bytes): Bytes {
    TrimRight(TrimLeft(b))
  }

  ghost predicate AllSpace(b: Bytes) {
    forall i :: 0 <= i < |b| ==> IsSpace(b[i])
  }

  ghost predicate Tight(b: Bytes) {
    b != [] ==> !IsSpace(b[0]) && !IsSpace(b[|b| - 1])
  }

  method BytesTrimSpace(b: Bytes) returns (t: Bytes)
    ensures t == Trimmed(b)
    ensures exists i: nat, j: nat :: i <= j <= |b| && t == b[i..j]
              && (forall k :: 0 <= k < i ==> b[k] in {9, 10, 13, 32})
              && (forall k :: j <= k < |b| ==> b[k] in {9, 10, 13, 32})
    ensures t != [] ==> t[0] !in {9, 10, 13, 32} && t[|t| - 1] !in {9, 10, 13, 32}
  {
    var start := 0;
    while start < |b|
      invariant 0 <= start <= |b|
      invariant TrimLeft(b) == TrimLeft(b[start..])
    {
      if !IsSpace(b[start]) {
        break;
      }
      TrimLeftStep(b, start);
      start := start + 1;
    }
    assert TrimLeft(b) == b[start..];
    var end := |b|;
    assert b[start..] == b[start..end];
    while end > start
      invariant start <= end <= |b|
      invariant TrimRight(b[start..]) == TrimRight(b[start..end])
    {
      if !IsSpace(b[end - 1]) {
        break;
      }
      TrimRightStep(b, start, end);
      end := end - 1;
    }
    t := b[start..end];
    assert t == Trimmed(b);
    TrimmedLiterally(b);
  }

  lemma TrimLeftStep(b: Bytes, i: nat)
    requires i < |b| && IsSpace(b[i])
    ensures TrimLeft(b[i..]) == TrimLeft(b[i + 1..])
  {
    assert b[i..][1..] == b[i + 1..];
  }

  lemma TrimRightStep(b: Bytes, i: nat, j: nat)
    requires i < j <= |b| && IsSpace(b[j - 1])
    ensures TrimRight(b[i..j]) == TrimRight(b[i..j - 1])
  {
    assert b[i..j][..j - i - 1] == b[i..j - 1];
  }

  lemma TrimmedLiterally(b: Bytes)
    ensures exists i: nat, j: nat :: i <= j <= |b| && Trimmed(b) == b[i..j]
              && (forall k :: 0 <= k < i ==> b[k] in {9, 10, 13, 32})
              && (forall k :: j <= k < |b| ==> b[k] in {9, 10, 13, 32})
    ensures Trimmed(b) != [] ==>
              Trimmed(b)[0] !in {9, 10, 13, 32} && Trimmed(b)[|Trimmed(b)| - 1] !in {9, 10, 13, 32}
  {
    TrimmedIsMaximal(b);
    var i: nat, j: nat :| i <= j <= |b| && Trimmed(b) == b[i..j] && AllSpace(b[..i]) && AllSpace(b[j..]);
    forall k | 0 <= k < i ensures b[k] in {9, 10, 13, 32} {
      assert IsSpace(b[..i][k]);
    }
    forall k | j <= k < |b| ensures b[k] in {9, 10, 13, 32} {
      assert IsSpace(b[j..][k - j]);
    }
  }

  /** Trimmed is a slice with whitespace only on both sides of it and tight ends ... */
  lemma TrimmedIsMaximal(b: Bytes)
    ensures exists i: nat, j: nat :: i <= j <= |b| && Trimmed(b) == b[i..j] && AllSpace(b[..i]) && AllSpace(b[j..])
    ensures Tight(Trimmed(b))
  {
    var i := TrimLeftSlice(b);
    var t := TrimLeft(b);
    var j := TrimRightSlice(t);
    assert t[..j] == b[i..i + j];
    assert b[i + j..] == t[j..];
    TrimRightKeepsHead(t);
  }

  lemma {:induction false} TrimLeftSlice(b: Bytes) returns (i: nat)
    ensures i <= |b| && TrimLeft(b) == b[i..] && AllSpace(b[..i])
    ensures TrimLeft(b) != [] ==> !IsSpace(TrimLeft(b)[0])
  {
    if b != [] && IsSpace(b[0]) {
      var j := TrimLeftSlice(b[1..]);
      i := j + 1;
      assert b[1..][j..] == b[i..];
      assert b[..i] == [b[0]] + b[1..][..j];
    } else {
      i := 0;
    }
  }

  lemma {:induction false} TrimRightSlice(b: Bytes) returns (j: nat)
    ensures j <= |b| && TrimRight(b) == b[..j] && AllSpace(b[j..])
    ensures TrimRight(b) != [] ==> !IsSpace(TrimRight(b)[|TrimRight(b)| - 1])
  {
    if b != [] && IsSpace(b[|b| - 1]) {
      var c := b[..|b| - 1];
      j := TrimRightSlice(c);
      assert c[..j] == b[..j];
      assert b[j..] == c[j..] + [b[|b| - 1]];
    } else {
      j := |b|;
    }
  }

  lemma {:induction false} TrimRightKeepsHead(b: Bytes)
    ensures TrimRight(b) != [] ==> TrimRight(b)[0] == b[0]
  {
    if b != [] && IsSpace(b[|b| - 1]) {
      TrimRightKeepsHead(b[..|b| - 1]);
    }
  }

  /** ... and the only such slice, so trimming again changes nothing. */
  lemma {:induction false} TrimmedIsUnique(left: Bytes, core: Bytes, right: Bytes)
    requires AllSpace(left) && Tight(core) && AllSpace(right)
    ensures Trimmed(left + core + right) == core
  {
    var b := left + core + right;
    if left != [] {
      assert b[1..] == left[1..] + core + right;
      TrimmedIsUnique(left[1..], core, right);
    } else if core == [] {
      assert b == right;
      AllSpaceTrimsAway(b);
    } else {
      assert b[0] == core[0];
      TrimRightDrops(core, right);
      assert b == core + right;
    }
  }

  lemma {:induction false} AllSpaceTrimsAway(b: Bytes)
    requires AllSpace(b)
    ensures TrimLeft(b) == []
  {
    if b != [] {
      AllSpaceTrimsAway(b[1..]);
    }
  }

  lemma {:induction false} TrimRightDrops(core: Bytes, right: Bytes)
    requires core != [] && !IsSpace(core[|core| - 1]) && AllSpace(right)
    ensures TrimRight(core + right) == core
  {
    if right == [] {
      assert core + right == core;
    } else {
      var b := core + right;
      assert b[..|b| - 1] == core + right[..|right| - 1];
      TrimRightDrops(core, right[..|right| - 1]);
    }
  }

  lemma TrimIsIdempotent(b: Bytes)
    ensures Trimmed(Trimmed(b)) == Trimmed(b)
  {
    TrimmedIsMaximal(b);
    TrimmedIsUnique([], Trimmed(b), []);
    assert [] + Trimmed(b) + [] == Trimmed(b);
  }

  // Hexadecimal text.

  function Nibble(c: Byte): Option<int>
    ensures Nibble(c).Some? ==> 0 <= Nibble(c).value < 16
  {
    if 48 <= c <= 57 then Some(c - 48)
    else if 97 <= c <= 102 then Some(c - 87)
    else if 65 <= c <= 70 then Some(c - 55)
    else None
  }

  /** The digit of v in upper or lower case. */
  function Digit(v: int, upper: bool): Byte
    requires 0 <= v < 16
  {
    if v < 10 then v + 48 else if upper then v + 55 else v + 87
  }

  function HexDecode(s: Bytes): Option<Bytes> {
    if s == [] then Some([])
    else if |s| == 1 || Nibble(s[0]).None? || Nibble(s[1]).None? then None
    else match HexDecode(s[2..])
      case None => None
      case Some(rest) => Some([Nibble(s[0]).value * 16 + Nibble(s[1]).value] + rest)
  }

  /** The key printed in hex, choosing the letter case digit by digit. */
  function HexPrint(key: Bytes, upper: int -> bool, at: nat): Bytes {
    if key == [] then []
    else [Digit(key[0] / 16, upper(at)), Digit(key[0] % 16, upper(at + 1))] + HexPrint(key[1..], upper, at + 2)
  }

  datatype KeyError = InvalidHex | WrongLength

  /** What a key file means. */
  function ParsedKey(data: Bytes): Result<Bytes, KeyError> {
    match HexDecode(Trimmed(data))
    case None => Err(InvalidHex)
    case Some(key) => if |key| == 32 then Ok(key) else Err(WrongLength)
  }

  method LoadMasterKey(data: Bytes) returns (r: Result<Bytes, KeyError>)
    ensures r == ParsedKey(data)
    ensures r.Ok? ==> |r.value| == 32 && |Trimmed(data)| == 64
    ensures r.Ok? ==> forall k :: 0 <= k < 32 ==> IsHexPair(Trimmed(data)[2 * k], Trimmed(data)[2 * k + 1], r.value[k])
    ensures r == Err(InvalidHex) <==>
            |Trimmed(data)| % 2 == 1 || exists k :: 0 <= k < |Trimmed(data)| && Nibble(Trimmed(data)[k]).None?
    ensures r == Err(WrongLength) ==> |Trimmed(data)| != 64
  {
    HexDecodeAccepts(Trimmed(data));
    HexPairs(Trimmed(data));
    var trimmed := BytesTrimSpace(data);
    var key := HexDecode(trimmed);
    match key {
      case None => return Err(InvalidHex);
      case Some(k) =>
        if |k| != 32 {
          return Err(WrongLength);
        }
        return Ok(k);
    }
  }

  /** Two hex digits, the higher first, and the octet they stand for. */
  predicate IsHexPair(high: Byte, low: Byte, octet: Byte) {
    Nibble(high).Some? && Nibble(low).Some? && octet == 16 * Nibble(high).value + Nibble(low).value
  }

  /** The digits are 0-9 (48-57), A-F (65-70) and a-f (97-102). */
  lemma NibblesAre(c: Byte, v: int)
    ensures Nibble(c) == Some(v) <==>
            (48 <= c <= 57 && v == c - 48) || (65 <= c <= 70 && v == c - 55) || (97 <= c <= 102 && v == c - 87)
  {
  }

  lemma {:induction false} HexPairs(s: Bytes)
    ensures HexDecode(s).Some? ==> 2 * |HexDecode(s).value| == |s|
    ensures HexDecode(s).Some? ==>
              forall k :: 0 <= k < |HexDecode(s).value| ==> IsHexPair(s[2 * k], s[2 * k + 1], HexDecode(s).value[k])
  {
    if HexDecode(s).Some? && s != [] {
      HexPairs(s[2..]);
      var rest := HexDecode(s[2..]).value;
      assert HexDecode(s).value == [Nibble(s[0]).value * 16 + Nibble(s[1]).value] + rest;
      forall k | 0 < k < |HexDecode(s).value| ensures IsHexPair(s[2 * k], s[2 * k + 1], HexDecode(s).value[k]) {
        assert s[2..][2 * (k - 1)] == s[2 * k] && s[2..][2 * (k - 1) + 1] == s[2 * k + 1];
        assert HexDecode(s).value[k] == rest[k - 1];
      }
    }
  }

  ghost predicate AllHex(s: Bytes) {
    forall i :: 0 <= i < |s| ==> Nibble(s[i]).Some?
  }

  lemma {:induction false} HexDecodeAccepts(s: Bytes)
    ensures HexDecode(s).Some? <==> |s| % 2 == 0 && AllHex(s)
    ensures HexDecode(s).Some? ==> |HexDecode(s).value| * 2 == |s|
  {
    if |s| >= 2 {
      HexDecodeAccepts(s[2..]);
      assert forall i :: 2 <= i < |s| ==> s[i] == s[2..][i - 2];
      assert AllHex(s) ==> AllHex(s[2..]);
    }
  }

  lemma HexIsTight(s: Bytes)
    requires AllHex(s)
    ensures Tight(s)
  {
  }

  ghost predicate PaddedHex(data: Bytes, left: Bytes, digits: Bytes, right: Bytes) {
    data == left + digits + right && AllSpace(left) && |digits| == 64 && AllHex(digits) && AllSpace(right)
  }

  /** A file is accepted exactly when it is whitespace, 64 hex digits, whitespace. */
  lemma AcceptedFiles(data: Bytes)
    ensures ParsedKey(data).Ok? <==> exists left, digits, right :: PaddedHex(data, left, digits, right)
  {
    HexDecodeAccepts(Trimmed(data));
    if ParsedKey(data).Ok? {
      AcceptedIsPadded(data);
    }
    if left, digits, right :| PaddedHex(data, left, digits, right) {
      HexIsTight(digits);
      TrimmedIsUnique(left, digits, right);
    }
  }

  lemma AcceptedIsPadded(data: Bytes)
    requires |Trimmed(data)| == 64 && AllHex(Trimmed(data))
    ensures exists left, digits, right :: PaddedHex(data, left, digits, right)
  {
    TrimmedIsMaximal(data);
    var i: nat, j: nat :| i <= j <= |data| && Trimmed(data) == data[i..j] && AllSpace(data[..i]) && AllSpace(data[j..]);
    Cut(data, i, j);
    assert PaddedHex(data, data[..i], Trimmed(data), data[j..]);
  }

  lemma Cut(data: Bytes, i: nat, j: nat)
    requires i <= j <= |data|
    ensures data == data[..i] + data[i..j] + data[j..]
  {
  }

  lemma {:induction false} HexRoundTrip(key: Bytes, upper: int -> bool, at: nat)
    ensures HexDecode(HexPrint(key, upper, at)) == Some(key)
  {
    if key != [] {
      HexRoundTrip(key[1..], upper, at + 2);
      var s := HexPrint(key, upper, at);
      assert s[2..] == HexPrint(key[1..], upper, at + 2);
      assert key == [key[0]] + key[1..];
    }
  }

  /** Printing a 32-byte key in any mix of letter cases inside any whitespace loads it back. */
  lemma LoadPrinted(key: Bytes, upper: int -> bool, left: Bytes, right: Bytes)
    requires |key| == 32 && AllSpace(left) && AllSpace(right)
    ensures ParsedKey(left + HexPrint(key, upper, 0) + right) == Ok(key)
  {
    HexRoundTrip(key, upper, 0);
    HexDecodeAccepts(HexPrint(key, upper, 0));
    HexIsTight(HexPrint(key, upper, 0));
    TrimmedIsUnique(left, HexPrint(key, upper, 0), right);
  }
}
