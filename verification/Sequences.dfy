/** Facts about sequences of sequences: concatenation and cutting into batches. */
module Sequences {

  function Flatten<T>(ss: seq<seq<T>>): seq<T> {
    if ss == [] then [] else ss[0] + Flatten(ss[1..])
  }

  lemma {:induction false} FlattenAppend<T>(ss: seq<seq<T>>, s: seq<T>)
    ensures Flatten(ss + [s]) == Flatten(ss) + s
  {
    if ss == [] {
      assert [s][1..] == [];
    } else {
      FlattenAppend(ss[1..], s);
      assert (ss + [s])[1..] == ss[1..] + [s];
    }
  }

  lemma FlattenPrepend<T>(s: seq<T>, ss: seq<seq<T>>)
    ensures Flatten([s] + ss) == s + Flatten(ss)
  {
    assert ([s] + ss)[1..] == ss;
  }

  /** s cut into pieces of b elements, the last one possibly shorter but never empty. */
  function Chunks<T>(s: seq<T>, b: nat): seq<seq<T>>
    requires b > 0
  {
    if s == [] then [] else if |s| <= b then [s] else [s[..b]] + Chunks(s[b..], b)
  }

  /** Every piece but the last has exactly b elements, the last one between 1 and b. */
  ghost predicate IsChunking<T>(ss: seq<seq<T>>, b: nat) {
    && (forall i :: 0 <= i < |ss| ==> 0 < |ss[i]| <= b)
    && (forall i :: 0 <= i < |ss| - 1 ==> |ss[i]| == b)
  }

  lemma {:induction false} ChunksAreChunking<T>(s: seq<T>, b: nat)
    requires b > 0
    ensures IsChunking(Chunks(s, b), b)
  {
    if |s| > b {
      ChunksAreChunking(s[b..], b);
      var ss, rest := Chunks(s, b), Chunks(s[b..], b);
      forall i | 0 <= i < |ss| ensures 0 < |ss[i]| <= b && (i < |ss| - 1 ==> |ss[i]| == b) {
        if i > 0 {
          assert ss[i] == rest[i - 1];
        }
      }
    }
  }

  lemma {:induction false} FlattenChunks<T>(s: seq<T>, b: nat)
    requires b > 0
    ensures Flatten(Chunks(s, b)) == s
  {
    if s == [] {
    } else if |s| <= b {
      assert [s][1..] == [];
    } else {
      FlattenChunks(s[b..], b);
      FlattenPrepend(s[..b], Chunks(s[b..], b));
      assert s == s[..b] + s[b..];
    }
  }

  /** Where the j-th piece starts. */
  function Start(j: nat, b: nat): nat {
    if j == 0 then 0 else Start(j - 1, b) + b
  }

  /** The piece that holds index k, and the place of k in it. */
  function PieceOf(k: nat, b: nat): nat
    requires b > 0
  {
    if k < b then 0 else PieceOf(k - b, b) + 1
  }

  function PlaceIn(k: nat, b: nat): nat
    requires b > 0
  {
    if k < b then k else PlaceIn(k - b, b)
  }

  /** The l-th element of the j-th piece is l places after the start, and every index has such a place. */
  lemma {:induction false} ChunkPlace<T>(s: seq<T>, b: nat, j: nat, l: nat)
    requires b > 0 && j < |Chunks(s, b)| && l < |Chunks(s, b)[j]|
    ensures Start(j, b) + l < |s| && Chunks(s, b)[j][l] == s[Start(j, b) + l] && l < b
  {
    if |s| > b && j > 0 {
      assert Chunks(s, b)[j] == Chunks(s[b..], b)[j - 1];
      ChunkPlace(s[b..], b, j - 1, l);
    }
  }

  lemma {:induction false} PlaceOf<T>(s: seq<T>, b: nat, k: nat)
    requires b > 0 && k < |s|
    ensures PieceOf(k, b) < |Chunks(s, b)| && PlaceIn(k, b) < |Chunks(s, b)[PieceOf(k, b)]|
    ensures Chunks(s, b)[PieceOf(k, b)][PlaceIn(k, b)] == s[k]
  {
    if k >= b {
      PlaceOf(s[b..], b, k - b);
      assert Chunks(s, b)[PieceOf(k, b)] == Chunks(s[b..], b)[PieceOf(k - b, b)];
    }
  }

  lemma {:induction false} PieceAndPlace(k: nat, b: nat)
    requires b > 0
    ensures k == Start(PieceOf(k, b), b) + PlaceIn(k, b)
  {
    if k >= b {
      PieceAndPlace(k - b, b);
    }
  }

  /** Piece and place are quotient and remainder. */
  lemma {:induction false} QuotientAndRemainder(k: nat, b: nat)
    requires b > 0
    ensures k == PieceOf(k, b) * b + PlaceIn(k, b) && PlaceIn(k, b) < b
  {
    if k >= b {
      QuotientAndRemainder(k - b, b);
      var q := PieceOf(k - b, b);
      assert (q + 1) * b == q * b + b;
    }
  }

  lemma {:induction false} StartsGrow(i: nat, j: nat, b: nat)
    requires i < j
    ensures Start(j, b) >= Start(i, b) + b
    decreases j
  {
    if i < j - 1 {
      StartsGrow(i, j - 1, b);
    }
  }

  /** There are ceil(|s| / b) pieces. */
  lemma {:induction false} ChunkCount<T>(s: seq<T>, b: nat)
    requires b > 0
    ensures |s| <= |Chunks(s, b)| * b < |s| + b
  {
    if s == [] {
    } else if |s| <= b {
    } else {
      ChunkCount(s[b..], b);
      var n := |Chunks(s[b..], b)|;
      assert |Chunks(s, b)| == n + 1;
      assert (n + 1) * b == n * b + b;
    }
  }

  /** A chunking is determined by what it concatenates to. */
  lemma {:induction false} ChunkingIsUnique<T>(ss: seq<seq<T>>, b: nat)
    requires b > 0 && IsChunking(ss, b)
    ensures ss == Chunks(Flatten(ss), b)
  {
    if |ss| == 0 {
    } else if |ss| == 1 {
      assert Flatten(ss) == ss[0];
    } else {
      var rest := ss[1..];
      assert IsChunking(rest, b) by {
        forall i | 0 <= i < |rest| ensures 0 < |rest[i]| <= b && (i < |rest| - 1 ==> |rest[i]| == b) {
          assert rest[i] == ss[i + 1];
        }
      }
      ChunkingIsUnique(rest, b);
      assert |rest[0]| > 0;
      assert Flatten(rest) == rest[0] + Flatten(rest[1..]);
      assert Flatten(ss)[..b] == ss[0] && Flatten(ss)[b..] == Flatten(rest);
    }
  }

  /** Full batches followed by a shorter remainder, if any, are the chunks of their concatenation. */
  lemma LastChunk<T>(full: seq<seq<T>>, rest: seq<T>, b: nat)
    requires |rest| < b && forall j :: 0 <= j < |full| ==> |full[j]| == b
    ensures full + (if rest == [] then [] else [rest]) == Chunks(Flatten(full) + rest, b)
  {
    var all := full + if rest == [] then [] else [rest];
    if rest == [] {
      assert all == full;
    } else {
      FlattenAppend(full, rest);
    }
    assert Flatten(all) == Flatten(full) + rest;
    ChunkingIsUnique(all, b);
  }

  function Map<T, U>(f: T -> U, s: seq<T>): seq<U> {
    if s == [] then [] else [f(s[0])] + Map(f, s[1..])
  }

  lemma {:induction false} MapLength<T, U>(f: T -> U, s: seq<T>)
    ensures |Map(f, s)| == |s|
  {
    if s != [] {
      MapLength(f, s[1..]);
    }
  }

  lemma {:induction false} MapIndexes<T, U>(f: T -> U, s: seq<T>)
    ensures |Map(f, s)| == |s| && forall i :: 0 <= i < |s| ==> Map(f, s)[i] == f(s[i])
  {
    if s != [] {
      MapIndexes(f, s[1..]);
    }
  }

  lemma {:induction false} MapAppend<T, U>(f: T -> U, s: seq<T>, e: T)
    ensures Map(f, s + [e]) == Map(f, s) + [f(e)]
  {
    if s == [] {
      assert s + [e] == [e];
    } else {
      MapAppend(f, s[1..], e);
      assert (s + [e])[1..] == s[1..] + [e];
    }
  }

  lemma MapConcat<T, U>(f: T -> U, a: seq<T>, b: seq<T>)
    ensures Map(f, a + b) == Map(f, a) + Map(f, b)
  {
    MapIndexes(f, a + b);
    MapIndexes(f, a);
    MapIndexes(f, b);
  }

  lemma {:induction false} FlattenMap<T, U>(f: T -> U, ss: seq<seq<T>>, rs: seq<seq<U>>)
    requires |rs| == |ss| && forall i :: 0 <= i < |ss| ==> rs[i] == Map(f, ss[i])
    ensures Flatten(rs) == Map(f, Flatten(ss))
  {
    if ss != [] {
      FlattenMap(f, ss[1..], rs[1..]);
      MapConcat(f, ss[0], Flatten(ss[1..]));
    }
  }

  /** How many elements of s have image x under f. */
  ghost function Tally<T, U>(f: T -> U, s: seq<T>, x: U): nat {
    if s == [] then 0 else (if f(s[0]) == x then 1 else 0) + Tally(f, s[1..], x)
  }

  lemma {:induction false} TallyConcat<T, U>(f: T -> U, a: seq<T>, b: seq<T>, x: U)
    ensures Tally(f, a + b, x) == Tally(f, a, x) + Tally(f, b, x)
  {
    if a == [] {
      assert a + b == b;
    } else {
      TallyConcat(f, a[1..], b, x);
      assert (a + b)[1..] == a[1..] + b;
    }
  }

  lemma TallyOne<T, U>(f: T -> U, e: T, x: U)
    ensures Tally(f, [e], x) == if f(e) == x then 1 else 0
  {
  }

  lemma {:induction false} TallyIsMultiplicity<T, U>(f: T -> U, s: seq<T>, x: U)
    ensures Tally(f, s, x) == multiset(Map(f, s))[x]
  {
    if s != [] {
      TallyIsMultiplicity(f, s[1..], x);
    }
  }

  ghost function Places<T>(s: seq<T>, x: T): set<nat> {
    set i: nat | i < |s| && s[i] == x
  }

  /** The multiplicity of x is the number of its places. */
  lemma {:induction false} Multiplicity<T>(s: seq<T>, x: T)
    ensures multiset(s)[x] == |Places(s, x)|
  {
    var places := Places(s, x);
    if s == [] {
      assert places == {};
    } else {
      var last := |s| - 1;
      Multiplicity(s[..last], x);
      var before := Places(s[..last], x);
      assert s == s[..last] + [s[last]];
      assert multiset(s)[x] == multiset(s[..last])[x] + if s[last] == x then 1 else 0;
      assert last !in before && places == before + if s[last] == x then {last} else {};
    }
  }

  lemma WithoutOne<T>(s: set<T>, e: T)
    ensures |s| == |s - {e}| + if e in s then 1 else 0
  {
    if e !in s {
      assert s - {e} == s;
    }
  }

  function Sum<T>(f: T -> nat, s: seq<T>): nat {
    if s == [] then 0 else f(s[0]) + Sum(f, s[1..])
  }

  lemma {:induction false} SumUpdate<T>(f: T -> nat, s: seq<T>, i: nat, v: T)
    requires i < |s|
    ensures Sum(f, s[i := v]) + f(s[i]) == Sum(f, s) + f(v)
  {
    if i == 0 {
      assert s[i := v][1..] == s[1..];
    } else {
      SumUpdate(f, s[1..], i - 1, v);
      assert s[i := v][1..] == s[1..][i - 1 := v];
    }
  }

  lemma {:induction false} SumOfEqual<T>(f: T -> nat, s: seq<T>, w: nat)
    requires forall i :: 0 <= i < |s| ==> f(s[i]) == w
    ensures Sum(f, s) == w * |s|
  {
    if s != [] {
      SumOfEqual(f, s[1..], w);
      assert w * |s| == w + w * (|s| - 1);
    }
  }
}
