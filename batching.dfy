/**
 * `batched(iterable, n)`: split a sequence into consecutive batches of `n`
 * elements, the last one possibly shorter, raising an error when `n < 1`.
 */
module Batching {
  import opened Wrappers

  /** The ValueError "n must be at least one". */
  datatype BatchError = BatchSizeBelowOne

  /** The batches laid end to end. */
  function Flatten<T>(batches: seq<seq<T>>): seq<T>
  {
    if batches == [] then [] else batches[0] + Flatten(batches[1..])
  }

  /**
   * The shape `batched` promises: every batch is non-empty and at most `n`
   * long, and every batch but the last is exactly `n` long.
   */
  ghost predicate WellShaped<T>(batches: seq<seq<T>>, n: int)
  {
    && (forall i :: 0 <= i < |batches| ==> 0 < |batches[i]| <= n)
    && (forall i :: 0 <= i < |batches| - 1 ==> |batches[i]| == n)
  }

  /** Length of the next slice `islice` takes from `rest`. */
  function Take(rest: int, n: int): int
  {
    if rest < n then rest else n
  }

  /** The batches of `s`: each step takes the next `n` elements, or all that remain. */
  function Chunks<T>(s: seq<T>, n: int): seq<seq<T>>
    requires n >= 1
    decreases |s|
  {
    if s == [] then []
    else
      var k := Take(|s|, n);
      [s[..k]] + Chunks(s[k..], n)
  }

  /** `batched(s, n)`: an error for `n < 1`, otherwise batches that give back `s` and have the promised shape. */
  function Batched<T>(s: seq<T>, n: int): (r: Result<seq<seq<T>>, BatchError>)
    ensures r.Failure? <==> n < 1
    ensures r.Success? ==> Flatten(r.value) == s && WellShaped(r.value, n)
  {
    if n < 1 then Failure(BatchSizeBelowOne)
    else
      FlattenChunks(s, n);
      ChunksShape(s, n);
      Success(Chunks(s, n))
  }

  /**
   * The generator as the source runs it: a cursor `i` over `s` stands for
   * the iterator, each round slices off at most `n` elements, and the loop
   * stops at the first empty slice.
   */
  method BatchedLoop<T>(s: seq<T>, n: int) returns (r: Result<seq<seq<T>>, BatchError>)
    ensures r == Batched(s, n)
  {
    if n < 1 {
      return Failure(BatchSizeBelowOne);
    }
    var batches: seq<seq<T>> := [];
    var i := 0;
    while true
      invariant 0 <= i <= |s|
      invariant batches + Chunks(s[i..], n) == Chunks(s, n)
      decreases |s| - i
    {
      var k := Take(|s| - i, n);
      var batch := s[i..i + k];
      if batch == [] {
        assert s[i..] == [];
        assert batches == Chunks(s, n);
        break;
      }
      assert Chunks(s[i..], n) == [batch] + Chunks(s[i + k..], n) by {
        assert s[i..][..k] == batch;
        assert s[i..][k..] == s[i + k..];
      }
      batches := batches + [batch];
      i := i + k;
    }
    return Success(batches);
  }

  lemma FlattenCons<T>(b: seq<T>, rest: seq<seq<T>>)
    ensures Flatten([b] + rest) == b + Flatten(rest)
  {
    assert ([b] + rest)[1..] == rest;
  }

  /** Laying the batches end to end gives back the input, in order. */
  lemma {:induction false} FlattenChunks<T>(s: seq<T>, n: int)
    requires n >= 1
    ensures Flatten(Chunks(s, n)) == s
    decreases |s|
  {
    if s != [] {
      var k := Take(|s|, n);
      FlattenChunks(s[k..], n);
      FlattenCons(s[..k], Chunks(s[k..], n));
      assert s[..k] + s[k..] == s;
    }
  }

  /** Every batch is non-empty and at most `n` long; all but the last are exactly `n` long. */
  lemma {:induction false} ChunksShape<T>(s: seq<T>, n: int)
    requires n >= 1
    ensures WellShaped(Chunks(s, n), n)
    decreases |s|
  {
    if s != [] {
      var k := Take(|s|, n);
      ChunksShape(s[k..], n);
      var rest := Chunks(s[k..], n);
      assert Chunks(s, n) == [s[..k]] + rest;
      if k < n {
        assert s[k..] == [];
      }
    }
  }

  /**
   * The shape rule and the round trip determine the batches: any batches
   * that give back `s` and have the promised shape are exactly `Chunks(s, n)`.
   */
  lemma {:induction false} ChunksUnique<T>(s: seq<T>, n: int, batches: seq<seq<T>>)
    requires n >= 1
    requires Flatten(batches) == s && WellShaped(batches, n)
    ensures batches == Chunks(s, n)
    decreases |batches|
  {
    if batches != [] {
      var b, rest := batches[0], batches[1..];
      FlattenCons(b, rest);
      assert batches == [b] + rest;
      assert WellShaped(rest, n) by {
        forall i | 0 <= i < |rest| ensures 0 < |rest[i]| <= n {
          assert rest[i] == batches[i + 1];
        }
        forall i | 0 <= i < |rest| - 1 ensures |rest[i]| == n {
          assert rest[i] == batches[i + 1];
        }
      }
      if rest == [] {
        assert s == b;
        assert Take(|s|, n) == |s|;
        assert s[..|s|] == s && s[|s|..] == [];
      } else {
        assert |b| == n;
        FlattenCons(rest[0], rest[1..]);
        assert rest == [rest[0]] + rest[1..];
        assert |Flatten(rest)| >= |rest[0]| > 0;
        assert Take(|s|, n) == n;
        assert s[..n] == b && s[n..] == Flatten(rest);
        ChunksUnique(s[n..], n, rest);
      }
    }
  }

  /**
   * The number of batches is the length divided by `n`, rounded up: `c`
   * batches hold more than `(c - 1) * n` and at most `c * n` elements.
   */
  lemma {:induction false} ChunksCount<T>(s: seq<T>, n: int)
    requires n >= 1
    ensures (|Chunks(s, n)| - 1) * n < |s| <= |Chunks(s, n)| * n
    decreases |s|
  {
    if s == [] {
      assert |Chunks(s, n)| == 0;
    } else {
      var k := Take(|s|, n);
      ChunksCount(s[k..], n);
      var c := |Chunks(s[k..], n)|;
      assert Chunks(s, n) == [s[..k]] + Chunks(s[k..], n);
      assert |Chunks(s, n)| == c + 1;
      if k < n {
        assert s[k..] == [];
        assert c == 0;
      } else {
        Distribute(c, n);
      }
    }
  }

  lemma Distribute(c: int, n: int)
    ensures (c + 1) * n == c * n + n && c * n == (c - 1) * n + n
  {
  }

  /** The example in the source's comment: 'ABCDEFG' in threes is ABC, DEF, G. */
  lemma BatchedExample()
    ensures Batched("ABCDEFG", 3) == Success(["ABC", "DEF", "G"])
  {
    var s := "ABCDEFG";
    var g := "G";
    assert g[..1] == g && g[1..] == [];
    assert Chunks(g, 3) == [g];
    var t := "DEFG";
    assert t[..3] == "DEF" && t[3..] == g;
    assert Chunks(t, 3) == ["DEF", "G"];
    assert s[..3] == "ABC" && s[3..] == t;
    assert Chunks(s, 3) == ["ABC", "DEF", "G"];
  }

  /** 120 card ids in batches of 50 make three batches, of 50, 50 and 20 ids. */
  lemma OneHundredTwentyInFifties<T>(s: seq<T>)
    requires |s| == 120
    ensures var c := Chunks(s, 50);
      |c| == 3 && c[0] == s[..50] && c[1] == s[50..100] && c[2] == s[100..]
  {
    var t, u := s[50..], s[100..];
    assert u[..20] == u && u[20..] == [];
    assert Chunks(u, 50) == [u];
    assert t[..50] == s[50..100] && t[50..] == u;
    assert Chunks(t, 50) == [s[50..100], u];
    assert Chunks(s, 50) == [s[..50], s[50..100], u];
  }

  /** An empty input gives no batches. */
  lemma BatchedEmpty<T>(s: seq<T>, n: int)
    requires n >= 1 && s == []
    ensures Batched(s, n) == Success([])
  {
  }
}
