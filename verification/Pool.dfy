/** The buffer pool (audio/pool.go): power-of-two size classes of total sample count. */
module Pool {
  import opened Concat

  const MIN_CLASS: nat := 8
  const MAX_CLASS: nat := 22

  function Pow2(k: nat): nat { if k == 0 then 1 else 2 * Pow2(k - 1) }

  lemma {:induction false} Pow2Ascends(j: nat, k: nat)
    requires j <= k
    ensures 0 < Pow2(j) <= Pow2(k)
    decreases k
  {
    if j < k {
      Pow2Ascends(j, k - 1);
    } else if j > 0 {
      Pow2Ascends(j - 1, j - 1);
    }
  }

  /** bits.Len: how many bits it takes to write n. */
  method Len(n: nat) returns (b: nat)
    ensures n < Pow2(b) && (b > 0 ==> Pow2(b - 1) <= n)
  {
    b := 0;
    var p := 1;
    while p <= n
      invariant p == Pow2(b) && (b > 0 ==> Pow2(b - 1) <= n)
      decreases n - p
    {
      p, b := 2 * p, b + 1;
    }
  }

  /** The width of total - 1 is the least power of two that total fits. */
  lemma RoundsUp(total: int, b: nat, lo: nat, hi: nat)
    requires lo <= hi && Pow2(lo) < total <= Pow2(b) && (b > 0 ==> Pow2(b - 1) < total)
    ensures lo < b && (total > Pow2(hi) <==> b > hi)
  {
    if b <= lo {
      Pow2Ascends(b, lo);
    }
    if b > hi {
      Pow2Ascends(hi, b - 1);
    } else {
      Pow2Ascends(b, hi);
    }
  }

  /** classBits: the class for a total sample count, -1 when it is too large to pool. */
  method ClassBits(total: int) returns (c: int)
    ensures total > Pow2(MAX_CLASS) <==> c == -1
    ensures c != -1 ==> MIN_CLASS <= c <= MAX_CLASS && total <= Pow2(c) && (c > MIN_CLASS ==> Pow2(c - 1) < total)
  {
    if total <= Pow2(MIN_CLASS) {
      Pow2Ascends(MIN_CLASS, MAX_CLASS);
      return MIN_CLASS;
    }
    var b := Len(total - 1);
    RoundsUp(total, b, MIN_CLASS, MAX_CLASS);
    if b > MAX_CLASS {
      return -1;
    }
    c := b;
  }

  /** Capacities of class k: at least 2^k samples, and fewer than twice that. */
  ghost predicate OfClass(size: nat, k: nat) {
    Pow2(k) <= size < Pow2(k + 1)
  }

  /** The class for a total: the least whose buffers fit it. */
  ghost predicate ClassFor(total: int, k: nat) {
    MIN_CLASS <= k <= MAX_CLASS && total <= Pow2(k) && (k > MIN_CLASS ==> Pow2(k - 1) < total)
  }

  lemma OneClassFor(total: int, j: nat, k: nat)
    requires ClassFor(total, j) && ClassFor(total, k)
    ensures j == k
  {
    if j < k {
      Pow2Ascends(j, k - 1);
    } else if k < j {
      Pow2Ascends(k, j - 1);
    }
  }

  /** One buffer of the given capacity leaves class k, and nothing else moves. */
  ghost predicate Took(before: seq<multiset<nat>>, after: seq<multiset<nat>>, k: nat, size: nat) {
    k < |before| && size in before[k] && after == before[k := before[k] - multiset{size}]
  }

  lemma GivesBack(held: seq<multiset<nat>>, k: nat, size: nat)
    requires k < |held|
    ensures Took(held[k := held[k] + multiset{size}], held, k, size)
  {
    var after := held[k := held[k] + multiset{size}];
    assert after[k] - multiset{size} == held[k];
    assert held == after[k := held[k]];
  }

  /** The pool: for each class, the capacities of the buffers it holds. */
  class Pool {
    var held: seq<multiset<nat>>

    /** Every buffer held is of the class it is held in. */
    ghost predicate Valid()
      reads this
    {
      |held| == MAX_CLASS + 1 && forall k, n :: 0 <= k < |held| && n in held[k] ==> OfClass(n, k)
    }

    constructor ()
      ensures Valid()
    {
      held := seq(MAX_CLASS + 1, k => multiset{});
    }

    /** Get: a buffer with room for every sample asked for. */
    method Get(frames: nat, channels: nat) returns (size: nat)
      requires Valid() && frames > 0 && channels > 0
      modifies this
      ensures Valid() && frames * channels <= size
      ensures forall k :: 0 <= k < |held| ==> held[k] <= old(held)[k]
      ensures Serves(old(held), frames * channels, size)
      ensures held == old(held) || (exists k :: Took(old(held), held, k, size))
    {
      size := Take(frames * channels);
    }

    /** A total is served from its class when the class has a buffer, and else by a new one of that class; one too large
        for any class by one of its own size. */
    ghost predicate Serves(before: seq<multiset<nat>>, total: nat, size: nat)
      reads this
    {
      && (total > Pow2(MAX_CLASS) ==> held == before && size == total)
      && forall k: nat :: ClassFor(total, k) && k < |before| ==>
        if before[k] == multiset{} then held == before && size == Pow2(k) else Took(before, held, k, size)
    }

    method Take(total: nat) returns (size: nat)
      requires Valid()
      modifies this
      ensures Valid() && total <= size
      ensures forall k :: 0 <= k < |held| ==> held[k] <= old(held)[k]
      ensures Serves(old(held), total, size)
      ensures held == old(held) || (exists k :: Took(old(held), held, k, size))
    {
      var c := ClassBits(total);
      if c < 0 {
        NoClass(total);
        return total;
      }
      OnlyClass(total, c);
      if |held[c]| > 0 {
        size := TakeFrom(c);
      } else {
        size := Pow2(c);
      }
    }

    method TakeFrom(c: nat) returns (size: nat)
      requires Valid() && c <= MAX_CLASS && |held[c]| > 0
      modifies this
      ensures Valid() && Pow2(c) <= size && old(held)[c] != multiset{} && Took(old(held), held, c, size)
      ensures forall k :: 0 <= k < |held| ==> held[k] <= old(held)[k]
    {
      size :| size in held[c];
      assert OfClass(size, c);
      held := held[c := held[c] - multiset{size}];
    }

    static lemma NoClass(total: int)
      requires total > Pow2(MAX_CLASS)
      ensures forall k: nat :: !ClassFor(total, k)
    {
      forall k: nat | k <= MAX_CLASS
        ensures Pow2(k) < total
      {
        Pow2Ascends(k, MAX_CLASS);
      }
    }

    static lemma OnlyClass(total: int, c: nat)
      requires ClassFor(total, c)
      ensures total <= Pow2(MAX_CLASS) && forall k: nat :: ClassFor(total, k) ==> k == c
    {
      Pow2Ascends(c, MAX_CLASS);
      forall k: nat | ClassFor(total, k)
        ensures k == c
      {
        OneClassFor(total, k, c);
      }
    }

    /** Put: a buffer goes back to its own capacity's class, or is dropped when it has none. */
    method Put(size: nat)
      requires Valid()
      modifies this
      ensures Valid()
      ensures size < Pow2(MIN_CLASS) || Pow2(MAX_CLASS + 1) <= size ==> held == old(held)
      ensures Pow2(MIN_CLASS) <= size < Pow2(MAX_CLASS + 1) ==>
                (exists k :: MIN_CLASS <= k && OfClass(size, k) && Took(held, old(held), k, size))
    {
      if size < Pow2(MIN_CLASS) {
        return;
      }
      var b := Len(size);
      var k := b - 1;
      if k > MAX_CLASS {
        Pow2Ascends(MAX_CLASS + 1, k);
        return;
      }
      ClassOf(size, k);
      GivesBack(held, k, size);
      held := held[k := held[k] + multiset{size}];
    }
  }

  /** A capacity in the pool's range has a class of the pool, and only one. */
  lemma ClassOf(size: nat, k: nat)
    requires Pow2(MIN_CLASS) <= size && Pow2(k) <= size < Pow2(k + 1) && k <= MAX_CLASS
    ensures MIN_CLASS <= k && size < Pow2(MAX_CLASS + 1)
    ensures forall j: nat :: Pow2(j) <= size < Pow2(j + 1) ==> j == k
  {
    if k < MIN_CLASS {
      Pow2Ascends(k + 1, MIN_CLASS);
    }
    Pow2Ascends(k + 1, MAX_CLASS + 1);
    forall j: nat | Pow2(j) <= size < Pow2(j + 1)
      ensures j == k
    {
      if j < k {
        Pow2Ascends(j + 1, k);
      } else if k < j {
        Pow2Ascends(k + 1, j);
      }
    }
  }

  /** The largest crossfade a timeline allows is exactly the largest blend buffer the pool holds. */
  lemma CrossfadeFitsPool(channels: nat, x: nat)
    requires channels > 0
    ensures x <= MAX_CROSSFADE_BYTES / (channels * 4) <==> x * channels <= Pow2(MAX_CLASS)
  {
    TopClass();
    var d, q := channels * 4, MAX_CROSSFADE_BYTES / (channels * 4);
    assert MAX_CROSSFADE_BYTES == d * q + MAX_CROSSFADE_BYTES % d;
    if x <= q {
      assert d * x <= d * q;
    } else {
      assert d * (q + 1) <= d * x;
    }
    assert d * x == 4 * (x * channels);
  }

  lemma TopClass()
    ensures Pow2(MAX_CLASS) == 0x40_0000 && MAX_CROSSFADE_BYTES == 4 * Pow2(MAX_CLASS)
  {
    assert Pow2(4) == 16;
    assert Pow2(8) == 256;
    assert Pow2(12) == 4096;
    assert Pow2(16) == 0x1_0000;
    assert Pow2(20) == 0x10_0000;
  }
}
