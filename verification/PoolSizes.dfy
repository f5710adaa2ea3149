/** Size classes of the device-memory pool. */
module PoolSizes {
  import opened Wrappers
  import opened Arithmetic

  const FRONT_CAP: nat := 4
  const MIN_BUCKET_LOG2: nat := 10
  const MAX_BUCKET_LOG2: nat := 28
  const NUM_BUCKETS: nat := 19

  function Pow2(n: nat): (r: nat)
    ensures r > 0
  {
    if n == 0 then 1 else 2 * Pow2(n - 1)
  }

  /** Bits needed to write `n`: the word size less the leading zeros. */
  function BitLen(n: nat): nat {
    if n == 0 then 0 else 1 + BitLen(n / 2)
  }

  function Max(a: nat, b: nat): nat { if a < b then b else a }

  function BucketForBytes(bytes: nat): Option<nat> {
    if bytes == 0 then None else BucketOfLog(BitLen(bytes - 1))
  }

  function BucketOfLog(log2: nat): Option<nat> {
    if log2 > MAX_BUCKET_LOG2 then None else Some(Max(log2, MIN_BUCKET_LOG2) - MIN_BUCKET_LOG2)
  }

  function BucketBytes(bucket: nat): nat { Pow2(bucket + MIN_BUCKET_LOG2) }

  lemma {:induction false} Pow2Mono(a: nat, b: nat)
    requires a <= b
    ensures Pow2(a) <= Pow2(b)
    ensures a < b ==> 2 * Pow2(a) <= Pow2(b)
    decreases b
  {
    if a < b { Pow2Mono(a, b - 1); }
  }

  lemma {:induction false} BitLenBounds(n: nat)
    ensures n < Pow2(BitLen(n))
    ensures n > 0 ==> BitLen(n) > 0 && Pow2(BitLen(n) - 1) <= n
  {
    if n > 0 { BitLenBounds(n / 2); }
  }

  lemma {:induction false} Pow2At10And28()
    ensures Pow2(10) == 1024 && Pow2(28) == 0x1000_0000
  {
    assert Pow2(10) == 1024;
    assert Pow2(20) == 1024 * Pow2(10);
    assert Pow2(28) == 256 * Pow2(20);
  }

  lemma {:induction false} BucketHolds(bytes: nat)
    requires BucketForBytes(bytes).Some?
    ensures BucketForBytes(bytes).value < NUM_BUCKETS
    ensures Max(bytes, 1024) <= BucketBytes(BucketForBytes(bytes).value)
  {
    var log2 := Max(BitLen(bytes - 1), MIN_BUCKET_LOG2);
    BitLenBounds(bytes - 1);
    Pow2At10And28();
    Pow2Mono(BitLen(bytes - 1), log2);
    Pow2Mono(MIN_BUCKET_LOG2, log2);
  }

  lemma {:induction false} SmallerPowers(bytes: nat, k: nat)
    requires bytes > 0 && k < Max(BitLen(bytes - 1), MIN_BUCKET_LOG2)
    ensures Pow2(k) < Max(bytes, 1024)
  {
    BitLenBounds(bytes - 1);
    Pow2At10And28();
    if k < MIN_BUCKET_LOG2 {
      Pow2Mono(k, MIN_BUCKET_LOG2);
    } else {
      Pow2Mono(k, BitLen(bytes - 1) - 1);
    }
  }

  /** A request is served from the least power of two that holds both it and 1 KiB. */
  lemma {:induction false} BucketIsLeast(bytes: nat, k: nat)
    requires BucketForBytes(bytes).Some?
    ensures var b := BucketForBytes(bytes).value;
            && b < NUM_BUCKETS
            && Max(bytes, 1024) <= BucketBytes(b)
            && (Pow2(k) >= Max(bytes, 1024) ==> BucketBytes(b) <= Pow2(k))
  {
    BucketHolds(bytes);
    var log2 := Max(BitLen(bytes - 1), MIN_BUCKET_LOG2);
    if k < log2 {
      SmallerPowers(bytes, k);
    } else {
      Pow2Mono(log2, k);
    }
  }

  /** Requests bypass the buckets exactly when they are empty or above 256 MiB. */
  lemma {:induction false} BucketNone(bytes: nat)
    ensures BucketForBytes(bytes).None? <==> bytes == 0 || bytes > 0x1000_0000
  {
    if bytes > 0 {
      var n := BitLen(bytes - 1);
      BitLenBounds(bytes - 1);
      Pow2At10And28();
      if n > MAX_BUCKET_LOG2 {
        Pow2Mono(MAX_BUCKET_LOG2, n - 1);
      } else {
        Pow2Mono(n, MAX_BUCKET_LOG2);
      }
    }
  }

  /** A block of a bucket's size goes back to that bucket. */
  lemma {:induction false} BucketRoundTrip(b: nat)
    requires b < NUM_BUCKETS
    ensures BucketForBytes(BucketBytes(b)) == Some(b)
  {
    Pow2At10And28();
    Pow2Mono(b + MIN_BUCKET_LOG2, MAX_BUCKET_LOG2);
    BucketNone(BucketBytes(b));
    BucketIsLeast(BucketBytes(b), b + MIN_BUCKET_LOG2);
    SameBucket(b, BucketForBytes(BucketBytes(b)).value);
  }

  lemma {:induction false} SameBucket(b: nat, c: nat)
    requires BucketBytes(b) <= BucketBytes(c)
    requires Pow2(b + MIN_BUCKET_LOG2) >= 1024 ==> BucketBytes(c) <= BucketBytes(b)
    ensures b == c
  {
    Pow2At10And28();
    Pow2Mono(MIN_BUCKET_LOG2, b + MIN_BUCKET_LOG2);
    if c < b {
      Pow2Mono(c + MIN_BUCKET_LOG2, b + MIN_BUCKET_LOG2);
    } else if b < c {
      Pow2Mono(b + MIN_BUCKET_LOG2, c + MIN_BUCKET_LOG2);
    }
  }

  predicate IsPow2(n: nat) {
    n == 1 || (n > 1 && n % 2 == 0 && IsPow2(n / 2))
  }

  lemma {:induction false} IsPow2Log(n: nat) returns (k: nat)
    requires IsPow2(n)
    ensures n == Pow2(k)
  {
    if n == 1 {
      k := 0;
    } else {
      k := IsPow2Log(n / 2);
      k := k + 1;
    }
  }

  lemma {:induction false} Pow2Sum(a: nat, b: nat)
    ensures Pow2(a + b) == Pow2(a) * Pow2(b)
    decreases b
  {
    if b > 0 {
      Pow2Sum(a, b - 1);
      Twice(Pow2(a), Pow2(b - 1));
    }
  }

  /** The bytes tier 3 asks the driver for: as many whole elements as the bucket holds. */
  function DriverBytes(bucket: nat, size: nat): nat
    requires size > 0
  {
    BucketBytes(bucket) / size * size
  }

  /** Power-of-two elements, whenever at least one fits the request. */
  lemma {:induction false} Pow2Exact(len: nat, size: nat, bucket: nat)
    requires IsPow2(size) && len > 0 && BucketForBytes(len * size) == Some(bucket)
    ensures DriverBytes(bucket, size) == BucketBytes(bucket)
  {
    var k := IsPow2Log(size);
    var c := bucket + MIN_BUCKET_LOG2;
    BucketIsLeast(len * size, 0);
    AtLeastOne(len, size);
    if k > c {
      Pow2Mono(c, k);
    }
    Pow2Sum(c - k, k);
    DivExact(Pow2(c - k), size);
  }
}
