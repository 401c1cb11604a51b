/** The capacities of a connection's buffer: doubling from 64 KB up to 256 MB. */
module Growth {
  import opened Octets

  const FIRST_CAP: nat := 65536
  const LIMIT: nat := 0x1000_0000  // 256 * 1024 * 1024

  /** The k-th capacity. */
  function Cap(k: nat): (c: nat)
    ensures c >= FIRST_CAP
  {
    if k == 0 then FIRST_CAP else 2 * Cap(k - 1)
  }

  lemma CapGrows(i: nat, k: nat)
    requires i < k
    ensures Cap(i) + FIRST_CAP <= Cap(k) && 2 * Cap(i) <= Cap(k)
  {
    if i + 1 < k { CapGrows(i, k - 1); }
  }

  lemma {:induction false} CapLimit(k: nat)
    ensures Cap(12) == LIMIT && (Cap(k) <= LIMIT <==> k <= 12)
  {
    assert Cap(3) == 8 * Cap(0) && Cap(6) == 8 * Cap(3) && Cap(9) == 8 * Cap(6) && Cap(12) == 8 * Cap(9);
    if k > 12 { CapGrows(12, k); }
    if k < 12 { CapGrows(k, 12); }
  }

  /** The number of doublings after which `n` bytes fit, counted from `k`. */
  function Doublings(n: nat, k: nat): (r: nat)
    ensures k <= r && n <= Cap(r) && (r > k ==> Cap(r - 1) < n)
    decreases n - Cap(k)
  {
    if n <= Cap(k) then k else Doublings(n, k + 1)
  }

  /** The least capacity that holds `n` bytes. */
  function LeastCap(n: nat): nat
  {
    Cap(Doublings(n, 0))
  }

  /** One of the thirteen capacities up to the limit. */
  ghost predicate IsCap(cap: nat)
  {
    exists k: nat :: k <= 12 && cap == Cap(k)
  }

  lemma {:induction false} LeastCapIsLeast(n: nat, k: nat)
    requires n <= Cap(k)
    ensures n <= LeastCap(n) <= Cap(k)
  {
    var r := Doublings(n, 0);
    if k < r {
      if k < r - 1 { CapGrows(k, r - 1); }
    } else if r < k {
      CapGrows(r, k);
    }
  }

  /** It is the first one, or less than twice what it holds. */
  lemma {:induction false} LeastCapIsTight(n: nat)
    ensures n <= LeastCap(n) && (LeastCap(n) == 65536 || 65536 < LeastCap(n) < 2 * n)
  {
    var r := Doublings(n, 0);
    if r > 0 { CapNext(r); }
  }

  lemma {:induction false} LeastCapMonotone(m: nat, n: nat)
    requires m <= n
    ensures LeastCap(m) <= LeastCap(n)
    ensures LeastCap(n) <= LIMIT <==> n <= LIMIT
  {
    LeastCapIsLeast(m, Doublings(n, 0));
    CapLimit(12);
    if n <= LIMIT { LeastCapIsLeast(n, 12); }
  }

  lemma {:induction false} LeastCapIsCap(n: nat)
    requires n <= LIMIT
    ensures IsCap(LeastCap(n)) && n <= LeastCap(n)
  {
    LeastCapMonotone(n, n);
    CapLimit(Doublings(n, 0));
  }

  /** Continuing to double from a capacity that is too small gives the same capacity. */
  lemma {:induction false} LeastCapFrom(n: nat, k: nat)
    requires k == 0 || Cap(k - 1) < n
    ensures Cap(Doublings(n, k)) == LeastCap(n)
  {
    var r, s := Doublings(n, k), Doublings(n, 0);
    if r < s { if r < s - 1 { CapGrows(r, s - 1); } }
    if s < r {
      if r == k { if s < k - 1 { CapGrows(s, k - 1); } }
      else if s < r - 1 { CapGrows(s, r - 1); }
    }
  }

  /**
   The accounting of one connection's buffer: the greatest size ever asked for and granted,
   the capacity, the sum of the old capacities at each reallocation, and their number.
   */
  datatype Account = Account(high: nat, cap: nat, copied: nat, reallocs: nat)

  const UNUSED := Account(0, 0, 0, 0)

  /** A request to hold `needed` bytes, granted if it fits or if there is memory and the limit allows it. */
  predicate Granted(a: Account, needed: nat, memory: bool)
  {
    needed <= a.cap || (memory && needed <= LIMIT)
  }

  function Charge(a: Account, needed: nat): Account
  {
    if needed <= a.cap then a.(high := if needed > a.high then needed else a.high)
    else Account(needed, LeastCap(needed), a.copied + a.cap, a.reallocs + 1)
  }

  /**
   The capacity is 0 or the least one for the high-water mark; copying costs less in all than
   the capacity; with each reallocation the capacity has at least doubled.
   */
  ghost predicate Thrifty(a: Account)
  {
    && a.high <= LIMIT
    && a.cap == (if a.high == 0 then 0 else LeastCap(a.high))
    && (a.high == 0 ==> a.copied == 0 && a.reallocs == 0)
    && (a.high > 0 ==> a.copied < a.cap && a.reallocs >= 1 && Cap(a.reallocs - 1) <= a.cap)
  }

  lemma {:induction false} FitKeepsThrifty(a: Account, needed: nat)
    requires Thrifty(a) && needed <= a.cap
    ensures Thrifty(Charge(a, needed)) && Charge(a, needed).cap == a.cap
  {
    if needed > a.high {
      LeastCapMonotone(a.high, needed);
      LeastCapIsLeast(needed, Doublings(a.high, 0));
      LeastCapMonotone(0, a.high);
    }
  }

  /** A capacity that does not hold `n` bytes is at most half of the one that does. */
  lemma {:induction false} LeastCapDoubles(m: nat, n: nat)
    requires LeastCap(m) < n
    ensures 2 * LeastCap(m) <= LeastCap(n)
  {
    var i, k := Doublings(m, 0), Doublings(n, 0);
    if k < i { CapGrows(k, i); }
    if i < k { CapGrows(i, k); }
  }

  lemma CapNext(r: nat)
    requires r > 0
    ensures Cap(r) == 2 * Cap(r - 1)
  {
  }

  lemma {:induction false} GrowthKeepsThrifty(a: Account, needed: nat)
    requires Thrifty(a) && a.cap < needed <= LIMIT
    ensures Thrifty(Charge(a, needed)) && needed <= Charge(a, needed).cap
  {
    LeastCapIsLeast(needed, Doublings(needed, 0));
    if a.high > 0 {
      LeastCapDoubles(a.high, needed);
      CapNext(a.reallocs);
    }
  }

  lemma {:induction false} ChargeKeepsThrifty(a: Account, needed: nat, memory: bool)
    requires Thrifty(a) && Granted(a, needed, memory)
    ensures Thrifty(Charge(a, needed)) && needed <= Charge(a, needed).cap
  {
    if needed <= a.cap { FitKeepsThrifty(a, needed); } else { GrowthKeepsThrifty(a, needed); }
  }

  lemma {:induction false} FewReallocations(a: Account)
    requires Thrifty(a)
    ensures a.reallocs <= 13 && a.cap <= 0x1000_0000 && (a.cap > 0 ==> a.copied < a.cap)
  {
    if a.high > 0 {
      LeastCapMonotone(0, a.high);
      CapLimit(a.reallocs - 1);
    }
  }
}
