/** The safety mechanisms of the sender (internal/guard/guard.go): delete budget, freeze and approval, retry
    quarantine. */
module Guard {
  import opened Model

  // ---- delete budget

  datatype Budget = Budget(maxCount: int, maxPercent: int)
  {
    /** Whether a pass with so many deletes is refused, given the number of entries known before it. */
    predicate Exceeded(nDeletes: nat, treeSize: nat) {
      nDeletes != 0
      && ((maxCount > 0 && nDeletes > maxCount)
          || (maxPercent > 0 && treeSize > 0 && nDeletes * 100 / treeSize > maxPercent))
    }
  }

  /** What passing the check guarantees: the rounded-down percentage still keeps the deletes under the next percent. */
  lemma BudgetBounds(b: Budget, nDeletes: nat, treeSize: nat)
    ensures !b.Exceeded(nDeletes, treeSize) <==>
      && (b.maxCount > 0 ==> nDeletes <= b.maxCount)
      && (b.maxPercent > 0 && treeSize > 0 ==> nDeletes * 100 < (b.maxPercent + 1) * treeSize)
  {
    if treeSize > 0 {
      FloorBelow(nDeletes * 100, treeSize, b.maxPercent);
    }
  }

  lemma FloorBelow(x: nat, d: nat, k: int)
    requires d > 0
    ensures x / d > k <==> x >= (k + 1) * d
  {
    assert x == d * (x / d) + x % d;
    if x / d > k {
      assert d * (x / d) >= d * (k + 1);
    } else {
      assert d * (x / d) <= d * k;
    }
  }

  // ---- backoff

  function Pow2(n: nat): (r: nat)
    ensures r > 0
  {
    if n == 0 then 1 else 2 * Pow2(n - 1)
  }

  /** A 64-bit signed result. */
  function Wrap64(x: int): int {
    (x + 0x8000_0000_0000_0000) % 0x1_0000_0000_0000_0000 - 0x8000_0000_0000_0000
  }

  const SECOND := 1_000_000_000
  const MAX_WAIT := 300 * SECOND

  /** Go's left shift of a time.Duration: bits shifted out are lost, shifting by 64 or more gives zero. */
  function ShiftLeft(d: int, n: nat): int {
    if n >= 64 then 0 else Wrap64(d * Pow2(n))
  }

  function Backoff(attempts: nat): int {
    var d := ShiftLeft(SECOND, attempts);
    if d > MAX_WAIT || d <= 0 then MAX_WAIT else d
  }

  lemma {:induction false} Pow2Adds(m: nat, n: nat)
    ensures Pow2(m + n) == Pow2(m) * Pow2(n)
  {
    if n > 0 {
      Pow2Adds(m, n - 1);
      assert Pow2(m + n) == 2 * Pow2(m + n - 1);
    }
  }

  lemma {:induction false} Pow2Grows(m: nat, n: nat)
    requires m <= n
    ensures Pow2(m) <= Pow2(n)
  {
    if m < n {
      Pow2Grows(m, n - 1);
    }
  }

  lemma SmallPowers()
    ensures Pow2(8) == 256 && Pow2(9) == 512 && Pow2(33) == 8589934592 && Pow2(34) == 17179869184
  {
    assert Pow2(4) == 16;
    Pow2Adds(4, 4);
    Pow2Adds(8, 8);
    Pow2Adds(16, 16);
    assert Pow2(33) == 2 * Pow2(32) && Pow2(34) == 2 * Pow2(33);
  }

  /** A multiple of 2^43 stays one when it wraps, so it is never a small positive number. */
  lemma WrapOfMultiple(k: int)
    ensures Wrap64(k * 0x800_0000_0000) <= 0 || Wrap64(k * 0x800_0000_0000) >= 0x800_0000_0000
  {
    var t := k + 0x10_0000;
    var q, r := t / 0x20_0000, t % 0x20_0000;
    assert k * 0x800_0000_0000 + 0x8000_0000_0000_0000 == t * 0x800_0000_0000;
    assert t * 0x800_0000_0000 == q * 0x1_0000_0000_0000_0000 + r * 0x800_0000_0000;
    Remainder(q, r * 0x800_0000_0000);
  }

  lemma Remainder(q: int, r: int)
    requires 0 <= r < 0x1_0000_0000_0000_0000
    ensures (q * 0x1_0000_0000_0000_0000 + r) % 0x1_0000_0000_0000_0000 == r
  {
  }

  /** In spite of the wrap-around of the shift: twice as long each time, up to five minutes, for every attempt count. */
  lemma BackoffDoubles(attempts: nat)
    ensures Backoff(attempts) == if SECOND * Pow2(attempts) < MAX_WAIT then SECOND * Pow2(attempts) else MAX_WAIT
  {
    hide Pow2, Wrap64;
    SmallPowers();
    if attempts <= 8 {
      Pow2Grows(attempts, 8);
      NoWrap(SECOND * Pow2(attempts));
    } else {
      Pow2Grows(9, attempts);
      if attempts <= 33 {
        Pow2Grows(attempts, 33);
        NoWrap(SECOND * Pow2(attempts));
      } else {
        Pow2Adds(34, attempts - 34);
        assert SECOND * Pow2(attempts) == (1953125 * Pow2(attempts - 34)) * 0x800_0000_0000;
        WrapOfMultiple(1953125 * Pow2(attempts - 34));
      }
    }
  }

  lemma NoWrap(x: int)
    requires 0 <= x < 0x8000_0000_0000_0000
    ensures Wrap64(x) == x
  {
  }

  // ---- freeze and approval markers of a pair

  class Markers {
    var freeze: bool
    var approve: bool

    constructor ()
      ensures !freeze && !approve
    {
      freeze, approve := false, false;
    }

    /** Whether the operator has approved; the approval is used up and the freeze is lifted with it, each if its file
        can be removed.  That one cannot is not noticed: the approval then stands for the next pass too, or the freeze
        stays. */
    method ConsumeApproval(approveGoes: bool, freezeGoes: bool) returns (yes: bool)
      modifies this
      ensures yes == old(approve)
      ensures approve == (old(approve) && !approveGoes)
      ensures freeze == (old(freeze) && !(yes && freezeGoes))
    {
      if !approve { return false; }
      if approveGoes { approve := false; }
      if freezeGoes { freeze := false; }
      yes := true;
    }

    /** Writing the marker may fail, which is only logged. */
    method Freeze(writable: bool)
      modifies this
      ensures freeze == (old(freeze) || writable) && approve == old(approve)
    {
      if writable { freeze := true; }
    }

    /** The operator renames the freeze marker to the approval. */
    method Approve()
      modifies this
      ensures approve && !freeze
    {
      freeze, approve := false, true;
    }
  }

  // ---- retry quarantine

  const MAX_ATTEMPTS := 10

  datatype Item = Item(attempts: nat, nextTry: int, quarantined: bool)

  type Items = map<Path, Item>

  predicate Quarantined(items: Items, q: Path) {
    q in items && items[q].quarantined
  }

  function Attempts(items: Items, q: Path): nat {
    if q in items then items[q].attempts else 0
  }

  predicate Skipped(items: Items, q: Path, now: int) {
    q in items && (items[q].quarantined || now / SECOND < items[q].nextTry)
  }

  /** After the n-th failure a path is left alone for the whole backoff, to the second, and then tried again, unless
      that was the failure that quarantines it. */
  lemma BackoffWindow(items: Items, q: Path, failedAt: int, n: nat, time: int)
    requires 1 <= n <= MAX_ATTEMPTS && q in items && failedAt <= time
    requires items[q] == Item(n, (failedAt + Backoff(n)) / SECOND, n >= MAX_ATTEMPTS)
    ensures time + SECOND <= failedAt + Backoff(n) ==> Skipped(items, q, time)
    ensures time >= failedAt + Backoff(n) ==> (Skipped(items, q, time) <==> n == MAX_ATTEMPTS)
  {
    hide Backoff;
    Seconds(time, failedAt + Backoff(n));
  }

  lemma Seconds(x: int, y: int)
    ensures x + SECOND <= y ==> x / SECOND < y / SECOND
    ensures x >= y ==> x / SECOND >= y / SECOND
  {
  }

  /** Between one and ten attempts; quarantined is who has had ten. */
  ghost predicate ItemsOk(items: Items) {
    forall q :: q in items
      ==> 1 <= items[q].attempts <= MAX_ATTEMPTS && (items[q].quarantined <==> items[q].attempts == MAX_ATTEMPTS)
  }

  class RetryState {
    var items: Items

    constructor ()
      ensures items == map[]
    {
      items := map[];
    }

    /** Times are in nanoseconds since the epoch; a retry time is kept in whole seconds. */
    method Fail(path: Path, now: int) returns (justQuarantined: bool)
      modifies this
      ensures items.Keys == old(items).Keys + {path}
      ensures forall q :: q in old(items) && q != path ==> items[q] == old(items)[q]
      ensures items[path].attempts == (if path in old(items) then old(items)[path].attempts else 0) + 1
      ensures items[path].nextTry == (now + Backoff(items[path].attempts)) / SECOND
      ensures items[path].quarantined == (items[path].attempts >= MAX_ATTEMPTS || Quarantined(old(items), path))
      ensures justQuarantined == (Quarantined(items, path) && !Quarantined(old(items), path))
      ensures ItemsOk(old(items)) && !Quarantined(old(items), path) ==> ItemsOk(items)
    {
      var it := if path in items then items[path] else Item(0, 0, false);
      var n := it.attempts + 1;
      justQuarantined := n >= MAX_ATTEMPTS && !it.quarantined;
      items := items[path := Item(n, (now + Backoff(n)) / SECOND, it.quarantined || justQuarantined)];
    }

    method Skip(path: Path, now: int) returns (yes: bool)
      ensures yes == Skipped(items, path, now)
    {
      yes := path in items && (items[path].quarantined || now / SECOND < items[path].nextTry);
    }

    method Clear(path: Path)
      modifies this
      ensures items == old(items) - {path}
    {
      items := items - {path};
    }
  }
}
