/** The cycling placeholder text: a key counter and the item it selects. */
module UseLoop {
  import opened Wrappers

  const DefaultDelayMs: int := 3000

  /** The item shown for a key; an empty array has none (`key % 0` is `NaN`). */
  function CurrentItem(items: seq<string>, key: nat): (r: Option<string>)
    ensures r.None? <==> items == []
    ensures r.Some? ==> r.value in items
  {
    if |items| == 0 then None else Some(items[key % |items|])
  }

  /** The shown item repeats with a period of the array's length. */
  lemma {:induction false} CurrentItemPeriodic(items: seq<string>, key: nat, rounds: nat)
    ensures CurrentItem(items, key + rounds * |items|) == CurrentItem(items, key)
  {
    if rounds > 0 && |items| > 0 {
      var n := |items|;
      CurrentItemPeriodic(items, key, rounds - 1);
      var k := key + (rounds - 1) * n;
      assert key + rounds * n == k + n;
      ModAddPeriod(k, n);
    }
  }

  lemma ModAddPeriod(k: nat, n: nat)
    requires n > 0
    ensures (k + n) % n == k % n
  {
    var q := k / n;
    var r := k % n;
    assert k == q * n + r;
    assert k + n == (q + 1) * n + r;
    ModUnique(k + n, n, q + 1, r);
  }

  /** The remainder is the unique `r` in range with `a == q * n + r`. */
  lemma ModUnique(a: nat, n: nat, q: nat, r: nat)
    requires n > 0 && r < n && a == q * n + r
    ensures a % n == r
  {
    var q2 := a / n;
    var r2 := a % n;
    assert a == q2 * n + r2;
    if q > q2 {
      MulDiff(q, q2, n);
      MulAtLeast(q - q2, n);
    } else if q < q2 {
      MulDiff(q2, q, n);
      MulAtLeast(q2 - q, n);
    }
  }

  lemma MulDiff(x: nat, y: nat, n: nat)
    requires x >= y
    ensures (x - y) * n == x * n - y * n
  {
  }

  lemma {:induction false} MulAtLeast(x: nat, n: nat)
    requires x >= 1
    ensures x * n >= n
  {
    if x > 1 {
      MulAtLeast(x - 1, n);
      assert x * n == (x - 1) * n + n;
    }
  }

  /** Within the first round the keys show the items in order, starting with the first one. */
  lemma FirstRound(items: seq<string>, key: nat)
    requires key < |items|
    ensures CurrentItem(items, key) == Some(items[key])
  {
  }

  /** `useLoop`: the key state, its interval delay, and the items it cycles through. */
  class Loop {
    var key: nat
    const items: seq<string>
    const delay: int

    constructor(items: seq<string>, delay: Option<int>)
      ensures key == 0 && this.items == items
      ensures this.delay == if delay.Some? then delay.value else DefaultDelayMs
    {
      key := 0;
      this.items := items;
      this.delay := if delay.Some? then delay.value else DefaultDelayMs;
    }

    /** The item on screen: none for an empty array, otherwise one of the items. */
    function Shown(): (r: Option<string>)
      reads this
      ensures r.None? <==> items == []
      ensures r.Some? ==> r.value in items
    {
      CurrentItem(items, key)
    }

    /** `incrementKey`: one tick of the interval. */
    method IncrementKey()
      modifies this
      ensures key == old(key) + 1
    {
      key := key + 1;
    }
  }
}
