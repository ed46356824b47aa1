/** The outbound packet-id counter: a wrapping 16-bit counter that skips 0. */
module PacketIds {
  import opened Types

  function NextCounter(c: u16): u16 { (c + 1) % 65536 }

  /** The id handed out when the counter reaches `c`. */
  function IdAt(c: u16): u16 { if c == 0 then 1 else c }

  /** The counter after `n` allocations. */
  function CounterAfter(c: u16, n: nat): u16 {
    if n == 0 then c else NextCounter(CounterAfter(c, n - 1))
  }

  /** The id of allocation number `n`, counted from 0. */
  function NthId(c: u16, n: nat): u16 { IdAt(CounterAfter(c, n + 1)) }

  lemma {:induction false} CounterIsModular(c: u16, n: nat)
    ensures CounterAfter(c, n) == (c + n) % 65536
  {
    if n > 0 {
      CounterIsModular(c, n - 1);
      var before := CounterAfter(c, n - 1);
      WrapOnce(c + n - 1, 1);
      assert NextCounter(before) == if before == 65535 then 0 else before + 1;
    }
  }

  lemma {:induction false} CountersAdd(c: u16, a: nat, b: nat)
    ensures CounterAfter(CounterAfter(c, a), b) == CounterAfter(c, a + b)
    ensures NthId(CounterAfter(c, a), b) == NthId(c, a + b)
  {
    if b > 0 {
      CountersAdd(c, a, b - 1);
    }
  }

  /** Two allocations fewer than 65535 apart share an id exactly as the adjacent
      pair at the wrap, where both are 1; no id is ever 0. */
  lemma IdsCollideOnlyAtWrap(c: u16, i: nat, j: nat)
    requires i < j < i + 65535
    ensures NthId(c, i) != 0 && NthId(c, j) != 0
    ensures NthId(c, i) == NthId(c, j) <==> j == i + 1 && (c + j) % 65536 == 0
    ensures NthId(c, i) == NthId(c, j) ==> NthId(c, i) == 1
  {
    CounterIsModular(c, i + 1);
    CounterIsModular(c, j + 1);
    WrapOnce(c + i + 1, j - i);
    WrapOnce(c + j, 1);
    if j == i + 1 {
      assert c + j == c + i + 1;
    }
  }

  lemma WrapOnce(a: nat, d: nat)
    requires d < 65536
    ensures var low := a % 65536 + d;
            (a + d) % 65536 == if low < 65536 then low else low - 65536
  {
    var q := a / 65536;
    assert a == 65536 * q + a % 65536;
  }

  /** The first 65535 ids of a fresh session are pairwise distinct. */
  lemma FreshIdsAreDistinct(i: nat, j: nat)
    requires i < j < 65535
    ensures NthId(0, i) != NthId(0, j)
  {
    IdsCollideOnlyAtWrap(0, i, j);
  }

  /** A fresh session's allocations 65535 and 65536 both hand out id 1. */
  lemma IdRepeatsAtWrap()
    ensures NthId(0, 65535) == 1 && NthId(0, 65536) == 1
  {
    CounterIsModular(0, 65536);
    CounterIsModular(0, 65537);
  }
}
