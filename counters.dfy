/**
 * The five frequency tables of one experiment, as a value. This is the shape shared by the
 * store's `Collector` (vectors of `u128`, src/database.rs) and the worker's `CollectorVec`
 * (vectors of `usize`, src/compute.rs), which travels between them as JSON.
 */
module Counters {
  import Decimal

  const THREE_DIGIT_NUMBER_LEN: nat := 670
  const MOD_BY_9_LEN: nat := 9
  const DIVIDED_BY_9_COUNT_LEN: nat := 5
  const COIN_HEAD_CALC_LEN: nat := 17
  const COIN_TAIL_CALC_LEN: nat := 6

  datatype Collector = Collector(
    threeDigitNumber: seq<nat>,
    modBy9: seq<nat>,
    dividedBy9Count: seq<nat>,
    coinHeadCalc: seq<nat>,
    coinTailCalc: seq<nat>)

  /** Every table has exactly its fixed length. */
  predicate WellShaped(c: Collector) {
    && |c.threeDigitNumber| == THREE_DIGIT_NUMBER_LEN
    && |c.modBy9| == MOD_BY_9_LEN
    && |c.dividedBy9Count| == DIVIDED_BY_9_COUNT_LEN
    && |c.coinHeadCalc| == COIN_HEAD_CALC_LEN
    && |c.coinTailCalc| == COIN_TAIL_CALC_LEN
  }

  /** Every table has at least its fixed length: the cells the store's merge indexes exist. */
  predicate Covers(c: Collector) {
    && |c.threeDigitNumber| >= THREE_DIGIT_NUMBER_LEN
    && |c.modBy9| >= MOD_BY_9_LEN
    && |c.dividedBy9Count| >= DIVIDED_BY_9_COUNT_LEN
    && |c.coinHeadCalc| >= COIN_HEAD_CALC_LEN
    && |c.coinTailCalc| >= COIN_TAIL_CALC_LEN
  }

  predicate TableFits(t: seq<nat>) {
    forall i :: 0 <= i < |t| ==> t[i] < Decimal.U128_LIMIT
  }

  /** Every counter is representable as a `u128`. */
  predicate FitsU128(c: Collector) {
    && TableFits(c.threeDigitNumber)
    && TableFits(c.modBy9)
    && TableFits(c.dividedBy9Count)
    && TableFits(c.coinHeadCalc)
    && TableFits(c.coinTailCalc)
  }

  function Sum(t: seq<nat>): nat {
    if t == [] then 0 else Sum(t[..|t| - 1]) + t[|t| - 1]
  }

  /** Overwriting one cell changes the sum by exactly the difference. */
  lemma {:induction false} SumUpdate(t: seq<nat>, i: nat, v: nat)
    requires i < |t|
    ensures Sum(t[i := v]) + t[i] == Sum(t) + v
  {
    var u := t[i := v];
    var last := |t| - 1;
    if i < last {
      assert u[..last] == t[..last][i := v];
      SumUpdate(t[..last], i, v);
    } else {
      assert u[..last] == t[..last];
    }
  }

  /** Adding one to a cell adds one to the sum. */
  lemma {:induction false} SumIncrement(t: seq<nat>, i: nat)
    requires i < |t|
    ensures Sum(t[i := t[i] + 1]) == Sum(t) + 1
  {
    var last := |t| - 1;
    var u := t[i := t[i] + 1];
    if i < last {
      assert u[..last] == t[..last][i := t[i] + 1];
      SumIncrement(t[..last], i);
    } else {
      assert u[..last] == t[..last];
    }
  }

  /** Summing a prefix one cell longer adds that cell. */
  lemma SumPrefix(t: seq<nat>, i: nat)
    requires i < |t|
    ensures Sum(t[..i + 1]) == Sum(t[..i]) + t[i]
  {
    assert t[..i + 1][..i] == t[..i];
  }

  function Zeros(n: nat): (t: seq<nat>)
    ensures |t| == n && Sum(t) == 0
    ensures forall i :: 0 <= i < n ==> t[i] == 0
  {
    SumZeros(n);
    seq(n, _ => 0)
  }

  lemma {:induction false} SumZeros(n: nat)
    ensures Sum(seq(n, _ => 0)) == 0
  {
    if n > 0 {
      assert seq(n, _ => 0)[..n - 1] == seq(n - 1, _ => 0);
      SumZeros(n - 1);
    }
  }

  /** The tables of a store that has no snapshot yet, and of a worker before its first trial. */
  function ZeroCollector(): (c: Collector)
    ensures WellShaped(c) && FitsU128(c)
    ensures Sum(c.threeDigitNumber) == 0 && Sum(c.modBy9) == 0 && Sum(c.dividedBy9Count) == 0
    ensures Sum(c.coinHeadCalc) == 0 && Sum(c.coinTailCalc) == 0
  {
    Collector(
      Zeros(THREE_DIGIT_NUMBER_LEN),
      Zeros(MOD_BY_9_LEN),
      Zeros(DIVIDED_BY_9_COUNT_LEN),
      Zeros(COIN_HEAD_CALC_LEN),
      Zeros(COIN_TAIL_CALC_LEN))
  }
}
