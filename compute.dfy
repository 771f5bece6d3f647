/**
 * The trial classifier of src/compute.rs. The random values of `dice` and `coin` are inputs:
 * each trial is the twelve dice the source draws, in drawing order, and the coin.
 */
module Compute {
  import opened Counters

  /** Rounds per uploaded batch in the source; the model runs any number of rounds. */
  const ROUND: nat := 100000000

  /** `dice` returns a value in `DICE_RANGE`, 1..=6. */
  predicate IsDie(d: nat) {
    1 <= d <= 6
  }

  /** The random draws of one `round`: dice three at a time for four numbers, then the coin (`true`: head). */
  datatype Trial = Trial(rolls: seq<nat>, heads: bool)

  const DICE_PER_ROUND: nat := 12

  predicate ValidTrial(t: Trial) {
    |t.rolls| == DICE_PER_ROUND && forall i :: 0 <= i < |t.rolls| ==> IsDie(t.rolls[i])
  }

  /** The number `three_digit_number` builds from three dice: 3 plus units, tens and hundreds. */
  function Number(d1: nat, d2: nat, d3: nat): (n: nat)
    requires IsDie(d1) && IsDie(d2) && IsDie(d3)
    ensures 114 <= n <= 669 && n < THREE_DIGIT_NUMBER_LEN
  {
    3 + d1 + d2 * 10 + d3 * 100
  }

  /** The `k`-th number (0 to 3) of a round. */
  function Drawn(t: Trial, k: nat): (n: nat)
    requires ValidTrial(t) && k < 4
    ensures n < THREE_DIGIT_NUMBER_LEN
  {
    Number(t.rolls[3 * k], t.rolls[3 * k + 1], t.rolls[3 * k + 2])
  }

  /** `a`, `b`, `c`, `d` of `divided_by_9_count`: the four numbers modulo 9. */
  function Residues(t: Trial): (r: seq<nat>)
    requires ValidTrial(t)
    ensures |r| == 4 && r[0] < MOD_BY_9_LEN && r[1] < MOD_BY_9_LEN && r[2] < MOD_BY_9_LEN && r[3] < MOD_BY_9_LEN
  {
    [Drawn(t, 0) % 9, Drawn(t, 1) % 9, Drawn(t, 2) % 9, Drawn(t, 3) % 9]
  }

  /** `count` of `divided_by_9_count`: how many of the four residues are 0. */
  function ZeroCount(t: Trial): (count: nat)
    requires ValidTrial(t)
    ensures count <= 4 && count < DIVIDED_BY_9_COUNT_LEN
  {
    var r := Residues(t);
    (if r[0] == 0 then 1 else 0) + (if r[1] == 0 then 1 else 0)
      + (if r[2] == 0 then 1 else 0) + (if r[3] == 0 then 1 else 0)
  }

  /** `count` is the number of the round's four numbers that are divisible by 9. */
  lemma ZeroCountIsMultiplicity(t: Trial)
    requires ValidTrial(t)
    ensures ZeroCount(t) == multiset(Residues(t))[0]
  {
    var r := Residues(t);
    assert r == [r[0]] + [r[1]] + [r[2]] + [r[3]];
    assert multiset(r) == multiset([r[0]]) + multiset([r[1]]) + multiset([r[2]]) + multiset([r[3]]);
  }

  /** The coin-table index `round` updates: `count * count` on a head, `count + 1` on a tail. */
  function CoinIndex(t: Trial): (x: nat)
    requires ValidTrial(t)
    ensures t.heads ==> x in {0, 1, 4, 9, 16} && x < COIN_HEAD_CALC_LEN
    ensures !t.heads ==> 1 <= x <= 5 && x < COIN_TAIL_CALC_LEN
  {
    var count := ZeroCount(t);
    SmallSquare(count);
    if t.heads then count * count else count + 1
  }

  lemma SmallSquare(n: nat)
    requires n <= 4
    ensures n * n in {0, 1, 4, 9, 16}
  {
    if n == 0 {} else if n == 1 {} else if n == 2 {} else if n == 3 {} else {}
  }

  /** `table[i] += 1`. */
  function Bump(s: seq<nat>, i: nat): (r: seq<nat>)
    requires i < |s|
    ensures |r| == |s|
  {
    s[i := s[i] + 1]
  }

  /** Counting one more outcome raises the table's sum by exactly 1. */
  lemma BumpSum(s: seq<nat>, i: nat)
    requires i < |s|
    ensures Sum(Bump(s, i)) == Sum(s) + 1
  {
    SumIncrement(s, i);
  }

  /** The `three_digit_number` table after the four numbers of a round are counted. */
  function CountNumbers(s: seq<nat>, t: Trial): (r: seq<nat>)
    requires |s| == THREE_DIGIT_NUMBER_LEN && ValidTrial(t)
    ensures |r| == |s|
  {
    Bump(Bump(Bump(Bump(s, Drawn(t, 0)), Drawn(t, 1)), Drawn(t, 2)), Drawn(t, 3))
  }

  /** The `mod_by_9` table after the four residues of a round are counted. */
  function CountResidues(s: seq<nat>, t: Trial): (r: seq<nat>)
    requires |s| == MOD_BY_9_LEN && ValidTrial(t)
    ensures |r| == |s|
  {
    var res := Residues(t);
    Bump(Bump(Bump(Bump(s, res[0]), res[1]), res[2]), res[3])
  }

  /** The tables after one `round`. */
  function RoundResult(c: Counters.Collector, t: Trial): (r: Counters.Collector)
    requires WellShaped(c) && ValidTrial(t)
    ensures WellShaped(r)
  {
    Counters.Collector(
      CountNumbers(c.threeDigitNumber, t),
      CountResidues(c.modBy9, t),
      Bump(c.dividedBy9Count, ZeroCount(t)),
      if t.heads then Bump(c.coinHeadCalc, CoinIndex(t)) else c.coinHeadCalc,
      if t.heads then c.coinTailCalc else Bump(c.coinTailCalc, CoinIndex(t)))
  }

  predicate ValidTrials(ts: seq<Trial>) {
    forall i :: 0 <= i < |ts| ==> ValidTrial(ts[i])
  }

  /** The tables after the rounds `ts`, one after the other. */
  function Rounds(c: Counters.Collector, ts: seq<Trial>): (r: Counters.Collector)
    requires WellShaped(c) && ValidTrials(ts)
    ensures WellShaped(r)
  {
    if ts == [] then c else RoundResult(Rounds(c, ts[..|ts| - 1]), ts[|ts| - 1])
  }

  /**
   * One round adds 4 to the `three_digit_number` and `mod_by_9` tables, 1 to `divided_by_9_count`,
   * and 1 to exactly one of the coin tables, chosen by the coin.
   */
  lemma RoundSums(c: Counters.Collector, t: Trial)
    requires WellShaped(c) && ValidTrial(t)
    ensures var r := RoundResult(c, t);
      && Sum(r.threeDigitNumber) == Sum(c.threeDigitNumber) + 4
      && Sum(r.modBy9) == Sum(c.modBy9) + 4
      && Sum(r.dividedBy9Count) == Sum(c.dividedBy9Count) + 1
      && Sum(r.coinHeadCalc) == Sum(c.coinHeadCalc) + (if t.heads then 1 else 0)
      && Sum(r.coinTailCalc) == Sum(c.coinTailCalc) + (if t.heads then 0 else 1)
      && (t.heads ==> r.coinTailCalc == c.coinTailCalc)
      && (!t.heads ==> r.coinHeadCalc == c.coinHeadCalc)
  {
    var s0 := c.threeDigitNumber;
    var s1 := Bump(s0, Drawn(t, 0));
    var s2 := Bump(s1, Drawn(t, 1));
    var s3 := Bump(s2, Drawn(t, 2));
    BumpSum(s0, Drawn(t, 0));
    BumpSum(s1, Drawn(t, 1));
    BumpSum(s2, Drawn(t, 2));
    BumpSum(s3, Drawn(t, 3));
    var res := Residues(t);
    var m0 := c.modBy9;
    var m1 := Bump(m0, res[0]);
    var m2 := Bump(m1, res[1]);
    var m3 := Bump(m2, res[2]);
    BumpSum(m0, res[0]);
    BumpSum(m1, res[1]);
    BumpSum(m2, res[2]);
    BumpSum(m3, res[3]);
    BumpSum(c.dividedBy9Count, ZeroCount(t));
    if t.heads {
      BumpSum(c.coinHeadCalc, CoinIndex(t));
    } else {
      BumpSum(c.coinTailCalc, CoinIndex(t));
    }
  }

  /** After the rounds `ts`, every table's sum has risen by its per-round amount times `|ts|`. */
  lemma {:induction false} RoundsSums(c: Counters.Collector, ts: seq<Trial>)
    requires WellShaped(c) && ValidTrials(ts)
    ensures var r := Rounds(c, ts);
      && Sum(r.threeDigitNumber) == Sum(c.threeDigitNumber) + 4 * |ts|
      && Sum(r.modBy9) == Sum(c.modBy9) + 4 * |ts|
      && Sum(r.dividedBy9Count) == Sum(c.dividedBy9Count) + |ts|
      && Sum(r.coinHeadCalc) + Sum(r.coinTailCalc) == Sum(c.coinHeadCalc) + Sum(c.coinTailCalc) + |ts|
  {
    if ts != [] {
      var init := ts[..|ts| - 1];
      RoundsSums(c, init);
      RoundSums(Rounds(c, init), ts[|ts| - 1]);
    }
  }

  /** A batch of `N` rounds from zero counts exactly `N` trials in `divided_by_9_count`. */
  lemma BatchCountsTrials(ts: seq<Trial>)
    requires ValidTrials(ts)
    ensures var r := Rounds(ZeroCollector(), ts);
      && WellShaped(r)
      && Sum(r.dividedBy9Count) == |ts|
      && Sum(r.threeDigitNumber) == 4 * |ts|
      && Sum(r.modBy9) == 4 * |ts|
      && Sum(r.coinHeadCalc) + Sum(r.coinTailCalc) == |ts|
  {
    RoundsSums(ZeroCollector(), ts);
  }

  /** A batch as the source runs it, `ROUND` trials, adds exactly `ROUND` to the trial count. */
  lemma FullBatchCountsRound(ts: seq<Trial>)
    requires |ts| == ROUND && ValidTrials(ts)
    ensures Sum(Rounds(ZeroCollector(), ts).dividedBy9Count) == ROUND
  {
    BatchCountsTrials(ts);
  }

  /** The worker's fixed-size `Collector`: each table a buffer of exactly its length. */
  class Collector {
    var threeDigitNumber: array<nat>
    var modBy9: array<nat>
    var dividedBy9Count: array<nat>
    var coinHeadCalc: array<nat>
    var coinTailCalc: array<nat>

    ghost predicate Valid()
      reads this
    {
      && threeDigitNumber.Length == THREE_DIGIT_NUMBER_LEN
      && modBy9.Length == MOD_BY_9_LEN
      && dividedBy9Count.Length == DIVIDED_BY_9_COUNT_LEN
      && coinHeadCalc.Length == COIN_HEAD_CALC_LEN
      && coinTailCalc.Length == COIN_TAIL_CALC_LEN
      && threeDigitNumber != modBy9 && threeDigitNumber != dividedBy9Count
      && threeDigitNumber != coinHeadCalc && threeDigitNumber != coinTailCalc
      && modBy9 != dividedBy9Count && modBy9 != coinHeadCalc && modBy9 != coinTailCalc
      && dividedBy9Count != coinHeadCalc && dividedBy9Count != coinTailCalc
      && coinHeadCalc != coinTailCalc
    }

    /** The tables as a value. */
    ghost function View(): Counters.Collector
      reads this, threeDigitNumber, modBy9, dividedBy9Count, coinHeadCalc, coinTailCalc
    {
      Counters.Collector(threeDigitNumber[..], modBy9[..], dividedBy9Count[..], coinHeadCalc[..], coinTailCalc[..])
    }

    /** `Collector { three_digit_number: [0; 670], ... }`. */
    constructor ()
      ensures Valid() && View() == ZeroCollector()
      ensures fresh(threeDigitNumber) && fresh(modBy9) && fresh(dividedBy9Count)
      ensures fresh(coinHeadCalc) && fresh(coinTailCalc)
    {
      threeDigitNumber := new nat[THREE_DIGIT_NUMBER_LEN](_ => 0);
      modBy9 := new nat[MOD_BY_9_LEN](_ => 0);
      dividedBy9Count := new nat[DIVIDED_BY_9_COUNT_LEN](_ => 0);
      coinHeadCalc := new nat[COIN_HEAD_CALC_LEN](_ => 0);
      coinTailCalc := new nat[COIN_TAIL_CALC_LEN](_ => 0);
      new;
      assert threeDigitNumber[..] == Zeros(THREE_DIGIT_NUMBER_LEN);
      assert modBy9[..] == Zeros(MOD_BY_9_LEN);
      assert dividedBy9Count[..] == Zeros(DIVIDED_BY_9_COUNT_LEN);
      assert coinHeadCalc[..] == Zeros(COIN_HEAD_CALC_LEN);
      assert coinTailCalc[..] == Zeros(COIN_TAIL_CALC_LEN);
    }

    /** `Collector::into_vec`: every table copied out with its length and contents. */
    method IntoVec() returns (v: Counters.Collector)
      requires Valid()
      ensures WellShaped(v)
      ensures v.threeDigitNumber == threeDigitNumber[..] && v.modBy9 == modBy9[..]
      ensures v.dividedBy9Count == dividedBy9Count[..]
      ensures v.coinHeadCalc == coinHeadCalc[..] && v.coinTailCalc == coinTailCalc[..]
    {
      v := Counters.Collector(threeDigitNumber[..], modBy9[..], dividedBy9Count[..], coinHeadCalc[..], coinTailCalc[..]);
    }

    /** `three_digit_number`: counts `3 + d1 + 10 * d2 + 100 * d3` and returns it. */
    method ThreeDigitNumber(d1: nat, d2: nat, d3: nat) returns (number: nat)
      requires Valid() && IsDie(d1) && IsDie(d2) && IsDie(d3)
      modifies threeDigitNumber
      ensures number == Number(d1, d2, d3) && number < threeDigitNumber.Length
      ensures threeDigitNumber[..] == Bump(old(threeDigitNumber[..]), number)
    {
      number := 3;
      number := number + d1;
      number := number + d2 * 10;
      number := number + d3 * 100;
      threeDigitNumber[number] := threeDigitNumber[number] + 1;
    }

    /**
     * `divided_by_9_count`: counts four numbers and their residues modulo 9, then the number of
     * zero residues, which it returns.
     */
    method DividedBy9Count(t: Trial) returns (count: nat)
      requires Valid() && ValidTrial(t)
      modifies threeDigitNumber, modBy9, dividedBy9Count
      ensures count == ZeroCount(t)
      ensures threeDigitNumber[..] == CountNumbers(old(threeDigitNumber[..]), t)
      ensures modBy9[..] == CountResidues(old(modBy9[..]), t)
      ensures dividedBy9Count[..] == Bump(old(dividedBy9Count[..]), count)
    {
      count := 0;
      var n0 := ThreeDigitNumber(t.rolls[0], t.rolls[1], t.rolls[2]);
      var n1 := ThreeDigitNumber(t.rolls[3], t.rolls[4], t.rolls[5]);
      var n2 := ThreeDigitNumber(t.rolls[6], t.rolls[7], t.rolls[8]);
      var n3 := ThreeDigitNumber(t.rolls[9], t.rolls[10], t.rolls[11]);
      var a, b, c, d := n0 % 9, n1 % 9, n2 % 9, n3 % 9;
      assert [a, b, c, d] == Residues(t);
      CountModBy9(a, b, c, d);

      if a == 0 { count := count + 1; }
      if b == 0 { count := count + 1; }
      if c == 0 { count := count + 1; }
      if d == 0 { count := count + 1; }
      dividedBy9Count[count] := dividedBy9Count[count] + 1;
    }

    /** The four `collector.mod_by_9[_] += 1` statements of `divided_by_9_count`. */
    method CountModBy9(a: nat, b: nat, c: nat, d: nat)
      requires Valid() && a < 9 && b < 9 && c < 9 && d < 9
      modifies modBy9
      ensures modBy9[..] == Bump(Bump(Bump(Bump(old(modBy9[..]), a), b), c), d)
    {
      modBy9[a] := modBy9[a] + 1;
      modBy9[b] := modBy9[b] + 1;
      modBy9[c] := modBy9[c] + 1;
      modBy9[d] := modBy9[d] + 1;
    }

    /** `round`: one trial; the coin picks the table and `x` is the index counted there. */
    method Round(t: Trial) returns (x: nat)
      requires Valid() && ValidTrial(t)
      modifies threeDigitNumber, modBy9, dividedBy9Count, coinHeadCalc, coinTailCalc
      ensures x == CoinIndex(t)
      ensures t.heads ==> x < coinHeadCalc.Length
      ensures !t.heads ==> x < coinTailCalc.Length
      ensures View() == RoundResult(old(View()), t)
    {
      x := DividedBy9Count(t);
      if t.heads {
        x := x * x;
        assert x == CoinIndex(t);
        coinHeadCalc[x] := coinHeadCalc[x] + 1;
      } else {
        x := x + 1;
        coinTailCalc[x] := coinTailCalc[x] + 1;
      }
    }
  }

  /**
   * One batch of a worker thread: a zeroed `Collector`, one `round` per trial, then `into_vec`.
   * The batch counts exactly `|trials|` trials.
   */
  method RunBatch(trials: seq<Trial>) returns (batch: Counters.Collector)
    requires ValidTrials(trials)
    ensures batch == Rounds(ZeroCollector(), trials)
    ensures WellShaped(batch) && Sum(batch.dividedBy9Count) == |trials|
  {
    var collector := new Collector();
    for i := 0 to |trials|
      invariant collector.Valid()
      invariant fresh(collector.threeDigitNumber) && fresh(collector.modBy9) && fresh(collector.dividedBy9Count)
      invariant fresh(collector.coinHeadCalc) && fresh(collector.coinTailCalc)
      invariant collector.View() == Rounds(ZeroCollector(), trials[..i])
    {
      var done := trials[..i];
      assert trials[..i + 1][..i] == done;
      assert ValidTrials(done) && ValidTrial(trials[i]);
      ghost var before := Rounds(ZeroCollector(), done);
      var _ := collector.Round(trials[i]);
      assert collector.View() == RoundResult(before, trials[i]);
    }
    assert trials[..|trials|] == trials;
    batch := collector.IntoVec();
    BatchCountsTrials(trials);
  }
}
