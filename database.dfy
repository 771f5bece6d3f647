/**
 * The aggregation store of src/database.rs: the snapshot codec (`CollectorStore`), the
 * element-wise merge done by `DataBase::add`, and the `DataBase` object itself.
 */
module Database {
  import opened Wrappers
  import Decimal
  import opened Counters

  /** The snapshot record: every counter written as a decimal string. */
  datatype CollectorStore = CollectorStore(
    threeDigitNumber: seq<string>,
    modBy9: seq<string>,
    dividedBy9Count: seq<string>,
    coinHeadCalc: seq<string>,
    coinTailCalc: seq<string>)
  {
    /** The five tables, in declaration order. */
    function Columns(): seq<seq<string>> {
      [threeDigitNumber, modBy9, dividedBy9Count, coinHeadCalc, coinTailCalc]
    }
  }

  /** `texts` holds, cell for cell, the canonical decimal numerals of `t`. */
  predicate Encodes(texts: seq<string>, t: seq<nat>) {
    |texts| == |t| &&
    forall i :: 0 <= i < |t| ==> Decimal.IsCanonical(texts[i]) && Decimal.DigitsValue(texts[i]) == t[i]
  }

  /** Every string of `texts` parses as a `u128`. */
  predicate Parses(texts: seq<string>) {
    forall i :: 0 <= i < |texts| ==> Decimal.ParseU128(texts[i]).Some?
  }

  /** `t` holds, cell for cell, what `u128::from_str` reads from `texts`. */
  predicate Decodes(texts: seq<string>, t: seq<nat>) {
    |texts| == |t| && forall i :: 0 <= i < |t| ==> Decimal.ParseU128(texts[i]) == Some(t[i])
  }

  function FormatTable(t: seq<nat>): (texts: seq<string>)
    ensures Encodes(texts, t)
  {
    seq(|t|, i requires 0 <= i < |t| => Decimal.NatToDecimal(t[i]))
  }

  /** `CollectorStore::from_collector`: `format!("{}", num)` on every counter. */
  function FromCollector(c: Collector): (s: CollectorStore)
    ensures Encodes(s.threeDigitNumber, c.threeDigitNumber)
    ensures Encodes(s.modBy9, c.modBy9)
    ensures Encodes(s.dividedBy9Count, c.dividedBy9Count)
    ensures Encodes(s.coinHeadCalc, c.coinHeadCalc)
    ensures Encodes(s.coinTailCalc, c.coinTailCalc)
  {
    CollectorStore(
      FormatTable(c.threeDigitNumber),
      FormatTable(c.modBy9),
      FormatTable(c.dividedBy9Count),
      FormatTable(c.coinHeadCalc),
      FormatTable(c.coinTailCalc))
  }

  /** `into_iter().map(|str| str.parse().unwrap()).collect()` on one table; `None` is the panic. */
  function ParseTable(texts: seq<string>): (r: Option<seq<nat>>)
    ensures r.Some? <==> Parses(texts)
    ensures r.Some? ==> Decodes(texts, r.value)
  {
    if texts == [] then
      Some([])
    else
      var head := Decimal.ParseU128(texts[0]);
      var tail := ParseTable(texts[1..]);
      assert Parses(texts) <==> head.Some? && Parses(texts[1..]) by {
        if head.Some? && Parses(texts[1..]) {
          forall i | 0 <= i < |texts| ensures Decimal.ParseU128(texts[i]).Some? {
            if i > 0 { assert texts[i] == texts[1..][i - 1]; }
          }
        }
      }
      if head.Some? && tail.Some? then
        var t := [head.value] + tail.value;
        assert forall i :: 0 < i < |t| ==> texts[i] == texts[1..][i - 1] && t[i] == tail.value[i - 1];
        Some(t)
      else
        None
  }

  /**
   * `CollectorStore::into_collector`: parses every string and panics (`None`) on the first one
   * that is not a `u128` numeral. Table lengths are not checked.
   */
  function IntoCollector(s: CollectorStore): (r: Option<Collector>)
    ensures r.Some? <==> && Parses(s.threeDigitNumber) && Parses(s.modBy9) && Parses(s.dividedBy9Count)
                         && Parses(s.coinHeadCalc) && Parses(s.coinTailCalc)
    ensures r.Some? ==> && Decodes(s.threeDigitNumber, r.value.threeDigitNumber)
                        && Decodes(s.modBy9, r.value.modBy9)
                        && Decodes(s.dividedBy9Count, r.value.dividedBy9Count)
                        && Decodes(s.coinHeadCalc, r.value.coinHeadCalc)
                        && Decodes(s.coinTailCalc, r.value.coinTailCalc)
  {
    var threeDigitNumber := ParseTable(s.threeDigitNumber);
    var modBy9 := ParseTable(s.modBy9);
    var dividedBy9Count := ParseTable(s.dividedBy9Count);
    var coinHeadCalc := ParseTable(s.coinHeadCalc);
    var coinTailCalc := ParseTable(s.coinTailCalc);
    if threeDigitNumber.Some? && modBy9.Some? && dividedBy9Count.Some? && coinHeadCalc.Some? && coinTailCalc.Some? then
      Some(Collector(threeDigitNumber.value, modBy9.value, dividedBy9Count.value,
                     coinHeadCalc.value, coinTailCalc.value))
    else
      None
  }

  /** What a table decodes to is a table of `u128` values. */
  lemma DecodedFits(texts: seq<string>, t: seq<nat>)
    requires Decodes(texts, t)
    ensures TableFits(t)
  {
    forall i | 0 <= i < |t| ensures t[i] < Decimal.U128_LIMIT {
      assert Decimal.ParseU128(texts[i]) == Some(t[i]);
    }
  }

  lemma TableRoundTrip(t: seq<nat>)
    requires TableFits(t)
    ensures ParseTable(FormatTable(t)) == Some(t)
  {
    var texts := FormatTable(t);
    forall i | 0 <= i < |t| ensures Decimal.ParseU128(texts[i]) == Some(t[i]) {
      Decimal.ParseFormatted(t[i]);
    }
    var r := ParseTable(texts);
    assert r.value == t;
  }

  /** Decoding an encoded snapshot gives back every counter, also those above 2^64. */
  lemma IntoFromCollector(c: Collector)
    requires FitsU128(c)
    ensures IntoCollector(FromCollector(c)) == Some(c)
  {
    TableRoundTrip(c.threeDigitNumber);
    TableRoundTrip(c.modBy9);
    TableRoundTrip(c.dividedBy9Count);
    TableRoundTrip(c.coinHeadCalc);
    TableRoundTrip(c.coinTailCalc);
  }

  /** A single string that is not a `u128` numeral, in any table, makes decoding fail. */
  lemma IntoCollectorRejects(s: CollectorStore, k: nat, i: nat)
    requires k < 5 && i < |s.Columns()[k]|
    requires !Decimal.IsNumeral(s.Columns()[k][i]) || Decimal.NumeralValue(s.Columns()[k][i]) >= Decimal.U128_LIMIT
    ensures IntoCollector(s) == None
  {
    var text := s.Columns()[k][i];
    assert Decimal.ParseU128(text).None?;
    if k == 0 { assert !Parses(s.threeDigitNumber); }
    else if k == 1 { assert !Parses(s.modBy9); }
    else if k == 2 { assert !Parses(s.dividedBy9Count); }
    else if k == 3 { assert !Parses(s.coinHeadCalc); }
    else { assert !Parses(s.coinTailCalc); }
  }

  /** The first `n` cells of `s` with `b`'s added; the cells from `n` on are kept. */
  function MergeTable(s: seq<nat>, b: seq<nat>, n: nat): (r: seq<nat>)
    requires n <= |s| && n <= |b|
    ensures |r| == |s|
    ensures forall i :: 0 <= i < n ==> r[i] == s[i] + b[i]
    ensures r[n..] == s[n..]
  {
    seq(|s|, i requires 0 <= i < |s| => if i < n then s[i] + b[i] else s[i])
  }

  /** The tables `DataBase::add` leaves behind: each fixed-length prefix added cell by cell. */
  function Merge(acc: Collector, batch: Collector): (r: Collector)
    requires Covers(acc) && Covers(batch)
    ensures Covers(r)
  {
    Collector(
      MergeTable(acc.threeDigitNumber, batch.threeDigitNumber, THREE_DIGIT_NUMBER_LEN),
      MergeTable(acc.modBy9, batch.modBy9, MOD_BY_9_LEN),
      MergeTable(acc.dividedBy9Count, batch.dividedBy9Count, DIVIDED_BY_9_COUNT_LEN),
      MergeTable(acc.coinHeadCalc, batch.coinHeadCalc, COIN_HEAD_CALC_LEN),
      MergeTable(acc.coinTailCalc, batch.coinTailCalc, COIN_TAIL_CALC_LEN))
  }

  lemma MergeTableCommutes(s: seq<nat>, b1: seq<nat>, b2: seq<nat>, n: nat)
    requires n <= |s| && n <= |b1| && n <= |b2|
    ensures MergeTable(MergeTable(s, b1, n), b2, n) == MergeTable(MergeTable(s, b2, n), b1, n)
  {
    var l := MergeTable(MergeTable(s, b1, n), b2, n);
    var r := MergeTable(MergeTable(s, b2, n), b1, n);
    forall i | 0 <= i < |s| ensures l[i] == r[i] {
    }
  }

  /** Two batches merged in either order leave the same tables. */
  lemma MergeCommutes(c: Collector, b1: Collector, b2: Collector)
    requires Covers(c) && Covers(b1) && Covers(b2)
    ensures Merge(Merge(c, b1), b2) == Merge(Merge(c, b2), b1)
  {
    MergeTableCommutes(c.threeDigitNumber, b1.threeDigitNumber, b2.threeDigitNumber, THREE_DIGIT_NUMBER_LEN);
    MergeTableCommutes(c.modBy9, b1.modBy9, b2.modBy9, MOD_BY_9_LEN);
    MergeTableCommutes(c.dividedBy9Count, b1.dividedBy9Count, b2.dividedBy9Count, DIVIDED_BY_9_COUNT_LEN);
    MergeTableCommutes(c.coinHeadCalc, b1.coinHeadCalc, b2.coinHeadCalc, COIN_HEAD_CALC_LEN);
    MergeTableCommutes(c.coinTailCalc, b1.coinTailCalc, b2.coinTailCalc, COIN_TAIL_CALC_LEN);
  }

  /** Merging adds the batch's fixed-length prefix to the table's sum. */
  lemma {:induction false} MergeTableSum(s: seq<nat>, b: seq<nat>, n: nat)
    requires n <= |s| && n <= |b|
    ensures Sum(MergeTable(s, b, n)) == Sum(s) + Sum(b[..n])
  {
    if n == 0 {
      assert MergeTable(s, b, 0) == s;
    } else {
      var m := n - 1;
      var prev := MergeTable(s, b, m);
      MergeTableSum(s, b, m);
      assert MergeTable(s, b, n) == prev[m := prev[m] + b[m]];
      SumUpdate(prev, m, prev[m] + b[m]);
      SumPrefix(b, m);
    }
  }

  /** The trial-count table of a merge sums to the old sum plus the batch's. */
  lemma MergeTotal(acc: Collector, batch: Collector)
    requires Covers(acc) && Covers(batch)
    ensures Sum(Merge(acc, batch).dividedBy9Count)
            == Sum(acc.dividedBy9Count) + Sum(batch.dividedBy9Count[..DIVIDED_BY_9_COUNT_LEN])
  {
    MergeTableSum(acc.dividedBy9Count, batch.dividedBy9Count, DIVIDED_BY_9_COUNT_LEN);
  }

  /**
   * The tables `DataBase::new` starts from: all zeros of the fixed shape when no snapshot file
   * exists, else the decoded snapshot. `None` is a panic at startup: a snapshot that does not
   * decode, or a trial count that overflows the `u128` total.
   */
  function Startup(existing: Option<CollectorStore>): (r: Option<Collector>)
    ensures existing.None? ==> r == Some(ZeroCollector())
    ensures existing.Some? ==>
      (r.Some? <==> IntoCollector(existing.value).Some?
                    && Sum(IntoCollector(existing.value).value.dividedBy9Count) < Decimal.U128_LIMIT)
    ensures existing.Some? && r.Some? ==> r == IntoCollector(existing.value)
    ensures r.Some? ==> FitsU128(r.value) && Sum(r.value.dividedBy9Count) < Decimal.U128_LIMIT
  {
    match existing
    case None => Some(ZeroCollector())
    case Some(store) =>
      var decoded := IntoCollector(store);
      if decoded.None? then None
      else
        var c := decoded.value;
        DecodedFits(store.threeDigitNumber, c.threeDigitNumber);
        DecodedFits(store.modBy9, c.modBy9);
        DecodedFits(store.dividedBy9Count, c.dividedBy9Count);
        DecodedFits(store.coinHeadCalc, c.coinHeadCalc);
        DecodedFits(store.coinTailCalc, c.coinTailCalc);
        if Sum(c.dividedBy9Count) < Decimal.U128_LIMIT then Some(c) else None
  }

  /** Restarting from a saved snapshot recovers exactly the tables that were saved. */
  lemma RestartRecovers(c: Collector)
    requires FitsU128(c) && Sum(c.dividedBy9Count) < Decimal.U128_LIMIT
    ensures Startup(Some(FromCollector(c))) == Some(c)
  {
    IntoFromCollector(c);
  }

  /** `table[..]` of each array is the table of the same name. */
  class DataBase {
    const filePath: string
    /** The content of the snapshot file at `filePath`; `None` while no file exists. */
    var file: Option<CollectorStore>
    var threeDigitNumber: array<nat>
    var modBy9: array<nat>
    var dividedBy9Count: array<nat>
    var coinHeadCalc: array<nat>
    var coinTailCalc: array<nat>
    var total: nat

    /** The five tables are distinct buffers, every counter is a `u128`, and `total` is the trial count. */
    ghost predicate Valid()
      reads this, threeDigitNumber, modBy9, dividedBy9Count, coinHeadCalc, coinTailCalc
    {
      && threeDigitNumber != modBy9 && threeDigitNumber != dividedBy9Count
      && threeDigitNumber != coinHeadCalc && threeDigitNumber != coinTailCalc
      && modBy9 != dividedBy9Count && modBy9 != coinHeadCalc && modBy9 != coinTailCalc
      && dividedBy9Count != coinHeadCalc && dividedBy9Count != coinTailCalc
      && coinHeadCalc != coinTailCalc
      && FitsU128(Tables())
      && total == Sum(dividedBy9Count[..])
      && total < Decimal.U128_LIMIT
    }

    function Tables(): Collector
      reads this, threeDigitNumber, modBy9, dividedBy9Count, coinHeadCalc, coinTailCalc
    {
      Collector(threeDigitNumber[..], modBy9[..], dividedBy9Count[..], coinHeadCalc[..], coinTailCalc[..])
    }

    constructor (filePath: string, file: Option<CollectorStore>, initial: Collector, total: nat)
      requires FitsU128(initial) && total == Sum(initial.dividedBy9Count) && total < Decimal.U128_LIMIT
      ensures Valid() && Tables() == initial && this.total == total
      ensures this.filePath == filePath && this.file == file
      ensures fresh(threeDigitNumber) && fresh(modBy9) && fresh(dividedBy9Count)
      ensures fresh(coinHeadCalc) && fresh(coinTailCalc)
    {
      this.filePath := filePath;
      this.file := file;
      this.threeDigitNumber := new nat[|initial.threeDigitNumber|](i requires 0 <= i < |initial.threeDigitNumber| => initial.threeDigitNumber[i]);
      this.modBy9 := new nat[|initial.modBy9|](i requires 0 <= i < |initial.modBy9| => initial.modBy9[i]);
      this.dividedBy9Count := new nat[|initial.dividedBy9Count|](i requires 0 <= i < |initial.dividedBy9Count| => initial.dividedBy9Count[i]);
      this.coinHeadCalc := new nat[|initial.coinHeadCalc|](i requires 0 <= i < |initial.coinHeadCalc| => initial.coinHeadCalc[i]);
      this.coinTailCalc := new nat[|initial.coinTailCalc|](i requires 0 <= i < |initial.coinTailCalc| => initial.coinTailCalc[i]);
      this.total := total;
      new;
      assert threeDigitNumber[..] == initial.threeDigitNumber;
      assert modBy9[..] == initial.modBy9;
      assert dividedBy9Count[..] == initial.dividedBy9Count;
      assert coinHeadCalc[..] == initial.coinHeadCalc;
      assert coinTailCalc[..] == initial.coinTailCalc;
    }

    /**
     * `DataBase::new`. `existing` is the content of the file at `filePath` (`None`: the path
     * does not exist). The result is `None` where the source panics.
     */
    static method Open(filePath: string, existing: Option<CollectorStore>) returns (db: Option<DataBase>)
      ensures db.None? <==> Startup(existing).None?
      ensures db.Some? ==> && fresh(db.value) && db.value.Valid()
                           && fresh(db.value.threeDigitNumber) && fresh(db.value.modBy9)
                           && fresh(db.value.dividedBy9Count)
                           && fresh(db.value.coinHeadCalc) && fresh(db.value.coinTailCalc)
                           && db.value.Tables() == Startup(existing).value
                           && db.value.total == Sum(Startup(existing).value.dividedBy9Count)
                           && db.value.filePath == filePath && db.value.file == existing
    {
      var collector: Collector;
      if existing.None? {
        collector := ZeroCollector();
      } else {
        var decoded := IntoCollector(existing.value);
        if decoded.None? {
          return None;
        }
        collector := decoded.value;
      }
      var total := TableSum(collector.dividedBy9Count);
      if total >= Decimal.U128_LIMIT {
        return None;
      }
      var d := new DataBase(filePath, existing, collector, total);
      db := Some(d);
    }

    /** The `for x in &collector.divided_by_9_count { total += x; }` loop of `DataBase::new`. */
    static method TableSum(t: seq<nat>) returns (total: nat)
      ensures total == Sum(t)
    {
      total := 0;
      for i := 0 to |t|
        invariant total == Sum(t[..i])
      {
        SumPrefix(t, i);
        total := total + t[i];
      }
      assert t[..|t|] == t;
    }

    /** `DataBase::save`: the snapshot file is overwritten with the encoding of the current tables. */
    method Save()
      requires Valid()
      modifies this`file
      ensures Valid()
      ensures file == Some(FromCollector(Tables()))
    {
      file := Some(FromCollector(Tables()));
    }

    /**
     * `DataBase::add`: adds the batch into the stored tables cell by cell over each table's fixed
     * length, keeps `total` equal to the sum of the trial-count table, saves, and returns `total`.
     */
    method Add(batch: Collector) returns (r: nat)
      requires Valid()
      requires Covers(Tables()) && Covers(batch)
      requires FitsU128(Merge(Tables(), batch))
      requires total + Sum(batch.dividedBy9Count[..DIVIDED_BY_9_COUNT_LEN]) < Decimal.U128_LIMIT
      modifies this`total, this`file, threeDigitNumber, modBy9, dividedBy9Count, coinHeadCalc, coinTailCalc
      ensures Valid()
      ensures Tables() == Merge(old(Tables()), batch)
      ensures r == total == old(total) + Sum(batch.dividedBy9Count[..DIVIDED_BY_9_COUNT_LEN])
      ensures file == Some(FromCollector(Tables()))
    {
      AddInto(threeDigitNumber, batch.threeDigitNumber, THREE_DIGIT_NUMBER_LEN);
      AddInto(modBy9, batch.modBy9, MOD_BY_9_LEN);
      total := AddIntoCounting(dividedBy9Count, batch.dividedBy9Count, DIVIDED_BY_9_COUNT_LEN, total);
      AddInto(coinHeadCalc, batch.coinHeadCalc, COIN_HEAD_CALC_LEN);
      AddInto(coinTailCalc, batch.coinTailCalc, COIN_TAIL_CALC_LEN);
      r := total;
      Save();
    }
  }

  /**
   * A restart from the snapshot that `save` wrote for `c`, then one `add` of `batch`: the
   * returned total counts the trials of both, and the file written decodes to the merged tables.
   */
  method RestartThenAdd(filePath: string, c: Collector, batch: Collector)
    returns (total: nat, saved: CollectorStore)
    requires FitsU128(c) && Covers(c) && Covers(batch)
    requires FitsU128(Merge(c, batch))
    requires Sum(c.dividedBy9Count) + Sum(batch.dividedBy9Count[..DIVIDED_BY_9_COUNT_LEN]) < Decimal.U128_LIMIT
    ensures total == Sum(c.dividedBy9Count) + Sum(batch.dividedBy9Count[..DIVIDED_BY_9_COUNT_LEN])
    ensures IntoCollector(saved) == Some(Merge(c, batch))
  {
    RestartRecovers(c);
    var db := DataBase.Open(filePath, Some(FromCollector(c)));
    var store := db.value;
    total := store.Add(batch);
    saved := store.file.value;
    IntoFromCollector(store.Tables());
  }

  /** One `for i in 0..n { stored[i] += batch[i]; }` loop of `DataBase::add`. */
  method AddInto(a: array<nat>, b: seq<nat>, n: nat)
    requires n <= a.Length && n <= |b|
    modifies a
    ensures a[..] == MergeTable(old(a[..]), b, n)
  {
    for i := 0 to n
      invariant forall k :: 0 <= k < i ==> a[k] == old(a[k]) + b[k]
      invariant forall k :: i <= k < a.Length ==> a[k] == old(a[k])
    {
      a[i] := a[i] + b[i];
    }
  }

  /**
   * The `divided_by_9_count` loop of `DataBase::add`, which also adds each cell into the running
   * total (`*total += count`).
   */
  method AddIntoCounting(a: array<nat>, b: seq<nat>, n: nat, total: nat) returns (newTotal: nat)
    requires n <= a.Length && n <= |b|
    requires total == Sum(a[..])
    modifies a
    ensures a[..] == MergeTable(old(a[..]), b, n)
    ensures newTotal == total + Sum(b[..n])
    ensures newTotal == Sum(a[..])
  {
    newTotal := total;
    for i := 0 to n
      invariant newTotal == total + Sum(b[..i])
      invariant newTotal == Sum(a[..])
      invariant forall k :: 0 <= k < i ==> a[k] == old(a[k]) + b[k]
      invariant forall k :: i <= k < a.Length ==> a[k] == old(a[k])
    {
      var count := b[i];
      SumPrefix(b, i);
      SumUpdate(a[..], i, a[i] + count);
      a[i] := a[i] + count;
      newTotal := newTotal + count;
    }
  }
}
