/**
 * The whole experiment: workers run batches of rounds from zero (src/compute.rs) and the
 * server's handler forwards every uploaded batch to `DataBase::add` (src/server.rs). The store's
 * grand total is then the number of trials run.
 */
module Experiment {
  import opened Counters
  import Database
  import Compute

  predicate AllCover(batches: seq<Counters.Collector>) {
    forall i :: 0 <= i < |batches| ==> Covers(batches[i])
  }

  /** The tables after the batches are merged one after the other. */
  function MergeAll(acc: Counters.Collector, batches: seq<Counters.Collector>): (r: Counters.Collector)
    requires Covers(acc) && AllCover(batches)
    ensures Covers(r)
  {
    if batches == [] then acc
    else Database.Merge(MergeAll(acc, batches[..|batches| - 1]), batches[|batches| - 1])
  }

  predicate AllValid(runs: seq<seq<Compute.Trial>>) {
    forall i :: 0 <= i < |runs| ==> Compute.ValidTrials(runs[i])
  }

  /** The batch each worker run uploads. */
  function Batches(runs: seq<seq<Compute.Trial>>): (batches: seq<Counters.Collector>)
    requires AllValid(runs)
    ensures |batches| == |runs| && AllCover(batches)
  {
    seq(|runs|, i requires 0 <= i < |runs| => Compute.Rounds(ZeroCollector(), runs[i]))
  }

  function TrialCount(runs: seq<seq<Compute.Trial>>): nat {
    if runs == [] then 0 else TrialCount(runs[..|runs| - 1]) + |runs[|runs| - 1]|
  }

  /** Merging the uploaded batches adds exactly the number of trials run to the grand total. */
  lemma {:induction false} GrandTotalCountsTrials(acc: Counters.Collector, runs: seq<seq<Compute.Trial>>)
    requires Covers(acc) && AllValid(runs)
    ensures Sum(MergeAll(acc, Batches(runs)).dividedBy9Count) == Sum(acc.dividedBy9Count) + TrialCount(runs)
  {
    if runs != [] {
      var init := runs[..|runs| - 1];
      var last := runs[|runs| - 1];
      assert Batches(runs)[..|runs| - 1] == Batches(init);
      GrandTotalCountsTrials(acc, init);
      var batch := Compute.Rounds(ZeroCollector(), last);
      Compute.BatchCountsTrials(last);
      assert batch.dividedBy9Count[..DIVIDED_BY_9_COUNT_LEN] == batch.dividedBy9Count;
      Database.MergeTotal(MergeAll(acc, Batches(init)), batch);
    }
  }

  /** A fresh store that receives the batches of `runs` holds a grand total equal to the trials run. */
  lemma FreshStoreCountsTrials(runs: seq<seq<Compute.Trial>>)
    requires AllValid(runs)
    ensures Sum(MergeAll(ZeroCollector(), Batches(runs)).dividedBy9Count) == TrialCount(runs)
  {
    GrandTotalCountsTrials(ZeroCollector(), runs);
  }
}
