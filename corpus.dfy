/** The experience corpus (`Corpus` of fk_dqn.py and of q-learn/features4.py):
    the transitions a network has collected, and the loss and weight sum
    reported by each of its training updates.  A transition is identified,
    for de-duplication, by its (currURLId, nextURLId) pair, which `key`
    extracts. */
module Replay {

  /** No two transitions of `ts` share a key. */
  ghost predicate UniqueKeys<T>(key: T -> (int, int), ts: seq<T>)
  {
    forall i, j :: 0 <= i < j < |ts| ==> key(ts[i]) != key(ts[j])
  }

  /** Some transition of `ts` has key `k`. */
  predicate HasKey<T>(key: T -> (int, int), ts: seq<T>, k: (int, int))
  {
    exists i :: 0 <= i < |ts| && key(ts[i]) == k
  }

  /** The corpus after `AddTransition(t)`: with de-duplication on, a transition
      whose key is already present is dropped; otherwise it is appended. */
  function Added<T>(key: T -> (int, int), ts: seq<T>, t: T, deleteDuplicates: bool): (r: seq<T>)
    ensures HasKey(key, r, key(t))
    ensures deleteDuplicates && HasKey(key, ts, key(t)) ==> r == ts
    ensures !(deleteDuplicates && HasKey(key, ts, key(t))) ==> r == ts + [t]
    ensures deleteDuplicates && UniqueKeys(key, ts) ==> UniqueKeys(key, r)
  {
    if deleteDuplicates && HasKey(key, ts, key(t)) then ts
    else
      var r := ts + [t];
      assert key(r[|ts|]) == key(t);
      r
  }

  /** The corpus after `AddPath(path)`: `AddTransition` of each element, in order. */
  function AddedAll<T>(key: T -> (int, int), ts: seq<T>, path: seq<T>, deleteDuplicates: bool): seq<T>
    decreases |path|
  {
    if path == [] then ts
    else Added(key, AddedAll(key, ts, path[..|path| - 1], deleteDuplicates), path[|path| - 1], deleteDuplicates)
  }

  /** `AddPath` only ever appends, never loses a transition, keeps keys unique
      under de-duplication, and leaves every key of the path present. */
  lemma {:induction false} AddedAllProperties<T>(key: T -> (int, int), ts: seq<T>, path: seq<T>, deleteDuplicates: bool)
    ensures var r := AddedAll(key, ts, path, deleteDuplicates);
            && |ts| <= |r| <= |ts| + |path|
            && r[..|ts|] == ts
            && (deleteDuplicates && UniqueKeys(key, ts) ==> UniqueKeys(key, r))
            && (forall i :: 0 <= i < |path| ==> HasKey(key, r, key(path[i])))
            && (!deleteDuplicates ==> r == ts + path)
    decreases |path|
  {
    if path != [] {
      var front, last := path[..|path| - 1], path[|path| - 1];
      AddedAllProperties(key, ts, front, deleteDuplicates);
      var mid := AddedAll(key, ts, front, deleteDuplicates);
      var r := Added(key, mid, last, deleteDuplicates);
      assert r[..|mid|] == mid;
      assert r[..|ts|] == mid[..|ts|];
      forall i | 0 <= i < |path| ensures HasKey(key, r, key(path[i])) {
        if i < |path| - 1 {
          assert path[i] == front[i];
          var j :| 0 <= j < |mid| && key(mid[j]) == key(front[i]);
          assert r[j] == mid[j];
        }
      }
      if !deleteDuplicates {
        assert path == front + [last];
      }
    }
  }

  /** The elements of `path` whose coin equals `mine`: the transitions a
      coin routed to one of two corpora. */
  ghost function Mine<T>(path: seq<T>, coins: seq<bool>, mine: bool): seq<T>
    requires |coins| == |path|
    decreases |path|
  {
    if path == [] then []
    else
      Mine(path[..|path| - 1], coins[..|coins| - 1], mine) +
        (if coins[|coins| - 1] == mine then [path[|path| - 1]] else [])
  }

  /** Offering one more transition to the corpus its coin picks. */
  lemma MineStep<T>(key: T -> (int, int), ts: seq<T>, path: seq<T>, coins: seq<bool>,
                    t: T, coin: bool, mine: bool, deleteDuplicates: bool)
    requires |coins| == |path|
    ensures var before := AddedAll(key, ts, Mine(path, coins, mine), deleteDuplicates);
            AddedAll(key, ts, Mine(path + [t], coins + [coin], mine), deleteDuplicates) ==
              if coin == mine then Added(key, before, t, deleteDuplicates) else before
  {
    assert (path + [t])[..|path|] == path && (coins + [coin])[..|coins|] == coins;
    var r := Mine(path, coins, mine);
    if coin == mine {
      assert (r + [t])[..|r|] == r;
    } else {
      assert r + [] == r;
    }
  }

  /** Each of two corpora holds what it held before, `ts0` and `ts1`, plus,
      in order, the transitions of `path` whose coin picked it: `true` for
      `corpus0`, `false` for `corpus1`. */
  ghost predicate Offered<T>(corpus0: Corpus<T>, corpus1: Corpus<T>, ts0: seq<T>, ts1: seq<T>, path: seq<T>,
                             coins: seq<bool>, deleteDuplicates: bool)
    reads corpus0, corpus1
    requires |coins| == |path|
  {
    && corpus0.transitions == AddedAll(corpus0.key, ts0, Mine(path, coins, true), deleteDuplicates)
    && corpus1.transitions == AddedAll(corpus1.key, ts1, Mine(path, coins, false), deleteDuplicates)
  }

  /** Routing by a coin sends every element of `path` to exactly one of the
      two sides, in the order of `path`. */
  lemma {:induction false} MinePartition<T>(path: seq<T>, coins: seq<bool>)
    requires |coins| == |path|
    ensures multiset(Mine(path, coins, true)) + multiset(Mine(path, coins, false)) == multiset(path)
    ensures |Mine(path, coins, true)| + |Mine(path, coins, false)| == |path|
    decreases |path|
  {
    if path != [] {
      var front, last := path[..|path| - 1], path[|path| - 1];
      var cs, coin := coins[..|coins| - 1], coins[|coins| - 1];
      MinePartition(front, cs);
      var mt, mf := Mine(front, cs, true), Mine(front, cs, false);
      assert multiset(path) == multiset(front) + multiset{last} by {
        assert path == front + [last];
      }
      if coin {
        assert Mine(path, coins, true) == mt + [last] && Mine(path, coins, false) == mf + [];
      } else {
        assert Mine(path, coins, true) == mt + [] && Mine(path, coins, false) == mf + [last];
      }
    }
  }

  /** `Corpus`: the replay buffer of one network. */
  class Corpus<T> {
    /** The (currURLId, nextURLId) pair of a transition. */
    const key: T -> (int, int)
    var transitions: seq<T>
    var losses: seq<real>
    var sumWeights: seq<real>

    constructor (key: T -> (int, int))
      ensures this.key == key && transitions == [] && losses == [] && sumWeights == []
    {
      this.key := key;
      transitions := [];
      losses := [];
      sumWeights := [];
    }

    /** `AddTransition`: the loop over the stored transitions looking for the
        same (currURLId, nextURLId) pair, then the append. */
    method AddTransition(t: T, deleteDuplicates: bool)
      modifies this
      ensures transitions == Added(key, old(transitions), t, deleteDuplicates)
      ensures losses == old(losses) && sumWeights == old(sumWeights)
    {
      if deleteDuplicates {
        var i := 0;
        while i < |transitions|
          invariant 0 <= i <= |transitions|
          invariant forall j :: 0 <= j < i ==> key(transitions[j]) != key(t)
        {
          if key(transitions[i]) == key(t) {
            return;
          }
          i := i + 1;
        }
      }
      transitions := transitions + [t];
    }

    /** `AddPath` (features4.py): add each transition of the path in order. */
    method AddPath(path: seq<T>, deleteDuplicates: bool)
      modifies this
      ensures transitions == AddedAll(key, old(transitions), path, deleteDuplicates)
      ensures losses == old(losses) && sumWeights == old(sumWeights)
    {
      var i := 0;
      while i < |path|
        invariant 0 <= i <= |path|
        invariant transitions == AddedAll(key, old(transitions), path[..i], deleteDuplicates)
        invariant losses == old(losses) && sumWeights == old(sumWeights)
      {
        AddTransition(path[i], deleteDuplicates);
        assert path[..i + 1][..i] == path[..i];
        i := i + 1;
      }
      assert path[..i] == path;
    }

    /** `GetBatch` (features4.py): the first `maxBatchSize` transitions (all of
        them if there are fewer), removed from the corpus. */
    method GetBatch(maxBatchSize: nat) returns (batch: seq<T>)
      modifies this
      ensures |batch| == if maxBatchSize < |old(transitions)| then maxBatchSize else |old(transitions)|
      ensures batch + transitions == old(transitions)
      ensures losses == old(losses) && sumWeights == old(sumWeights)
    {
      var n := if maxBatchSize < |transitions| then maxBatchSize else |transitions|;
      batch := transitions[..n];
      transitions := transitions[n..];
      assert batch + transitions == old(transitions);
    }

    /** `GetBatchWithoutDelete`: `maxBatchSize` draws, with replacement, of a
        uniformly random stored transition (the draws are left open here). */
    method GetBatchWithoutDelete(maxBatchSize: nat) returns (batch: seq<T>)
      requires maxBatchSize > 0 ==> |transitions| > 0
      ensures |batch| == maxBatchSize
      ensures forall t :: t in batch ==> t in transitions
    {
      batch := [];
      var size := |transitions|;
      for i := 0 to maxBatchSize
        invariant |batch| == i
        invariant forall t :: t in batch ==> t in transitions
      {
        var idx :| 0 <= idx < size;
        batch := batch + [transitions[idx]];
      }
    }

    /** `Train`: below `minCorpusSize` transitions nothing happens; otherwise
        `trainNumIter` updates each record one loss and one weight sum (the
        values come from the network and are left open), then the corpus is
        emptied. */
    method Train(minCorpusSize: nat, trainNumIter: nat, maxBatchSize: nat)
      requires |transitions| >= minCorpusSize && trainNumIter > 0 && maxBatchSize > 0 ==> |transitions| > 0
      modifies this
      ensures |old(transitions)| < minCorpusSize ==>
                transitions == old(transitions) && losses == old(losses) && sumWeights == old(sumWeights)
      ensures |old(transitions)| >= minCorpusSize ==>
                && transitions == []
                && |losses| == |old(losses)| + trainNumIter && losses[..|old(losses)|] == old(losses)
                && |sumWeights| == |old(sumWeights)| + trainNumIter && sumWeights[..|old(sumWeights)|] == old(sumWeights)
    {
      if |transitions| >= minCorpusSize {
        for i := 0 to trainNumIter
          invariant transitions == old(transitions)
          invariant |losses| == |old(losses)| + i && losses[..|old(losses)|] == old(losses)
          invariant |sumWeights| == |old(sumWeights)| + i && sumWeights[..|old(sumWeights)|] == old(sumWeights)
        {
          var batch := GetBatchWithoutDelete(maxBatchSize);
          var loss: real, sumWeight: real :| true;
          losses := losses + [loss];
          sumWeights := sumWeights + [sumWeight];
        }
        transitions := [];
      }
    }
  }
}
