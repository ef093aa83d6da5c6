/** Building concrete runs of Echo's commit protocol, step by step. */
module EchoRuns {
  import opened EchoProtocol

  /** The run `tr` goes on to `s'`. */
  lemma Extend(tr: seq<Store>, s': Store)
    requires Run(tr) && Next(tr[|tr| - 1], s')
    ensures Run(tr + [s'])
  {
    var tr' := tr + [s'];
    forall i | 0 <= i < |tr'| - 1 ensures NextAt(tr', i) {
      assert tr'[i] == tr[i];
      if i < |tr| - 1 { assert NextAt(tr, i) && tr'[i + 1] == tr[i + 1]; }
    }
  }

  /** A run that ends in `s`. */
  ghost predicate RunTo(tr: seq<Store>, s: Store) {
    Run(tr) && tr[|tr| - 1] == s
  }

  lemma Go(tr: seq<Store>, s: Store, r: nat, s': Store) returns (tr': seq<Store>)
    requires RunTo(tr, s) && Wf(s) && Enabled(s, r) && s' == Step(s, r)
    ensures tr' == tr + [s'] && RunTo(tr', s')
  {
    assert Next(s, s');
    Extend(tr, s');
    tr' := tr + [s'];
  }

  lemma GoAppend(tr: seq<Store>, s: Store, begin: nat, pairs: seq<Pair>, s': Store) returns (tr': seq<Store>)
    requires RunTo(tr, s) && !s.halted && begin < s.global && s' == Append(s, begin, pairs)
    ensures tr' == tr + [s'] && RunTo(tr', s')
  {
    Extend(tr, s');
    tr' := tr + [s'];
  }
}
