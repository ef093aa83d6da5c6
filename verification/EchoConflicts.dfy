/** Which commits a forward scan fails, and whether they conflict with the scanning one. */
module EchoConflicts {
  import opened CommitState
  import opened EchoProtocol
  import opened EchoInvariant
  import opened EchoTheorems
  import opened EchoVersions

  /** The snapshot ranges have a number in common. */
  ghost predicate Overlap(c: Record, d: Record) {
    exists x: nat :: InRange(c, x) && InRange(d, x)
  }

  /** The owner of `r` is to look at the entry of `m` behind its own. */
  ghost predicate ScansOnto(s: Store, r: nat, m: nat) {
    && r < |s.log| && (s.log[r].pc.Fwd? || s.log[r].pc.FwdLocked?) && s.log[r].pc.i < |s.log[r].pairs|
    && var k := ScanKey(s.log[r]);
       k in s.vts && s.log[r].pc.j < |s.vts[k]| && s.vts[k][s.log[r].pc.j].rec == m
  }

  lemma OverlapOrdered(c: Record, d: Record)
    requires c.begin < c.end < d.end && d.begin < d.end
    ensures Overlap(c, d) <==> d.begin < c.end
  {
    if d.begin < c.end { assert InRange(c, c.end) && InRange(d, c.end); }
  }

  /** An entry behind the new one need not conflict with it: the ranges overlap if and
      only if its record begins before the scanning one ends. Either way it is failed. */
  lemma ScanMeetsConflict(tr: seq<Store>, n: nat, r: nat, m: nat)
    requires Run(tr) && n < |tr| && !tr[n].halted && ScansOnto(tr[n], r, m)
    ensures r < m < |tr[n].log| && tr[n].log[r].end < tr[n].log[m].end
    ensures Overlap(tr[n].log[r], tr[n].log[m]) <==> tr[n].log[m].begin < tr[n].log[r].end
    ensures Wf(tr[n]) && (Enabled(tr[n], r) && tr[n].log[r].pc.FwdLocked? && !Step(tr[n], r).halted ==>
              Dead(Step(tr[n], r).log[m].state))
  {
    var s := tr[n];
    RunIsGood(tr, n);
    ScanFacts(s, r);
    assert s.log[r].pc.j > s.log[r].pc.idx;
    OverlapOrdered(s.log[r], s.log[m]);
  }

  /** The comment's reason is right where it applies: if the record began at a snapshot
      that was settled before it was appended, only an aborted merger meets it without
      a conflict. */
  lemma SettledBeginsConflict(tr: seq<Store>, a: nat, n: nat, r: nat, m: nat)
    requires Run(tr) && a <= n < |tr| && !tr[n].halted && ScansOnto(tr[n], r, m)
    requires m >= |tr[a].log| && m < |tr[n].log| && SettledUpTo(tr[a], tr[n].log[m].begin)
    ensures Overlap(tr[n].log[r], tr[n].log[m]) || tr[n].log[r].state == ABORTED
  {
    var s := tr[n];
    RunIsGood(tr, n);
    ScanMeetsConflict(tr, n, r, m);
    if s.log[r].end <= s.log[m].begin {
      if r >= |tr[a].log| { LaterEndsLater(tr, a, n, r); }
      RunKeeps(tr, a, n, r, "");
      assert RecordOk(s, r);
    }
  }
}
