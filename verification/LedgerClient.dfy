/**
 The scheduler's only handle on the ledger. A query may fail or return the rows in any order; an
 exercise may be refused, may commit, or may commit while its reply is lost. `log` records every
 exercise that was sent.
 */
module LedgerClients {
  import opened Options
  import opened Ledger

  datatype Row<+T> = Row(cid: Cid, payload: T)
  datatype Result<+T> = Ok(value: T) | Thrown

  datatype ErrorContext = OnSwap(swap: Cid) | OnBin(csa: Cid, time: Instant) | OnCsa(csa: Cid)
  datatype TickResult = TickResult(fired: nat, skipped: nat, errors: seq<ErrorContext>)

  /** `rows` lists the contracts of `m`, each exactly once. */
  ghost predicate Lists<T>(rows: seq<Row<T>>, m: map<Cid, T>) {
    && (forall i :: 0 <= i < |rows| ==> rows[i].cid in m && m[rows[i].cid] == rows[i].payload)
    && (forall i, j :: 0 <= i < j < |rows| ==> rows[i].cid != rows[j].cid)
    && (forall c :: c in m ==> exists i :: 0 <= i < |rows| && rows[i].cid == c)
  }

  ghost predicate DistinctCids<T>(rows: seq<Row<T>>) {
    forall i, j :: 0 <= i < j < |rows| ==> rows[i].cid != rows[j].cid
  }

  lemma ListsMembers<T>(rows: seq<Row<T>>, m: map<Cid, T>)
    requires Lists(rows, m)
    ensures DistinctCids(rows)
    ensures forall r :: r in rows <==> r.cid in m && m[r.cid] == r.payload
  {
    forall r: Row<T> | r.cid in m && m[r.cid] == r.payload
      ensures r in rows
    {
      var i :| 0 <= i < |rows| && rows[i].cid == r.cid;
      assert rows[i] == r;
    }
  }

  lemma ListsCount<T>(rows: seq<Row<T>>, m: map<Cid, T>)
    requires Lists(rows, m)
    ensures |rows| == |m|
  {
    var cids := set i | 0 <= i < |rows| :: rows[i].cid;
    assert cids == m.Keys;
    RowsCount(rows);
  }

  lemma {:induction false} RowsCount<T>(rows: seq<Row<T>>)
    requires forall i, j :: 0 <= i < j < |rows| ==> rows[i].cid != rows[j].cid
    ensures |set i | 0 <= i < |rows| :: rows[i].cid| == |rows|
  {
    if rows != [] {
      var n := |rows| - 1;
      RowsCount(rows[..n]);
      var front := set i | 0 <= i < n :: rows[..n][i].cid;
      assert (set i | 0 <= i < |rows| :: rows[i].cid) == front + {rows[n].cid};
    }
  }

  lemma ConsumedRows(l: State, batches: seq<Row<Batch>>)
    requires Lists(batches, l.batches)
    ensures (set b, e | b in batches && e in b.payload.settled :: e) == Consumed(l)
  {
    ListsMembers(batches, l.batches);
    forall b, e | b in l.batches && e in l.batches[b].settled
      ensures e in set b, e | b in batches && e in b.payload.settled :: e
    {
      assert Row(b, l.batches[b]) in batches;
    }
  }

  class LedgerClient {
    var ledger: State
    ghost var log: seq<Exercise>

    constructor (l: State)
      ensures ledger == l && log == []
    {
      ledger, log := l, [];
    }

    /** `rows` is None when the query throws. */
    method Query<T>(contracts: map<Cid, T>) returns (rows: Option<seq<Row<T>>>)
      ensures rows.Some? ==> Lists(rows.value, contracts)
    {
      var reachable: bool := *;
      if !reachable { return None; }
      var found: seq<Row<T>> := [];
      var rest := contracts.Keys;
      while rest != {}
        invariant rest <= contracts.Keys
        invariant forall i :: 0 <= i < |found| ==>
          found[i].cid in contracts && found[i].cid !in rest && contracts[found[i].cid] == found[i].payload
        invariant forall i, j :: 0 <= i < j < |found| ==> found[i].cid != found[j].cid
        invariant forall c :: c in contracts && c !in rest ==> exists i :: 0 <= i < |found| && found[i].cid == c
        decreases rest
      {
        var c :| c in rest;
        var longer := found + [Row(c, contracts[c])];
        assert forall d :: d in contracts && d !in rest - {c} ==>
                             exists i :: 0 <= i < |longer| && longer[i].cid == d by {
          forall d | d in contracts && d !in rest - {c}
            ensures exists i :: 0 <= i < |longer| && longer[i].cid == d
          {
            if d == c {
              assert longer[|found|].cid == d;
            } else {
              var i :| 0 <= i < |found| && found[i].cid == d;
              assert longer[i].cid == d;
            }
          }
        }
        found, rest := longer, rest - {c};
      }
      return Some(found);
    }

    /** `created` is the contract id in the reply, None when the call throws. */
    method Exercise(c: Call) returns (created: Option<Cid>, ghost x: Ledger.Exercise)
      modifies this
      ensures x.call == c && Possible(old(ledger), x)
      ensures log == old(log) + [x]
      ensures ledger == After(old(ledger), x)
      ensures created.Some? <==> x.outcome.Done?
      ensures created.Some? && c.CreateFixingEvent? ==> created == Some(old(ledger).next)
    {
      var committed: bool, replied: bool := *, *;
      var produced: seq<Instant> := *;
      created := None;
      if committed && Accepts(ledger, c) {
        x := Ledger.Exercise(c, if replied then Done else Lost, produced);
        if replied { created := Some(ledger.next); }
        ledger := Commit(ledger, c, produced);
      } else {
        x := Ledger.Exercise(c, Refused, []);
      }
      log := log + [x];
    }
  }
}
