/**
 The per-client ledger: the history of accepted transactions of one client
 and the three views derived from it (available, held, locked).

 Balances are never stored; they are recomputed from the history every time
 they are asked for. Amounts are fixed-point integers: a decimal amount
 multiplied by 10 000 and rounded, so a Dafny `int` holds them exactly.
 */
module Ledger {

  /** Unsigned 64-bit identifiers, as used for clients and transactions. */
  newtype u64 = x: int | 0 <= x < 0x1_0000_0000_0000_0000

  type ClientId = u64
  type TxId = u64

  /** Number of internal units in one unit of currency (four decimal digits). */
  const Precision: int := 10000

  /** The state of a transaction in a client's history. */
  datatype TransactionStatus = Processed | UnderDispute | ChargeBack

  /** A deposit is stored with a positive amount, a withdrawal with a negative one. */
  datatype TransactionRecord = TransactionRecord(amount: int, status: TransactionStatus)

  /** All transactions a client has had accepted, by transaction id. */
  type History = map<TxId, TransactionRecord>

  /** The smallest key of a non-empty set of identifiers. */
  function MinKey(s: set<u64>): (k: u64)
    requires s != {}
    ensures k in s
    ensures forall j :: j in s ==> k <= j
  {
    MinKeyExists(s);
    var k :| k in s && forall j :: j in s ==> k <= j; k
  }

  lemma MinKeyExists(s: set<u64>)
    requires s != {}
    ensures exists k :: k in s && forall j :: j in s ==> k <= j
  {
    var m := LeastOf(s);
  }

  lemma {:induction false} LeastOf(s: set<u64>) returns (m: u64)
    requires s != {}
    ensures m in s && forall j :: j in s ==> m <= j
    decreases |s|
  {
    var x :| x in s;
    if s == {x} {
      m := x;
    } else {
      var rest := s - {x};
      var r := LeastOf(rest);
      m := if x <= r then x else r;
      forall j | j in s ensures m <= j {
        if j != x { assert j in rest; }
      }
    }
  }

  /** The identifiers of `s`, smallest first. */
  function SortedIds(s: set<u64>): seq<u64>
    decreases |s|
  {
    if s == {} then [] else var m := MinKey(s); [m] + SortedIds(s - {m})
  }

  /** SortedIds lists identifiers of the set only, as many as the set has. */
  lemma {:induction false} SortedIdsMembers(s: set<u64>)
    ensures |SortedIds(s)| == |s|
    ensures forall i :: 0 <= i < |SortedIds(s)| ==> SortedIds(s)[i] in s
    decreases |s|
  {
    if s != {} {
      var m := MinKey(s);
      SortedIdsMembers(s - {m});
    }
  }

  /** SortedIds lists every identifier of the set. */
  lemma {:induction false} SortedIdsComplete(s: set<u64>)
    ensures forall x :: x in s ==> exists i :: 0 <= i < |SortedIds(s)| && SortedIds(s)[i] == x
    decreases |s|
  {
    if s != {} {
      var m := MinKey(s);
      var rest := SortedIds(s - {m});
      SortedIdsComplete(s - {m});
      assert SortedIds(s) == [m] + rest;
      forall x | x in s ensures exists i :: 0 <= i < |SortedIds(s)| && SortedIds(s)[i] == x {
        if x == m {
          assert SortedIds(s)[0] == x;
        } else {
          assert x in s - {m};
          var i :| 0 <= i < |rest| && rest[i] == x;
          assert SortedIds(s)[i + 1] == x;
        }
      }
    }
  }

  /** SortedIds is strictly ascending, so no identifier is listed twice. */
  lemma {:induction false} SortedIdsAscending(s: set<u64>)
    ensures forall i, j :: 0 <= i < j < |SortedIds(s)| ==> SortedIds(s)[i] < SortedIds(s)[j]
    decreases |s|
  {
    if s != {} {
      var m := MinKey(s);
      var rest := SortedIds(s - {m});
      SortedIdsAscending(s - {m});
      SortedIdsMembers(s - {m});
      var r := SortedIds(s);
      assert r == [m] + rest;
      forall i, j | 0 <= i < j < |r| ensures r[i] < r[j] {
        var y := rest[j - 1];
        assert y in s - {m};
        if i > 0 {
          assert r[i] == rest[i - 1];
        }
      }
    }
  }

  /** What one record adds to the sum over records of status `st`. */
  function Contribution(r: TransactionRecord, st: TransactionStatus): int
  {
    if r.status == st then r.amount else 0
  }

  /**
   The sum of the amounts of the records of status `st`. The records are
   visited in ascending id order; SumWhereRemove shows the order does not
   matter.
   */
  function SumWhere(h: History, st: TransactionStatus): int
    decreases |h|
  {
    if |h| == 0 then 0
    else
      var k := MinKey(h.Keys);
      assert |h - {k}| < |h| by { assert (h - {k}).Keys == h.Keys - {k}; }
      Contribution(h[k], st) + SumWhere(h - {k}, st)
  }

  /** Funds the client may withdraw: the sum over Processed records. */
  function Available(h: History): int
  {
    SumWhere(h, Processed)
  }

  /** Funds frozen by a dispute: the sum over UnderDispute records. */
  function Held(h: History): int
  {
    SumWhere(h, UnderDispute)
  }

  /** A client is locked once any of its transactions has been charged back. */
  predicate Locked(h: History)
  {
    exists k :: k in h && h[k].status == ChargeBack
  }

  /** Writing one record into an unlocked history locks it exactly when that record is a chargeback. */
  lemma LockedUpdate(h: History, k: TxId, r: TransactionRecord)
    requires !Locked(h)
    ensures Locked(h[k := r]) <==> r.status == ChargeBack
  {
    if Locked(h[k := r]) {
      var j :| j in h[k := r] && h[k := r][j].status == ChargeBack;
      assert j == k;
    } else {
      assert h[k := r][k] == r;
    }
  }

  /**
   Any record, not only the one with the smallest id, can be taken out of
   the sum first: the sum does not depend on the order of the history.
   */
  lemma {:induction false} SumWhereRemove(h: History, k: TxId, st: TransactionStatus)
    requires k in h
    ensures SumWhere(h, st) == Contribution(h[k], st) + SumWhere(h - {k}, st)
    decreases |h|
  {
    var m := MinKey(h.Keys);
    if m != k {
      var hm := h - {m};
      assert (h - {m}).Keys == h.Keys - {m};
      assert k in hm;
      SumWhereRemove(hm, k, st);
      var hk := h - {k};
      assert hk.Keys == h.Keys - {k};
      assert |hk| != 0 by { assert m in hk; }
      assert MinKey(hk.Keys) == m;
      assert hk - {m} == hm - {k};
    }
  }

  /** Writing a record at `k` replaces whatever `k` contributed with what the new record contributes. */
  lemma SumWhereUpdate(h: History, k: TxId, r: TransactionRecord, st: TransactionStatus)
    ensures SumWhere(h[k := r], st) == SumWhere(h - {k}, st) + Contribution(r, st)
    ensures k in h ==> SumWhere(h[k := r], st) == SumWhere(h, st) - Contribution(h[k], st) + Contribution(r, st)
    ensures k !in h ==> SumWhere(h[k := r], st) == SumWhere(h, st) + Contribution(r, st)
  {
    var u := h[k := r];
    assert k in u;
    SumWhereRemove(u, k, st);
    assert u - {k} == h - {k};
    if k in h {
      SumWhereRemove(h, k, st);
    } else {
      assert h - {k} == h;
    }
  }

  /** A history with no record of status `st` sums to zero over that status. */
  lemma {:induction false} SumWhereAbsent(h: History, st: TransactionStatus)
    requires forall k :: k in h ==> h[k].status != st
    ensures SumWhere(h, st) == 0
    decreases |h|
  {
    if |h| != 0 {
      var k := MinKey(h.Keys);
      SumWhereAbsent(h - {k}, st);
    }
  }

  /** A history whose records of status `st` are all positive has a non-negative sum over them. */
  lemma {:induction false} SumWhereNonNegative(h: History, st: TransactionStatus)
    requires forall k :: k in h && h[k].status == st ==> h[k].amount > 0
    ensures SumWhere(h, st) >= 0
    ensures SumWhere(h, st) == 0 <==> forall k :: k in h ==> h[k].status != st
    decreases |h|
  {
    if |h| != 0 {
      var k := MinKey(h.Keys);
      var rest := h - {k};
      SumWhereNonNegative(rest, st);
      if SumWhere(h, st) == 0 {
        assert Contribution(h[k], st) == 0;
        forall j | j in h ensures h[j].status != st {
          if j != k { assert j in rest; }
        }
      }
    }
  }

  /**
   The invariant every history reached by processing keeps: a record can be
   disputed or charged back only if it is a deposit, so every UnderDispute
   or ChargeBack record has a positive amount.
   */
  ghost predicate WellFormed(h: History)
  {
    forall k :: k in h && h[k].status != Processed ==> h[k].amount > 0
  }

  /** Held funds are never negative in a well-formed history (available funds may be). */
  lemma HeldNonNegative(h: History)
    requires WellFormed(h)
    ensures Held(h) >= 0
    ensures Held(h) == 0 <==> forall k :: k in h ==> h[k].status != UnderDispute
  {
    SumWhereNonNegative(h, UnderDispute);
  }

  /** A history with nothing under dispute, such as one made only of deposits, holds nothing. */
  lemma HeldWithoutDisputes(h: History)
    requires forall k :: k in h ==> h[k].status != UnderDispute
    ensures Held(h) == 0
    ensures Available(h) + Held(h) == Available(h)
  {
    SumWhereAbsent(h, UnderDispute);
  }
}
