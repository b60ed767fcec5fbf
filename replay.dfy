/**
 A log of transactions processed in order, one `Process` call each, as the
 driver of the processor does. The lemmas here are about whole logs: the
 history of one client depends only on that client's own transactions, a
 locked client never changes again, and processing never removes or
 re-prices a record.
 */
module Replay {
  import opened Ledger
  import opened Processor

  /** The state after processing `ts` in order, starting from `clients`. */
  function Replay(clients: map<ClientId, History>, ts: seq<Transaction>): map<ClientId, History>
    decreases |ts|
  {
    if ts == [] then clients else Replay(Apply(clients, ts[0]), ts[1..])
  }

  /** The history of one client after processing `ts` (all addressed to it) in order. */
  function ReplayHistory(h: History, ts: seq<Transaction>): History
    decreases |ts|
  {
    if ts == [] then h else ReplayHistory(Next(h, ts[0]), ts[1..])
  }

  /** The transactions of `ts` addressed to client `c`, in their original order. */
  function ForClient(ts: seq<Transaction>, c: ClientId): (r: seq<Transaction>)
    ensures |r| <= |ts|
    ensures forall i :: 0 <= i < |r| ==> r[i].client == c && r[i] in ts
    decreases |ts|
  {
    if ts == [] then []
    else (if ts[0].client == c then [ts[0]] else []) + ForClient(ts[1..], c)
  }

  /** The clients a log mentions. */
  function ClientsOf(ts: seq<Transaction>): set<ClientId>
  {
    set t | t in ts :: t.client
  }

  /**
   Clients are independent: the history of `c` after a whole log is the
   history obtained by processing only `c`'s own transactions, in order.
   Splitting a log by client and processing each part separately gives the
   same histories.
   */
  lemma {:induction false} ReplayIsolation(clients: map<ClientId, History>, ts: seq<Transaction>, c: ClientId)
    ensures HistoryOf(Replay(clients, ts), c) == ReplayHistory(HistoryOf(clients, c), ForClient(ts, c))
    decreases |ts|
  {
    if ts != [] {
      var t := ts[0];
      var next := Apply(clients, t);
      ReplayIsolation(next, ts[1..], c);
      if t.client == c {
        assert HistoryOf(next, c) == Next(HistoryOf(clients, c), t);
        var rest := ForClient(ts[1..], c);
        assert ForClient(ts, c) == [t] + rest;
        assert ([t] + rest)[1..] == rest;
      } else {
        assert HistoryOf(next, c) == HistoryOf(clients, c);
        assert ForClient(ts, c) == ForClient(ts[1..], c);
      }
    }
  }

  /** After a log, exactly the clients known before and the clients the log mentions are known. */
  lemma {:induction false} ReplayClients(clients: map<ClientId, History>, ts: seq<Transaction>)
    ensures Replay(clients, ts).Keys == clients.Keys + ClientsOf(ts)
    decreases |ts|
  {
    if ts != [] {
      ReplayClients(Apply(clients, ts[0]), ts[1..]);
      assert ClientsOf(ts) == {ts[0].client} + ClientsOf(ts[1..]) by {
        assert forall t :: t in ts <==> t == ts[0] || t in ts[1..];
      }
    } else {
      assert ClientsOf(ts) == {};
    }
  }

  /** Every state reached from a well-formed one (such as the empty one) is well-formed. */
  lemma {:induction false} ReplayPreservesWellFormed(clients: map<ClientId, History>, ts: seq<Transaction>)
    requires AllWellFormed(clients)
    ensures AllWellFormed(Replay(clients, ts))
    decreases |ts|
  {
    if ts != [] {
      ApplyPreservesWellFormed(clients, ts[0]);
      ReplayPreservesWellFormed(Apply(clients, ts[0]), ts[1..]);
    }
  }

  /**
   The report after processing a log from scratch: one line per client the
   log mentions, ascending by id, with total = available + held and held
   never negative.
   */
  lemma ReplayedSummary(ts: seq<Transaction>)
    ensures var r := SummaryOf(Replay(map[], ts));
      && |r| == |ClientsOf(ts)|
      && (forall i :: 0 <= i < |r| ==> r[i].client in ClientsOf(ts) && r[i].held >= 0 && r[i].total == r[i].available + r[i].held)
      && (forall c :: c in ClientsOf(ts) ==> exists i :: 0 <= i < |r| && r[i].client == c)
      && (forall i, j :: 0 <= i < j < |r| ==> r[i].client < r[j].client)
  {
    var clients := Replay(map[], ts);
    ReplayClients(map[], ts);
    ReplayPreservesWellFormed(map[], ts);
    SummaryEntries(clients);
    SummaryOrder(clients);
    SummaryHeldNonNegative(clients);
  }

  /** A locked client's history never changes again, whatever it is sent. */
  lemma {:induction false} LockedIsFinal(h: History, ts: seq<Transaction>)
    requires Locked(h)
    ensures ReplayHistory(h, ts) == h
    decreases |ts|
  {
    if ts != [] {
      assert Next(h, ts[0]) == h;
      LockedIsFinal(h, ts[1..]);
    }
  }

  /**
   Records are never removed and their amounts never change: processing only
   adds records and moves statuses along the allowed transitions.
   */
  lemma {:induction false} ReplayKeepsRecords(h: History, ts: seq<Transaction>)
    ensures h.Keys <= ReplayHistory(h, ts).Keys
    ensures forall k :: k in h ==> ReplayHistory(h, ts)[k].amount == h[k].amount
    ensures forall k :: k in h && h[k].status == ChargeBack ==> ReplayHistory(h, ts)[k] == h[k]
    decreases |ts|
  {
    if ts != [] {
      var h' := Next(h, ts[0]);
      assert forall k :: k in h ==> k in h' && h'[k].amount == h[k].amount by {
        if Step(h, ts[0]).Ok? {
          StepStatusTransitions(h, ts[0]);
        }
      }
      assert forall k :: k in h && h[k].status == ChargeBack ==> h'[k] == h[k];
      ReplayKeepsRecords(h', ts[1..]);
    }
  }

  /** Deposits alone never put anything on hold: the client holds nothing and its total is what is available. */
  lemma {:induction false} DepositsHoldNothing(h: History, ts: seq<Transaction>)
    requires forall k :: k in h ==> h[k].status != UnderDispute
    requires forall i :: 0 <= i < |ts| ==> ts[i].kind == Deposit
    ensures Held(ReplayHistory(h, ts)) == 0
    decreases |ts|
  {
    if ts == [] {
      HeldWithoutDisputes(h);
    } else {
      var h' := Next(h, ts[0]);
      assert forall k :: k in h' ==> h'[k].status != UnderDispute;
      DepositsHoldNothing(h', ts[1..]);
    }
  }

  /**
   Deposit 100.0 as transaction 1, dispute it, charge it back: nothing is
   available or held, the client is locked, and nothing sent afterwards
   changes its history.
   */
  lemma ChargebackScenario(c: ClientId, later: seq<Transaction>)
    ensures var h := ReplayHistory(map[], [
                       Transaction(Deposit, c, 1, Some(100 * Precision)),
                       Transaction(Dispute, c, 1, None),
                       Transaction(Chargeback, c, 1, None)]);
      && Available(h) == 0 && Held(h) == 0 && Locked(h)
      && ReplayHistory(h, later) == h
  {
    var empty: History := map[];
    var deposit := Transaction(Deposit, c, 1, Some(100 * Precision));
    var dispute := Transaction(Dispute, c, 1, None);
    var chargeback := Transaction(Chargeback, c, 1, None);
    assert !Locked(empty);
    HeldWithoutDisputes(empty);
    assert Available(empty) == 0 by { SumWhereAbsent(empty, Processed); }
    DepositEffect(empty, deposit);
    var h1 := Next(empty, deposit);
    DisputeEffect(h1, dispute);
    var h2 := Next(h1, dispute);
    ChargebackEffect(h2, chargeback);
    var h3 := Next(h2, chargeback);
    var log := [deposit, dispute, chargeback];
    calc {
      ReplayHistory(empty, log);
      { assert log[1..] == [dispute, chargeback]; }
      ReplayHistory(h1, [dispute, chargeback]);
      { assert [dispute, chargeback][1..] == [chargeback]; }
      ReplayHistory(h2, [chargeback]);
      h3;
    }
    LockedIsFinal(h3, later);
  }
}
