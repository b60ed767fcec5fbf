/**
 The transaction processor: one history per client, a `Process` operation
 that runs a kind-specific chain of guards before its single write, and a
 `Summary` that derives one account snapshot per client, by ascending id.
 */
module Processor {
  import opened Ledger

  datatype Option<T> = None | Some(value: T)

  datatype Result<T> = Ok(value: T) | Err(error: ProcessError)

  /** What `Process` reports: success, or the guard that rejected the transaction. */
  datatype Outcome = Pass | Fail(error: ProcessError)

  datatype TransactionType = Deposit | Withdrawal | Dispute | Resolve | Chargeback

  /**
   An incoming transaction. `amount` is already in internal units (scaled
   by `Precision`); dispute-family transactions carry none.
   */
  datatype Transaction = Transaction(kind: TransactionType, client: ClientId, tx: TxId, amount: Option<int>)

  datatype ProcessError =
    | NotEnoughFoundsAvailable
    | MissingAmountValue
    | NonPositiveAmountInTransaction
    | TransactionNotFound
    | TransactionAlreadyUnderDispute
    | CannotDisputeWithdrawal
    | TransactionNotUnderDispute
    | AccountLocked
    | TransactionAlreadyProcessed

  /** One line of the final report. */
  datatype ClientSummary = ClientSummary(client: ClientId, available: int, held: int, total: int, locked: bool)

  /** The status changes a successful transaction may make to an existing record. */
  predicate AllowedTransition(before: TransactionStatus, after: TransactionStatus)
  {
    || before == after
    || (before == Processed && after == UnderDispute)
    || (before == UnderDispute && after == Processed)
    || (before == UnderDispute && after == ChargeBack)
  }

  /**
   The effect of one transaction on the history of the client it names:
   the new history, or the first guard that failed. A failure carries no
   history, so a rejected transaction cannot have changed anything.
   */
  function Step(h: History, t: Transaction): (r: Result<History>)
    ensures Locked(h) ==> r == Err(AccountLocked)
    ensures r.Ok? ==> h.Keys <= r.value.Keys <= h.Keys + {t.tx}
    ensures r.Ok? ==> forall k :: k in h && k != t.tx ==> r.value[k] == h[k]
  {
    if Locked(h) then Err(AccountLocked)
    else match t.kind
      case Deposit =>
        if t.amount.None? then Err(MissingAmountValue)
        else if t.amount.value <= 0 then Err(NonPositiveAmountInTransaction)
        else if t.tx in h then Err(TransactionAlreadyProcessed)
        else Ok(h[t.tx := TransactionRecord(t.amount.value, Processed)])
      case Withdrawal =>
        if t.amount.None? then Err(MissingAmountValue)
        else if t.amount.value <= 0 then Err(NonPositiveAmountInTransaction)
        else if t.amount.value > Available(h) then Err(NotEnoughFoundsAvailable)
        else if t.tx in h then Err(TransactionAlreadyProcessed)
        else Ok(h[t.tx := TransactionRecord(-t.amount.value, Processed)])
      case Dispute =>
        if t.tx !in h then Err(TransactionNotFound)
        else if h[t.tx].status != Processed then Err(TransactionAlreadyUnderDispute)
        else if h[t.tx].amount <= 0 then Err(CannotDisputeWithdrawal)
        else Ok(h[t.tx := h[t.tx].(status := UnderDispute)])
      case Resolve =>
        if t.tx !in h then Err(TransactionNotFound)
        else if h[t.tx].status != UnderDispute then Err(TransactionNotUnderDispute)
        else Ok(h[t.tx := h[t.tx].(status := Processed)])
      case Chargeback =>
        if t.tx !in h then Err(TransactionNotFound)
        else if h[t.tx].status != UnderDispute then Err(TransactionNotUnderDispute)
        else Ok(h[t.tx := h[t.tx].(status := ChargeBack)])
  }

  /** The history of client `c`, empty if the client has not been seen yet. */
  function HistoryOf(clients: map<ClientId, History>, c: ClientId): History
  {
    if c in clients then clients[c] else map[]
  }

  /** The history after `t`: the new one on success, the old one on failure. */
  function Next(h: History, t: Transaction): History
  {
    match Step(h, t)
    case Ok(h') => h'
    case Err(_) => h
  }

  function OutcomeOf(r: Result<History>): Outcome
  {
    match r
    case Ok(_) => Pass
    case Err(e) => Fail(e)
  }

  /**
   The whole state after processing `t`. The client named by `t` always
   ends up present (its entry is created before any guard runs), and no
   other client's history is touched.
   */
  function Apply(clients: map<ClientId, History>, t: Transaction): (r: map<ClientId, History>)
    ensures r.Keys == clients.Keys + {t.client}
    ensures forall c :: c in clients && c != t.client ==> r[c] == clients[c]
    ensures Step(HistoryOf(clients, t.client), t).Err? ==>
              r[t.client] == HistoryOf(clients, t.client) && (t.client in clients ==> r == clients)
  {
    clients[t.client := Next(HistoryOf(clients, t.client), t)]
  }

  /** Deposits: the guards run in order (missing amount, non-positive amount, duplicate id), and success means all passed. */
  lemma DepositGuards(h: History, t: Transaction)
    requires t.kind == Deposit && !Locked(h)
    ensures t.amount.None? ==> Step(h, t) == Err(MissingAmountValue)
    ensures t.amount.Some? && t.amount.value <= 0 ==> Step(h, t) == Err(NonPositiveAmountInTransaction)
    ensures t.amount.Some? && t.amount.value > 0 && t.tx in h ==> Step(h, t) == Err(TransactionAlreadyProcessed)
    ensures Step(h, t).Ok? <==> t.amount.Some? && t.amount.value > 0 && t.tx !in h
  {
  }

  /** A successful deposit inserts a Processed record and adds exactly its amount to the available funds. */
  lemma DepositEffect(h: History, t: Transaction)
    requires t.kind == Deposit && !Locked(h)
    requires t.amount.Some? && t.amount.value > 0 && t.tx !in h
    ensures var h' := h[t.tx := TransactionRecord(t.amount.value, Processed)];
      && Step(h, t) == Ok(h')
      && Available(h') == Available(h) + t.amount.value
      && Held(h') == Held(h)
      && !Locked(h')
  {
    var r := TransactionRecord(t.amount.value, Processed);
    assert Step(h, t) == Ok(h[t.tx := r]);
    SumWhereUpdate(h, t.tx, r, Processed);
    SumWhereUpdate(h, t.tx, r, UnderDispute);
    LockedUpdate(h, t.tx, r);
  }

  /**
   Withdrawals: the guards run in order (missing amount, non-positive
   amount, insufficient funds, duplicate id), so insufficient funds is
   reported before a duplicate id.
   */
  lemma WithdrawalGuards(h: History, t: Transaction)
    requires t.kind == Withdrawal && !Locked(h)
    ensures t.amount.None? ==> Step(h, t) == Err(MissingAmountValue)
    ensures t.amount.Some? && t.amount.value <= 0 ==> Step(h, t) == Err(NonPositiveAmountInTransaction)
    ensures t.amount.Some? && t.amount.value > 0 && t.amount.value > Available(h) ==>
              Step(h, t) == Err(NotEnoughFoundsAvailable)
    ensures t.amount.Some? && 0 < t.amount.value <= Available(h) && t.tx in h ==>
              Step(h, t) == Err(TransactionAlreadyProcessed)
    ensures Step(h, t).Ok? <==> t.amount.Some? && 0 < t.amount.value <= Available(h) && t.tx !in h
  {
  }

  /**
   A successful withdrawal inserts a Processed record of the negated amount
   and takes exactly that amount from the available funds, which stay
   non-negative.
   */
  lemma WithdrawalEffect(h: History, t: Transaction)
    requires t.kind == Withdrawal && !Locked(h)
    requires t.amount.Some? && 0 < t.amount.value <= Available(h) && t.tx !in h
    ensures var h' := h[t.tx := TransactionRecord(-t.amount.value, Processed)];
      && Step(h, t) == Ok(h')
      && Available(h') == Available(h) - t.amount.value >= 0
      && Held(h') == Held(h)
      && !Locked(h')
  {
    var r := TransactionRecord(-t.amount.value, Processed);
    assert Step(h, t) == Ok(h[t.tx := r]);
    SumWhereUpdate(h, t.tx, r, Processed);
    SumWhereUpdate(h, t.tx, r, UnderDispute);
    LockedUpdate(h, t.tx, r);
  }

  /**
   Disputes: the guards run in order (unknown id, status other than
   Processed, including ChargeBack, then a stored amount that is not
   positive, i.e. a withdrawal).
   */
  lemma DisputeGuards(h: History, t: Transaction)
    requires t.kind == Dispute && !Locked(h)
    ensures t.tx !in h ==> Step(h, t) == Err(TransactionNotFound)
    ensures t.tx in h && h[t.tx].status != Processed ==> Step(h, t) == Err(TransactionAlreadyUnderDispute)
    ensures t.tx in h && h[t.tx].status == Processed && h[t.tx].amount <= 0 ==>
              Step(h, t) == Err(CannotDisputeWithdrawal)
    ensures Step(h, t).Ok? <==> t.tx in h && h[t.tx].status == Processed && h[t.tx].amount > 0
  {
  }

  /** A successful dispute moves exactly the record's amount from available to held; the total is unchanged. */
  lemma DisputeEffect(h: History, t: Transaction)
    requires t.kind == Dispute && !Locked(h)
    requires t.tx in h && h[t.tx].status == Processed && h[t.tx].amount > 0
    ensures var h' := h[t.tx := TransactionRecord(h[t.tx].amount, UnderDispute)];
      && Step(h, t) == Ok(h')
      && Available(h') == Available(h) - h[t.tx].amount
      && Held(h') == Held(h) + h[t.tx].amount
      && Available(h') + Held(h') == Available(h) + Held(h)
      && !Locked(h')
  {
    var r := TransactionRecord(h[t.tx].amount, UnderDispute);
    assert Step(h, t) == Ok(h[t.tx := r]);
    SumWhereUpdate(h, t.tx, r, Processed);
    SumWhereUpdate(h, t.tx, r, UnderDispute);
    LockedUpdate(h, t.tx, r);
  }

  /** Resolves and chargebacks: the guards run in order (unknown id, then status other than UnderDispute). */
  lemma SettleGuards(h: History, t: Transaction)
    requires (t.kind == Resolve || t.kind == Chargeback) && !Locked(h)
    ensures t.tx !in h ==> Step(h, t) == Err(TransactionNotFound)
    ensures t.tx in h && h[t.tx].status != UnderDispute ==> Step(h, t) == Err(TransactionNotUnderDispute)
    ensures Step(h, t).Ok? <==> t.tx in h && h[t.tx].status == UnderDispute
  {
  }

  /** A successful resolve makes the record Processed again, moving its amount from held back to available. */
  lemma ResolveEffect(h: History, t: Transaction)
    requires t.kind == Resolve && !Locked(h)
    requires t.tx in h && h[t.tx].status == UnderDispute
    ensures var h' := h[t.tx := TransactionRecord(h[t.tx].amount, Processed)];
      && Step(h, t) == Ok(h')
      && Available(h') == Available(h) + h[t.tx].amount
      && Held(h') == Held(h) - h[t.tx].amount
      && Available(h') + Held(h') == Available(h) + Held(h)
      && !Locked(h')
  {
    var r := TransactionRecord(h[t.tx].amount, Processed);
    assert Step(h, t) == Ok(h[t.tx := r]);
    SumWhereUpdate(h, t.tx, r, Processed);
    SumWhereUpdate(h, t.tx, r, UnderDispute);
    LockedUpdate(h, t.tx, r);
  }

  /**
   A successful chargeback removes the record's amount from held and from
   the total for good, and locks the client.
   */
  lemma ChargebackEffect(h: History, t: Transaction)
    requires t.kind == Chargeback && !Locked(h)
    requires t.tx in h && h[t.tx].status == UnderDispute
    ensures var h' := h[t.tx := TransactionRecord(h[t.tx].amount, ChargeBack)];
      && Step(h, t) == Ok(h')
      && Available(h') == Available(h)
      && Held(h') == Held(h) - h[t.tx].amount
      && Available(h') + Held(h') == Available(h) + Held(h) - h[t.tx].amount
      && Locked(h')
  {
    var r := TransactionRecord(h[t.tx].amount, ChargeBack);
    assert Step(h, t) == Ok(h[t.tx := r]);
    SumWhereUpdate(h, t.tx, r, Processed);
    SumWhereUpdate(h, t.tx, r, UnderDispute);
    LockedUpdate(h, t.tx, r);
  }

  /** A resolve undoes the dispute of the same transaction exactly: the history is as before the dispute. */
  lemma ResolveUndoesDispute(h: History, c: ClientId, id: TxId, a1: Option<int>, a2: Option<int>)
    requires Step(h, Transaction(Dispute, c, id, a1)).Ok?
    ensures var disputed := Step(h, Transaction(Dispute, c, id, a1)).value;
            Step(disputed, Transaction(Resolve, c, id, a2)) == Ok(h)
  {
    var dispute := Transaction(Dispute, c, id, a1);
    DisputeGuards(h, dispute);
    DisputeEffect(h, dispute);
    var disputed := Step(h, dispute).value;
    ResolveEffect(disputed, Transaction(Resolve, c, id, a2));
    assert disputed[id := TransactionRecord(h[id].amount, Processed)] == h;
  }

  /**
   Records are never removed, a new record starts Processed, and an existing
   record only moves along Processed -> UnderDispute -> Processed or
   UnderDispute -> ChargeBack; a ChargeBack record never changes again.
   */
  lemma StepStatusTransitions(h: History, t: Transaction)
    requires Step(h, t).Ok?
    ensures h.Keys <= Step(h, t).value.Keys
    ensures forall k :: k in h ==> AllowedTransition(h[k].status, Step(h, t).value[k].status)
    ensures forall k :: k in h && h[k].status == ChargeBack ==> Step(h, t).value[k] == h[k]
    ensures forall k :: k in Step(h, t).value && k !in h ==> Step(h, t).value[k].status == Processed
  {
  }

  /** The only transaction that can lock a client is a successful chargeback. */
  lemma LockedOnlyByChargeback(h: History, t: Transaction)
    requires !Locked(h) && Step(h, t).Ok? && Locked(Step(h, t).value)
    ensures t.kind == Chargeback
  {
    var h' := Step(h, t).value;
    var k :| k in h' && h'[k].status == ChargeBack;
    assert k in h && h[k].status != ChargeBack;
  }

  /** Every history `Process` reaches keeps disputed and charged-back amounts positive. */
  lemma StepPreservesWellFormed(h: History, t: Transaction)
    requires WellFormed(h)
    ensures WellFormed(Next(h, t))
  {
  }

  /** The report line of one client, derived from its history. */
  function Snapshot(c: ClientId, h: History): ClientSummary
  {
    var available := Available(h);
    var held := Held(h);
    ClientSummary(c, available, held, held + available, Locked(h))
  }

  /** The report: one snapshot per known client, by ascending client id. */
  function SummaryOf(clients: map<ClientId, History>): seq<ClientSummary>
  {
    var ids := SortedIds(clients.Keys);
    SortedIdsMembers(clients.Keys);
    seq(|ids|, i requires 0 <= i < |ids| => Snapshot(ids[i], clients[ids[i]]))
  }

  /** Each report line belongs to a known client and is that client's snapshot, with total = available + held. */
  lemma SummaryEntries(clients: map<ClientId, History>)
    ensures |SummaryOf(clients)| == |clients|
    ensures forall i :: 0 <= i < |SummaryOf(clients)| ==>
              && SummaryOf(clients)[i].client in clients
              && SummaryOf(clients)[i] == Snapshot(SummaryOf(clients)[i].client, clients[SummaryOf(clients)[i].client])
              && SummaryOf(clients)[i].total == SummaryOf(clients)[i].available + SummaryOf(clients)[i].held
  {
    SortedIdsMembers(clients.Keys);
  }

  /** Every known client has a report line, and the lines are strictly ascending by client id. */
  lemma SummaryOrder(clients: map<ClientId, History>)
    ensures forall c :: c in clients ==> exists i :: 0 <= i < |SummaryOf(clients)| && SummaryOf(clients)[i].client == c
    ensures forall i, j :: 0 <= i < j < |SummaryOf(clients)| ==> SummaryOf(clients)[i].client < SummaryOf(clients)[j].client
  {
    var ids := SortedIds(clients.Keys);
    var r := SummaryOf(clients);
    SortedIdsComplete(clients.Keys);
    SortedIdsAscending(clients.Keys);
    assert forall i :: 0 <= i < |r| ==> r[i].client == ids[i];
    forall c | c in clients ensures exists i :: 0 <= i < |r| && r[i].client == c {
      var i :| 0 <= i < |ids| && ids[i] == c;
      assert r[i].client == c;
    }
  }

  /** Every client's history is well-formed. */
  ghost predicate AllWellFormed(clients: map<ClientId, History>)
  {
    forall c :: c in clients ==> WellFormed(clients[c])
  }

  /** Processing a transaction keeps every client's history well-formed. */
  lemma ApplyPreservesWellFormed(clients: map<ClientId, History>, t: Transaction)
    requires AllWellFormed(clients)
    ensures AllWellFormed(Apply(clients, t))
  {
    StepPreservesWellFormed(HistoryOf(clients, t.client), t);
  }

  /** In a well-formed state no snapshot reports negative held funds. */
  lemma SummaryHeldNonNegative(clients: map<ClientId, History>)
    requires AllWellFormed(clients)
    ensures forall i :: 0 <= i < |SummaryOf(clients)| ==> SummaryOf(clients)[i].held >= 0
  {
    var r := SummaryOf(clients);
    SummaryEntries(clients);
    forall i | 0 <= i < |r| ensures r[i].held >= 0 {
      HeldNonNegative(clients[r[i].client]);
    }
  }

  /** The processor: the history of every client seen so far, updated in place. */
  class TransactionsProcessor {
    var clients: map<ClientId, History>

    constructor ()
      ensures clients == map[]
    {
      clients := map[];
    }

    /**
     Processes one transaction against the history of the client it names,
     creating that history first if needed. Every guard runs before the
     single write, so a rejected transaction changes nothing beyond that
     creation.
     */
    method Process(t: Transaction) returns (res: Outcome)
      modifies this
      ensures res == OutcomeOf(Step(HistoryOf(old(clients), t.client), t))
      ensures clients == old(clients)[t.client := Next(HistoryOf(old(clients), t.client), t)]
    {
      ghost var spec := Step(HistoryOf(clients, t.client), t);
      if t.client !in clients {
        clients := clients[t.client := map[]];
      }
      var history := clients[t.client];
      if Locked(history) {
        assert spec == Err(AccountLocked);
        return Fail(AccountLocked);
      }
      match t.kind {
        case Deposit =>
          if t.amount.None? {
            assert spec == Err(MissingAmountValue);
            return Fail(MissingAmountValue);
          }
          var amount := t.amount.value;
          if amount <= 0 {
            assert spec == Err(NonPositiveAmountInTransaction);
            return Fail(NonPositiveAmountInTransaction);
          }
          if t.tx in history {
            assert spec == Err(TransactionAlreadyProcessed);
            return Fail(TransactionAlreadyProcessed);
          }
          assert spec == Ok(history[t.tx := TransactionRecord(amount, Processed)]);
          clients := clients[t.client := history[t.tx := TransactionRecord(amount, Processed)]];
        case Withdrawal =>
          if t.amount.None? {
            assert spec == Err(MissingAmountValue);
            return Fail(MissingAmountValue);
          }
          var amount := t.amount.value;
          if amount <= 0 {
            assert spec == Err(NonPositiveAmountInTransaction);
            return Fail(NonPositiveAmountInTransaction);
          }
          if amount > Available(history) {
            assert spec == Err(NotEnoughFoundsAvailable);
            return Fail(NotEnoughFoundsAvailable);
          }
          if t.tx in history {
            assert spec == Err(TransactionAlreadyProcessed);
            return Fail(TransactionAlreadyProcessed);
          }
          assert spec == Ok(history[t.tx := TransactionRecord(-amount, Processed)]);
          clients := clients[t.client := history[t.tx := TransactionRecord(-amount, Processed)]];
        case Dispute =>
          if t.tx !in history {
            assert spec == Err(TransactionNotFound);
            return Fail(TransactionNotFound);
          }
          var entry := history[t.tx];
          if entry.status != Processed {
            assert spec == Err(TransactionAlreadyUnderDispute);
            return Fail(TransactionAlreadyUnderDispute);
          }
          if entry.amount <= 0 {
            assert spec == Err(CannotDisputeWithdrawal);
            return Fail(CannotDisputeWithdrawal);
          }
          assert spec == Ok(history[t.tx := entry.(status := UnderDispute)]);
          clients := clients[t.client := history[t.tx := entry.(status := UnderDispute)]];
        case Resolve =>
          if t.tx !in history {
            assert spec == Err(TransactionNotFound);
            return Fail(TransactionNotFound);
          }
          var entry := history[t.tx];
          if entry.status != UnderDispute {
            assert spec == Err(TransactionNotUnderDispute);
            return Fail(TransactionNotUnderDispute);
          }
          assert spec == Ok(history[t.tx := entry.(status := Processed)]);
          clients := clients[t.client := history[t.tx := entry.(status := Processed)]];
        case Chargeback =>
          if t.tx !in history {
            assert spec == Err(TransactionNotFound);
            return Fail(TransactionNotFound);
          }
          var entry := history[t.tx];
          if entry.status != UnderDispute {
            assert spec == Err(TransactionNotUnderDispute);
            return Fail(TransactionNotUnderDispute);
          }
          assert spec == Ok(history[t.tx := entry.(status := ChargeBack)]);
          clients := clients[t.client := history[t.tx := entry.(status := ChargeBack)]];
      }
      res := Pass;
    }

    /** One snapshot per known client, strictly ascending by client id. */
    function Summary(): (r: seq<ClientSummary>)
      reads this
      ensures |r| == |clients|
      ensures forall i :: 0 <= i < |r| ==> r[i].client in clients && r[i].total == r[i].available + r[i].held
      ensures forall c :: c in clients ==> exists i :: 0 <= i < |r| && r[i].client == c
      ensures forall i, j :: 0 <= i < j < |r| ==> r[i].client < r[j].client
    {
      SummaryEntries(clients);
      SummaryOrder(clients);
      SummaryOf(clients)
    }
  }
}
