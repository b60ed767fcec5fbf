# Transaction processor ledger, modelled in Dafny

This project models the core of a batch ledger replay engine. The engine
reads a log of client transactions: deposit, withdrawal, dispute, resolve
and chargeback. It applies them one by one and reports, for every client,
the available, held and total funds and whether the account is locked.

The core is the per-client state machine in `src/processor.rs`:

- **`Ledger`** (`ledger.dfy`) models `ClientData`.
  - A client's state is its history: a map from transaction id to a record
    `{amount, status}`. The status is `Processed`, `UnderDispute` or
    `ChargeBack`.
  - A deposit is stored with a positive amount and a withdrawal with a
    negative one.
  - The views `available`, `held` and `locked` become `Available`, `Held`
    and `Locked`. The first two are `SumWhere`: a recursive sum over the
    history in ascending id order. `Locked` is true when some record is
    `ChargeBack`. Balances are never stored. They are always recomputed from
    the history, as the source does.
  - Amounts are the source's fixed-point integers: a decimal amount times
    `Precision` (10 000). They are Dafny `int`.
- **`Processor`** (`processor.dfy`) models `TransactionsProcessor`.
  - `Step` is the specification of one transaction against one client's
    history. It gives the new history, or the error of the first guard that
    failed, checking the guards in the source's order.
  - `TransactionsProcessor` is a class with the field
    `clients: map<ClientId, History>`. Its method `Process` runs the same
    early-returning guard chain as the source. It first creates an empty
    history for an unseen client, then makes one write. Its postcondition
    ties the result and the new state to `Step`.
  - `Summary` and `SummaryOf` derive one `ClientSummary` per client, in
    ascending client id order.
- **`Replay`** (`replay.dfy`) models a whole log processed in order, one
  `Process` call per transaction. It proves these properties:
  - clients are independent of each other;
  - a locked client never changes again;
  - records are never removed and their amounts never change;
  - the final report has one line per client seen.

Incoming amounts are `Option<int>` values already in internal units. The
amount guards (`> 0`, `<= available`) are therefore stated on the scaled
integers.

The source and the specification disagree in one place. `src/models.rs`
declares `TransactionType` without `Chargeback` and gives `amount` the type
`f64`. `src/processor.rs`, however, matches on `TransactionType::Chargeback`
and reads `transaction.amount` as an `Option`. The model follows
`processor.rs`: it has five kinds and an optional amount.

## Model

| member | source | states |
|---|---|---|
| `Ledger.SortedIdsMembers` | src/processor.rs:196-212 | the sorted id list has exactly as many entries as there are clients, and each entry is a known client |
| `Ledger.SortedIdsComplete` | src/processor.rs:196-212 | every known client id appears in the sorted id list |
| `Ledger.SortedIdsAscending` | src/processor.rs:210-212 | the id list is strictly ascending (`sorted_by_key` on unique client ids) |
| `Ledger.SumWhereRemove` | src/processor.rs:45-64 | the sum over a status does not depend on the order the history is visited in (the source sums `HashMap` values in any order) |
| `Ledger.SumWhereUpdate` | src/processor.rs:45-64 | writing a record changes a status-filtered sum by exactly the new record's share minus the old record's share |
| `Ledger.SumWhereAbsent` | src/processor.rs:45-64 | a filter that matches no record sums to zero |
| `Ledger.SumWhereNonNegative` | src/processor.rs:55-64 | if every matching record is positive, the sum is non-negative, and it is zero exactly when nothing matches |
| `Ledger.HeldNonNegative` | src/processor.rs:55-64 | in a well-formed history (disputed and charged-back amounts positive, guard at line 169) held funds are >= 0, and 0 exactly when nothing is under dispute |
| `Ledger.LockedUpdate` | src/processor.rs:66-71 | writing one record into an unlocked history locks it exactly when that record is a chargeback |
| `Ledger.HeldWithoutDisputes` | src/processor.rs:55-64 | with nothing under dispute, held is 0 and total equals available |
| `Processor.Step` | src/processor.rs:116-192 | a locked client rejects everything with `AccountLocked`; a success only adds the named transaction id and leaves every other record as it was |
| `Processor.Apply` | src/processor.rs:116 | after processing, the named client is always known (the entry is created first); no other client's history changes; a failure leaves the history as it was |
| `Processor.DepositGuards` | src/processor.rs:121-131 | deposit guards in order: missing amount, non-positive amount, duplicate id; success iff all pass |
| `Processor.DepositEffect` | src/processor.rs:133-139 | a successful deposit inserts a `Processed` record of `+amount`, available rises by exactly `amount`, held is unchanged, the client stays unlocked |
| `Processor.WithdrawalGuards` | src/processor.rs:141-151 | withdrawal guards in order: missing amount, non-positive amount, amount > available, then duplicate id (insufficient funds is reported first); success iff all pass |
| `Processor.WithdrawalEffect` | src/processor.rs:153-160 | a successful withdrawal inserts a `Processed` record of `-amount`, available drops by exactly `amount` and stays >= 0, held is unchanged |
| `Processor.DisputeGuards` | src/processor.rs:162-169 | dispute guards in order: unknown id, status not `Processed` (also for `ChargeBack`), stored amount <= 0 (a withdrawal); success iff all pass |
| `Processor.DisputeEffect` | src/processor.rs:170 | a successful dispute marks the record `UnderDispute`; available falls and held rises by its amount; the total is unchanged |
| `Processor.SettleGuards` | src/processor.rs:172-187 | resolve and chargeback guards in order: unknown id, then status not `UnderDispute`; success iff both pass |
| `Processor.ResolveEffect` | src/processor.rs:179 | a successful resolve makes the record `Processed` again; its amount moves from held back to available; the total is unchanged |
| `Processor.ChargebackEffect` | src/processor.rs:188 | a successful chargeback marks the record `ChargeBack`; held and total fall by its amount; available is unchanged; the client is locked |
| `Processor.ResolveUndoesDispute` | src/processor.rs:162-180 | a resolve after a successful dispute of the same id succeeds and restores the history exactly |
| `Processor.StepStatusTransitions` | src/processor.rs:133-189 | records are never removed; new records start `Processed`; statuses move only Processed->UnderDispute, UnderDispute->Processed, UnderDispute->ChargeBack; `ChargeBack` records never change |
| `Processor.LockedOnlyByChargeback` | src/processor.rs:66-71 | an unlocked client becomes locked only through a successful chargeback |
| `Processor.StepPreservesWellFormed` | src/processor.rs:162-171 | every `UnderDispute` or `ChargeBack` record keeps a positive amount after any transaction |
| `Processor.ApplyPreservesWellFormed` | src/processor.rs:116-189 | processing keeps every client's history well-formed |
| `Processor.SummaryEntries` | src/processor.rs:196-209 | one report line per known client; each line is that client's snapshot, with `total == held + available` |
| `Processor.SummaryOrder` | src/processor.rs:210-212 | every known client has a line, and the lines are strictly ascending by client id |
| `Processor.SummaryHeldNonNegative` | src/processor.rs:200-206 | in a well-formed state no report line shows negative held funds |
| `Processor.TransactionsProcessor.constructor` | src/processor.rs:74-77 | a new processor knows no client |
| `Processor.TransactionsProcessor.Process` | src/processor.rs:112-193 | the result is `Step`'s verdict on the client's current history (empty if unseen); the new state is the old one with that client's entry set to the new history on success, or to the unchanged history on failure; other clients are untouched |
| `Processor.TransactionsProcessor.Summary` | src/processor.rs:196-213 | one line per known client, strictly ascending by id, each with `total == available + held` |
| `Replay.ForClient` | src/processor.rs:116 | the sub-log of one client keeps only that client's transactions, taken from the log |
| `Replay.ReplayIsolation` | src/processor.rs:116 | after any log, a client's history equals the result of processing only that client's transactions in order; other clients never affect it |
| `Replay.ReplayClients` | src/processor.rs:116 | after a log, the known clients are the ones known before plus every client the log mentions, even where every transaction failed |
| `Replay.ReplayPreservesWellFormed` | src/processor.rs:116-189 | every state reached from a well-formed state is well-formed |
| `Replay.ReplayedSummary` | src/processor.rs:196-213 | after a log processed from scratch, the report has one line per client mentioned, ascending by id, with held >= 0 and total = available + held; an empty log gives an empty report |
| `Replay.LockedIsFinal` | src/processor.rs:116-118 | a locked client's history never changes again, whatever it is sent |
| `Replay.ReplayKeepsRecords` | src/processor.rs:133-189 | over any log, records are never removed, their amounts never change, and `ChargeBack` records stay as they are |
| `Replay.DepositsHoldNothing` | src/processor.rs:121-139 | a log of deposits alone holds nothing, starting from a history with nothing under dispute |
| `Replay.ChargebackScenario` | src/processor.rs:936-1007 | deposit 100.0, dispute it, charge it back: available 0, held 0, locked, and every later transaction leaves the history unchanged |

## Left out

- The floating-point codec `f64_to_amount_type` / `amount_type_to_f64` (`src/processor.rs:11-17`) is left out. So are the `f64` comparisons `amount > 0.0` and `amount <= available()` (lines 126 and 145-146). Amounts enter already scaled and rounded to internal units, and the guards compare those integers. The source compares the unscaled `f64` input instead. So a positive amount below 0.00005 passes its guard at line 126 yet is stored as 0, and such a record then fails a dispute with `CannotDisputeWithdrawal`. The model does not capture this.
- Report values are in internal units. The division by 10 000 into `f64` for output is not modelled.
- The amounts and sums are `i64` in the source. The model uses unbounded integers, so overflow of a sum is not modelled.
- `Processor.TransactionsProcessor.Process` does not carry the object invariant "every history is well-formed" in its own contract. The invariant is proved about the state function it is specified by, in `ApplyPreservesWellFormed` and `ReplayPreservesWellFormed`.
- The error messages of the error type (its `thiserror` display strings) are not modelled, only the error kinds.
- `src/lib.rs` (CSV reading and writing, file I/O), `src/main.rs` (command line, logging, exit code) and `tests/process_transactions_tests.rs` (golden files on disk) are not part of this model. They are input and output glue.
- `src/models.rs` is replaced by `Transaction`, `TransactionType` and `ClientSummary` in `Processor`, which follow how `processor.rs` uses them.
- `HashMap` iteration order has no counterpart. Sums are proved independent of order (`SumWhereRemove`), and the report is sorted.
- A concurrent, client-sharded processor is not modelled. `ReplayIsolation` states the fact such a variant would rely on: splitting a log by client and processing each part on its own gives the same histories.
