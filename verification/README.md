# The money protocol of a payment platform, modelled and verified

The platform moves money between wallets through three services. `payments` runs
a saga per payment (debit the source, credit the destination, refund when the
credit is refused) and recovers interrupted ones; `accounts` holds wallets and
an append-only ledger keyed by wallet and idempotency key; `transactions` keeps
a downstream ledger fed from an outbox through a broker. Nothing is trusted:
processes die between any two statements, answers get lost, a request that timed
out may still arrive later, the advisory lock may be lost at any moment, messages
are delivered more than once.

The project models this as state machines over the services' own steps and proves
what holds in every reachable state of every run, and beside them the imperative
parts (handlers, repositories, loops, breaker) in place, each against the function
the proofs are about. `dafny verify dfyconfig.toml` checks everything.

## How it is built

| layer | modules |
|---|---|
| the aggregate and the handlers | `PaymentDomain` (lifecycle and the mutable payment), `WorkerProgram` (what a handler asks next, given each answer), `Handlers` (the handlers as written; each proved to hold exactly that program's dialogue, for every sequence of answers), `Transcripts` (that dialogue spelled out for a payment's three courses) |
| one payment | `SagaProtocol` (row, outbox, workers, requests on the wire, lock; the invariant), `SagaAnswers` (what every answer does to row, outbox and wire), `SagaGuarantees`, `SagaSettlement`, `SagaEndings` (what can still come to an end), `PaymentRepository` (version check), `Sessions` (joined transactions, the per-payment lock) |
| accounts | `AccountsLedger` (one movement at a time), `NumberExactness` (balances as JavaScript numbers), `WalletsService` (the tables changed in place), `AccountsRaces` and `AccountsContention` (concurrent callers statement by statement, shown serialisable) |
| the whole system | `PaymentWorld` (any number of payments over one accounts database), `MoneyConservation`, `WorldSettlement` and `LateDebit` (when settlement fails), `SettledRun` (a payment carried through), `UnusedNames`, `LedgerDelivery` (relays, broker, consumers, downstream ledger), `DroppedMessage`, `OutboxRelay`, `TransactionsService` |
| the front door | `IdempotentCreation`, `CanonicalText`, `References` |
| the call to accounts | `AccountsClient` (retry loop), `ClientProtocol` (that loop inside the payment protocol), `CircuitBreaker` |

`Wrappers`, `Sums` and `Powers` are shared helpers.

The layers are tied together by proof: a run of the system, seen from one payment,
is a run of that payment's protocol (`SystemRunIsProtocolRun`); a concurrent run of
accounts is a sequence of whole movements (`RacesAreSerial`); a commit of the
creation transaction is the system's creation step (`CommitInitiates`); the
repository's save is the protocol's commit (`CommitIsASave`); an iteration of the
relay loop is a relay of the delivery system (`IterationIsARelayRun`); a call of the
client is a run of the protocol's posts and give-ups (`CallIsAProtocolRun`).

## What the proofs showed

* **Money safety does not need the lock.** Conservation, the exclusion of credit
  and refund, the agreement of rows with the ledger and the bound of five saves per
  row all hold with the lock lost at any time: the version check and the idempotency
  keys carry them.
* **A declined payment may still be debited.** README.md:1085-1086 of the platform
  says that when the lookup finds no debit, nothing ever left the wallet. That is
  false: a debit request whose sender died may reach accounts after the lookup
  (`DeclinedMayStillBeDebited`, for every order, with the lock never lost; in the whole
  system, `SettlementNeedsQuietLookups`: all payments terminal, money missing). The exact
  condition is `DeclineIsFinalExactly`, and with accounts deciding by its ledger
  `DeclineIsFinalInTheWorld`: a frozen, short or missing wallet does not make a decline
  final, only one of another currency does. With quiet lookups every terminal payment is
  settled (`TerminalMeansEven`, `AllTerminalMeansAllSettled`), and with the lock kept
  the only culprit is a request still on the wire (`LockMakesLookupsQuiet`).
* **A decline carries the reason it was given.** A declined payment's reason is that of a
  refusal its run handed over, or "accounts unavailable" after a lookup that found no
  debit, and nothing else (`DeclineReasonWasGiven`). A lost version check in the catch
  block never gets as far as a row.
* **A refusal by accounts does not mean the movement is unrecorded**
  (`RefusedThoughRecorded`): a new key is unrecorded exactly when no other caller of it
  has been accepted (`RefusedExactlyUnlessAnother`). A refusal that
  reaches a handler is conclusive all the same, because the client passes one on only
  when it answers the call's only POST (`RefusalIsConclusive`).
* **"Request in progress" is never answered** in the modelled protocol
  (`NobodyIsToldToWait`). DECISIONS.md:337 says that a racing duplicate gets a 409;
  in the code it waits for the first transaction and then replays or takes over, as
  README.md:1103 describes.
* **A malformed user reference in a payment's metadata loses its ledger rows.** The
  creation request does not look at it, the consumer does: the message is published,
  acknowledged and dropped (`MalformedUserLosesItsRows`, for every order the platform
  accepts with such a user). Nothing else can spoil a message (`ArrivalExactly`).
* **One relay pass may send a row twice.** An emit that times out counts as failed even
  if the broker accepted it, and a pass of several timeouts outlasts the row's backoff
  (`SilentBrokerSendsTwice`; exactly when, `SentTwiceExactly`). The consumer's unique
  constraint absorbs it (`NoMovementTwice`).
* **The bound on exact balances is tight.** 9007 credits of the largest amount are safe,
  9008 need not be (`OneMoreCreditIsTooMany`).
* **An error caught inside a joined transaction undoes nothing**
  (`JoiningIsNotNesting`), and a failed statement caught there undoes everything in
  silence (`CaughtStatementLosesEverything`); no caller in the modelled code does either.
* **An opening balance need not be a multiple of the amount step.** create-wallet.request.ts:36-43
  of accounts says it is, but its checks (47-51) do not look; the model follows the checks.
* **A debited payment can be stranded, and it is known exactly when**: once nothing of its
  credit is recorded, on the wire or with a worker, it stays Processing for good
  (`DoubtCanEndExactly`). That is by design; an owed refund never gets stuck
  (`RefundCanAlwaysComplete`).

## Reading the model

Time passes by choice of the environment: attempts and retries happen in any order
and number. What a worker does next is always said for any number of steps of everybody
else in between (`SagaAnswers.Meanwhile`), and a save always with the version it needs:
from any other it changes nothing. `Posted` is what accounts has recorded for a payment, one reference per
leg. In `SagaProtocol` accounts may refuse any request at any time, which covers every
reason it has; in `PaymentWorld` it applies and replays only what its ledger allows.
Generated references, of payments, wallets and entries, are whatever the environment
says as long as they are well formed and unused: the generator is random and the unique
indexes see to the rest. So a wallet that does not exist yet may be opened later under
the very name a payment already cites; that a missing wallet does not make a decline
final rests on that alone. Amounts, keys and orders are those the services' own checks
let through; currencies are not limited to the one in use today.
Movement keys are structured values there; that their texts are as distinct is
`MovementKeysAreInjective`. The request hash is its canonical text, that is, SHA-256 is
taken as free of collisions, and the comparison of key names as a strict total order.

## Model

| member | source | states |
|---|---|---|
| PaymentDomain.LifecycleIsWellFounded | services/payments/src/domain/model/payment-status.ts:11-33 | a status is terminal exactly when the table allows no way out of it, and every allowed transition lowers a measure, so no lifecycle is endless |
| PaymentDomain.Payment.DoMarkProcessing | services/payments/src/domain/model/payment.ts:110-112 | succeeds exactly from Pending, changing the status alone; otherwise the object is untouched |
| PaymentDomain.Payment.DoMarkDebited | services/payments/src/domain/model/payment.ts:115-119 | stores the debit reference exactly while Processing and moves nothing else |
| PaymentDomain.Payment.DoApprove | services/payments/src/domain/model/payment.ts:121-134 | approves exactly a Processing payment with a debit reference, with one event carrying both references; without a debit reference it throws with status and credit already overwritten, and no event |
| PaymentDomain.Payment.DoDecline | services/payments/src/domain/model/payment.ts:136-141 | declines exactly from Pending or Processing, with the reason given and one event, or leaves the object unchanged |
| PaymentDomain.Payment.DoCompensate | services/payments/src/domain/model/payment.ts:144-152 | compensates exactly from Processing or CompensationPending, keeping an earlier failure reason and adding one event, or leaves the object unchanged |
| PaymentDomain.Payment.DoMarkCompensationPending | services/payments/src/domain/model/payment.ts:158-161 | a refund becomes owed, silently, only from Processing |
| PaymentDomain.Payment.PullEvents | services/payments/src/domain/model/payment.ts:185-189 | events are handed over once |
| PaymentDomain.Payment.Restore | services/payments/src/domain/model/payment.ts:81-105 | rehydration of a valid row gives back exactly the stored snapshot and replays no event |
| Handlers.DebitSourceWallet | services/payments/src/application/handlers/commands/debit-source-wallet.handler.ts:40-107 | for every sequence of answers, asks for exactly what the debit part of the program asks for, and returns normally exactly when the credit step is next; what that part does on each answer is SagaAnswers.GrantedDebit, RefusedDebit and UnclearDebit |
| Handlers.SendDebitAndRecord | services/payments/src/application/handlers/commands/debit-source-wallet.handler.ts:54-106 | the try block and its catch hold the dialogue of the program from the debit request on: a debit is recorded, a refusal declines for its own reason (Transcripts.RefusedDebitCourse), anything unclear leaves the payment Processing |
| Handlers.RecordDebit | services/payments/src/application/handlers/commands/debit-source-wallet.handler.ts:62-63 | a lost version check while recording the debit ends in the catch block and asks for one more save |
| Handlers.DeclineInCatchBlock | services/payments/src/application/handlers/commands/debit-source-wallet.handler.ts:95-99 | the catch block declines with the refusal's reason and enqueues the one declined event in the same save |
| Handlers.CreditDestinationWallet | services/payments/src/application/handlers/commands/credit-destination-wallet.handler.ts:46-101 | same for the credit step: it ends the run or throws into recovery, exactly as the program says; what the program does on each answer is SagaAnswers.GrantedCredit, RefusedCredit and UnclearCredit |
| Handlers.SendCreditAndSettle | services/payments/src/application/handlers/commands/credit-destination-wallet.handler.ts:57-100 | the dialogue of the program from the credit request on: a refusal is saved as an owed refund before anything is sent back (Transcripts.RefusedCreditCourse), a success as an approval, anything unclear as neither |
| Handlers.SaveRefusal | services/payments/src/application/handlers/commands/credit-destination-wallet.handler.ts:69-82 | a refused credit is saved as an owed refund and always ends in recovery |
| Handlers.SaveApproval | services/payments/src/application/handlers/commands/credit-destination-wallet.handler.ts:84-90 | the approval, both ledger messages and the event are one save |
| Handlers.CompensatePayment | services/payments/src/application/handlers/commands/compensate-payment.handler.ts:41-127 | for every sequence of answers, recovery asks for exactly what the recovery program asks for |
| Handlers.DecideAndRefund | services/payments/src/application/handlers/commands/compensate-payment.handler.ts:70-127 | the refund decision is saved before the refund is sent |
| Handlers.Refund | services/payments/src/application/handlers/commands/compensate-payment.handler.ts:77-117 | a granted refund is saved with one REFUND message and the compensated event; any failure leaves the payment owing |
| Handlers.ConfirmDebit | services/payments/src/application/handlers/commands/compensate-payment.handler.ts:177-219 | found debit: recorded and confirmed; absent: declined; unreadable: untouched |
| Handlers.ReconcileCredit | services/payments/src/application/handlers/commands/compensate-payment.handler.ts:129-171 | a Processing payment with a debit is approved on a found credit and never refunded on an absent one |
| Handlers.RunSaga | services/payments/src/application/sagas/payment.saga.ts:28-51 | debit, then credit, then recovery when the credit step throws: together the whole program's dialogue |
| Handlers.TurnsEnd | services/payments/src/application/sagas/payment.saga.ts:28-51 | every answer brings a run nearer its end: no run asks for ever |
| Transcripts.SettledCourse | services/payments/src/application/handlers/commands/credit-destination-wallet.handler.ts:46-100 | debit and credit made: the whole dialogue of the saga, want by want, ending in the save of the approval with its three messages |
| Transcripts.RefusedDebitCourse | services/payments/src/application/handlers/commands/debit-source-wallet.handler.ts:73-106 | debit refused: one save more, with the refusal's own reason in row and event, and nothing after it |
| Transcripts.RefusedCreditCourse | services/payments/src/application/handlers/commands/credit-destination-wallet.handler.ts:69-82 | credit refused: the owed refund is saved, read again, requested and recorded, in this order |
| SagaProtocol.InvInit | services/payments/src/application/handlers/commands/initiate-payment.handler.ts:35-58 | a freshly created payment satisfies the protocol's invariant |
| SagaProtocol.StepKeeps | services/payments/src/application/handlers/commands/compensate-payment.handler.ts:41-219 | every step of saga, recovery, network, crash or lock loss keeps the invariant: row shape by version, outbox by status, one sender, untouched legs, conclusive first attempts |
| SagaProtocol.SagaSave | services/payments/src/application/handlers/commands/debit-source-wallet.handler.ts:51-99 | a saga save that passes the version check is safe for the row, for every other worker and for the worker's next step |
| SagaProtocol.RecoverySave | services/payments/src/application/handlers/commands/compensate-payment.handler.ts:66-117 | the same for the saves of recovery |
| SagaGuarantees.PositionFollowsVersion | services/payments/src/infrastructure/persistence/typeorm-payment.repository.ts:22-46 | in every reachable state the version (1 to 5) fixes the lifecycle position, and the status fixes the outbox contents exactly |
| SagaGuarantees.TerminalRowsAreFrozen | services/payments/src/domain/model/payment-status.ts:29-33 | once terminal, neither row nor outbox ever changes, whatever stale workers still try |
| SagaGuarantees.StepVersion | services/payments/src/infrastructure/persistence/typeorm-payment.repository.ts:36-45 | one step raises the version by at most one, never out of a terminal state, never back from a refund decision |
| SagaGuarantees.RowsAgreeWithLedger | services/payments/src/application/handlers/commands/credit-destination-wallet.handler.ts:57-90 | Approved means debit and credit recorded and no refund; Compensated debit and refund and no credit; CompensationPending a debit and no credit; every stored reference is the ledger's own; never credit or refund without debit, never both |
| SagaGuarantees.RefundExcludesCredit | services/payments/src/application/handlers/commands/compensate-payment.handler.ts:59-75 | from the moment a refund is being requested the credit is not recorded and never will be, with the lock lost at will |
| SagaGuarantees.CreditExcludesRefund | services/payments/src/application/handlers/commands/compensate-payment.handler.ts:63-68 | once a credit is recorded no refund is ever requested, on its way or recorded |
| SagaGuarantees.RefusalIsConclusive | services/payments/src/infrastructure/http/accounts.http-client.ts:156-219 | a named refusal handed to the debit or credit handler means that leg is never recorded in the rest of any run |
| SagaGuarantees.OneSenderPerPayment | services/payments/src/application/handlers/commands/debit-source-wallet.handler.ts:48-52 | at most one run ever sends a payment's debit and credit |
| SagaAnswers.SagaBegins | services/payments/src/application/handlers/commands/debit-source-wallet.handler.ts:40-60 | a started saga reads the row; a Pending one is saved as Processing and its debit requested, any other ends the run |
| SagaAnswers.GrantedDebit | services/payments/src/application/handlers/commands/debit-source-wallet.handler.ts:54-72 | from any reachable state, a debit granted is saved from version 2 under its own reference, and while the row stays so the credit is requested next |
| SagaAnswers.RefusedDebit | services/payments/src/application/handlers/commands/debit-source-wallet.handler.ts:73-106 | a debit refused is saved from version 2 as declined for exactly that reason with one event saying so, and the run is over |
| SagaAnswers.UnclearDebit | services/payments/src/application/handlers/commands/debit-source-wallet.handler.ts:78-93 | no answer, an open circuit or a refusal after a failed attempt leaves row and outbox alone and ends the run |
| SagaAnswers.DeclineReasonWasGiven | services/payments/src/application/services/failure-reason.ts:4-18 | every declined row was declined for the reason of a refusal the run handed over, or for "accounts unavailable" by a recovery that found no debit |
| SagaAnswers.CreditReads | services/payments/src/application/handlers/commands/credit-destination-wallet.handler.ts:46-60 | the credit step ends on an Approved row, requests the credit on a debited one and goes to recovery on any other |
| SagaAnswers.GrantedCredit | services/payments/src/application/handlers/commands/credit-destination-wallet.handler.ts:84-100 | a credit granted is saved from version 3 as an approval with both ledger messages and the event, and the run is over |
| SagaAnswers.RefusedCredit | services/payments/src/application/handlers/commands/credit-destination-wallet.handler.ts:69-82 | a credit refused is saved from version 3 as an owed refund, the refund is requested next, and the payment can come to be compensated |
| SagaAnswers.RefusedCreditIsOwed | services/payments/src/application/handlers/commands/credit-destination-wallet.handler.ts:69-82 | in any run: the step that hands over a credit refusal to a payment at version 3 is followed by the save of the owed refund, version 4, from where Compensated can be reached |
| SagaAnswers.UnclearCredit | services/payments/src/application/handlers/commands/credit-destination-wallet.handler.ts:69-82 | no answer, an open circuit or a refusal after a failed attempt changes nothing and goes to recovery |
| SagaAnswers.RecoveryReads | services/payments/src/application/handlers/commands/compensate-payment.handler.ts:41-75 | recovery goes by the row it reads: over for Pending and terminal ones, the refund requested for an owed one, the debit looked up (found: recorded, owed, refund requested; absent: declined), the credit looked up (found: approved; absent: left alone) |
| SagaAnswers.GrantedRefund | services/payments/src/application/handlers/commands/compensate-payment.handler.ts:103-117 | a refund granted is saved from version 4 with its ledger message and its event, and the run is over |
| SagaAnswers.FailedRefund | services/payments/src/application/handlers/commands/compensate-payment.handler.ts:87-101 | a refund refused or unclear leaves the payment owing and ends the run |
| SagaAnswers.BrokenStep | services/payments/src/application/sagas/payment.saga.ts:28-51 | a statement that breaks, committed or not, sends the credit step to recovery and ends any other run |
| SagaAnswers.LostVersionCheck | services/payments/src/application/handlers/commands/debit-source-wallet.handler.ts:73-99 | a save turned away by the version check changes nothing; the credit step goes to recovery, a recorded debit is tried once more as a decline from the same revision, anything else is over |
| SagaAnswers.RetryAsksAgain | services/payments/src/infrastructure/http/accounts.http-client.ts:156-219 | a retry requests the same leg again, and from then on no refusal counts |
| SagaAnswers.RequestIsAnswered | services/payments/src/infrastructure/http/accounts.http-client.ts:156-219 | what accounts does with a request, applied, replayed, refused or lost, is what its sender hears of it and what is recorded |
| SagaSettlement.DeclinedMayStillBeDebited | services/payments/src/application/handlers/commands/compensate-payment.handler.ts:208-218 | for every order, a run that never loses the lock and ends with a declined row and a recorded debit |
| SagaSettlement.DeclineIsFinalExactly | services/payments/src/application/handlers/commands/compensate-payment.handler.ts:177-219 | with accounts free to accept whatever arrives: in a reachable declined state, no movement is ever recorded if and only if the debit is not recorded, not on the wire, and no worker is at the point of sending it |
| SagaSettlement.LookupDecidesExactly | services/payments/src/application/handlers/commands/compensate-payment.handler.ts:177-219 | likewise at the lookup that finds no debit: no continuation declines and still debits if and only if the lookup met no debit on the wire and no worker about to send one |
| WorldSettlement.DeclineIsFinalInTheWorld | services/payments/src/application/handlers/commands/compensate-payment.handler.ts:208-218 | with accounts deciding by its own ledger: a declined payment is never debited if it is not debited yet and either nothing of its debit is on the wire or about to be sent, or its source wallet has another currency; and only then, as long as the generator has names left, which every run shorter than 32^10 - 20 steps leaves it |
| WorldSettlement.LookupDecidesInTheWorld | services/payments/src/application/handlers/commands/compensate-payment.handler.ts:177-219 | the same condition, both ways, at the deciding lookup: frozen or short wallets do not make a decline final |
| SagaSettlement.DebitCanStillHappen | services/payments/src/application/handlers/commands/debit-source-wallet.handler.ts:54-63 | whenever that condition fails, a run exists that records the debit, if accounts accepts it |
| WorldSettlement.LateDebitIsPossible | services/accounts/src/wallets/repositories/wallet.repository.ts:38-68 | and accounts can be brought to accept it by opening, unfreezing and paying into the wallet, with unused well-formed names and references throughout, unless its currency differs |
| UnusedNames.RunUsesFewNames | services/payments/src/domain/model/reference.ts:28-45 | a run uses up at most one name of each family per step |
| References.UnusedName | services/payments/src/domain/model/reference.ts:28-45 | while fewer than 32^10 references are in use, one that `generate` can return is not |
| SagaEndings.RefundCanAlwaysComplete | services/payments/src/application/handlers/commands/compensate-payment.handler.ts:70-117 | from every reachable state an owed refund can still be completed, if accounts grants it: no crash, lost answer or held lock stands in its way |
| SagaEndings.DoubtCanEndExactly | services/payments/src/application/handlers/commands/compensate-payment.handler.ts:129-171 | a Processing payment with a recorded debit can still come to an end if and only if its credit is recorded, on the wire, or with a worker that can still send it or was told it is refused; otherwise its row never changes again |
| SagaSettlement.TerminalMeansEven | services/payments/src/application/handlers/commands/compensate-payment.handler.ts:177-219 | if every absent-debit lookup meets no debit in flight and no saga able to send one, a terminal payment is settled for ever, and a declined one never moved anything |
| SagaSettlement.RunKeepsLock | services/payments/src/infrastructure/persistence/postgres-payment-execution.ts:19-45 | while the lock is not lost, at most one worker of a payment is alive and it holds the lock |
| SagaSettlement.LockMakesLookupsQuiet | services/payments/src/infrastructure/persistence/postgres-payment-execution.ts:19-45 | with the lock kept, the settlement hypothesis shrinks to: no debit still on the wire at the lookup |
| PaymentRepository.Repository.Save | services/payments/src/infrastructure/persistence/typeorm-payment.repository.ts:22-46 | inserts version 1 unless the reference or transaction id is taken, updates snapshot and version alone if the row still has the version the object remembers, and otherwise changes nothing; the remembered revision follows exactly the successful saves |
| PaymentRepository.Repository.FindByReference | services/payments/src/infrastructure/persistence/typeorm-payment.repository.ts:48-57 | a fresh object equal to the row and tied to the row's version |
| PaymentRepository.Repository.RecordRecoveryAttempt | services/payments/src/infrastructure/persistence/typeorm-payment.repository.ts:64-76 | counts the attempt and sets the next one, leaving snapshot and version alone, so it never makes a save conflict |
| PaymentRepository.RecoveryDelay | services/payments/src/infrastructure/persistence/typeorm-payment.repository.ts:64-76 | the delay is the least of 3600 and 60 times 2 to the attempts made before, in seconds |
| PaymentRepository.LoseTheRace | services/payments/src/infrastructure/persistence/typeorm-payment.repository.ts:22-46 | of two objects read from one row the first save wins and the second fails |
| PaymentRepository.EachRevisionIsUsedOnce | services/payments/src/infrastructure/persistence/typeorm-payment.repository.ts:36-45 | in any sequence of save attempts no two succeed from the same revision: no lost update |
| PaymentRepository.CommitIsASave | services/payments/src/infrastructure/persistence/typeorm-payment.repository.ts:36-45 | the protocol's commit step is this save, its messages enqueued exactly when the guard passes |
| Sessions.NothingLeaks | services/payments/src/infrastructure/persistence/postgres-payment-execution.ts:19-45 | however nested work ends, every lock it took is released and the ambient state is as before |
| Sessions.OnlyTheOutermostCommits | services/payments/src/infrastructure/persistence/transaction-context.ts:22-27 | inside a transaction nothing is committed, whatever runs and however it is nested |
| Sessions.AllOrNothing | services/payments/src/infrastructure/persistence/transaction-context.ts:29-40 | an outermost transaction commits exactly its final view or leaves the database untouched |
| Sessions.JoiningIsNotNesting | services/payments/src/infrastructure/persistence/transaction-context.ts:23-27 | a joined transaction is no savepoint: an error caught inside leaves its writes to be committed |
| Sessions.CaughtStatementLosesEverything | services/payments/src/infrastructure/persistence/transaction-context.ts:22-41 | a failed statement caught inside a joined transaction aborts all of it, and the outer run reports success with nothing written |
| Sessions.LockedOut | services/payments/src/infrastructure/persistence/postgres-payment-execution.ts:26-31 | a lock held by another flow turns the work away before it has done anything |
| Sessions.OwnLockIsJoined | services/payments/src/infrastructure/persistence/postgres-payment-execution.ts:19-21 | under its own lock a flow may ask for it again anywhere in its work and any number of times: the outcome is that of the work without those requests |
| Sessions.LockingTwiceIsLockingOnce | services/payments/src/application/sagas/payment.saga.ts:24-51 | asking for one's own lock twice is asking for it once, which is how every saga command nests |
| Sessions.FreeLockAddsNothing | services/payments/src/infrastructure/persistence/postgres-payment-execution.ts:19-45 | work under a free lock, with all its nested requests for that lock, ends in the same session and with the same result as the work without any of them |
| Sessions.Runner.RunTransaction | services/payments/src/infrastructure/persistence/transaction-context.ts:22-41 | the runner in place does what the evaluation of nested work says |
| Sessions.Runner.RunExclusive | services/payments/src/infrastructure/persistence/postgres-payment-execution.ts:19-45 | the runner in place does what the evaluation says: joins its own reference (Sessions.LockingTwiceIsLockingOnce), refuses one held elsewhere, adds nothing when free (Sessions.FreeLockAddsNothing), releases on every exit |
| AccountsLedger.LedgerExplainsBalance | services/accounts/src/wallets/wallets.service.ts:161-204 | after any sequence of openings, freezes and movements: one entry per key, entries chained from 0, balance equal to their signed sum and at or above the reserved amount |
| AccountsLedger.VerdictIsReadOffColumns | services/accounts/src/wallets/wallets.service.ts:123-249 | which verdict a movement gets, read off the columns of wallet and entry: each refusal exactly when it is due, and the accepted entry in every field |
| AccountsLedger.TransactionVerdict | services/accounts/src/wallets/wallets.service.ts:161-204 | the same inside the transaction, where the guard comes before the key: a recorded movement is still refused when the wallet would not let it through again |
| NumberExactness.BalancesStayExact | services/accounts/src/wallets/wallets.service.ts:185-199 | up to the 9007th credit of at most AMOUNT_MAX both balances of every entry lie in 0 to 2^53 - 1, reading one back as a number is exact, and subtracting the delta in numbers gives the true balance before |
| NumberExactness.OneMoreCreditIsTooMany | services/accounts/src/wallets/repositories/wallet.repository.ts:57-67 | the bound is tight: for every well-formed wallet name a run of valid operations, each with a key and a reference of its own, that makes 9008 credits and would store the last balance before one too large |
| NumberExactness.SafeIntegersAreExact | packages/shared/src/persistence/bigint.transformer.ts:1-9 | rounding to the nearest double leaves every integer of magnitude below 2^53 alone |
| NumberExactness.NearestIsNearest | packages/shared/src/persistence/bigint.transformer.ts:1-9 | the rounded number is a double, none is nearer, and of two equally near ones it is the even one |
| NumberExactness.SpacingFits | packages/shared/src/persistence/bigint.transformer.ts:1-9 | neighbouring doubles lie a power of two apart, as a 53-bit significand makes them |
| AccountsRaces.StepRefinesApply | services/accounts/src/wallets/wallets.service.ts:161-204 | in a concurrent run only the ledger insert changes committed data, and it does what a whole movement does at that moment |
| AccountsRaces.StepKeepsDatabase | services/accounts/src/wallets/wallets.service.ts:123-204 | every statement of every caller, rollbacks and deaths included, keeps wallets, ledger, index and row locks consistent |
| AccountsContention.RacesAreSerial | services/accounts/src/wallets/wallets.service.ts:123-159 | any interleaving commits what one whole movement after another would, in commit order |
| AccountsContention.RacesKeepTheLedger | services/accounts/src/wallets/wallets.service.ts:123-204 | the ledger story holds for every wallet after every interleaving |
| AccountsContention.AcceptedMeansRecorded | services/accounts/src/wallets/wallets.service.ts:210-230 | an accepted caller holds the one entry under its key, for the operation it asked for |
| AccountsContention.ContentionCount | services/accounts/src/wallets/repositories/wallet.repository.ts:38-68 | N debits of one amount with distinct keys: every complete interleaving approves exactly min(N, available div amount) and takes exactly that many amounts |
| AccountsContention.RefusedThoughRecorded | services/accounts/src/wallets/wallets.service.ts:170-184 | whenever a wallet covers a debit once, two callers of its key can end with one entry recorded and the other caller refused |
| AccountsContention.RefusedExactlyUnlessAnother | services/accounts/src/wallets/wallets.service.ts:123-184 | in any run the key of a refused caller is recorded if and only if it was before, or another caller of that key has been accepted |
| AccountsContention.OnlyCallersRefusalIsConclusive | services/accounts/src/wallets/wallets.service.ts:123-184 | so a refusal of the only caller of a new key means nothing is recorded under it |
| WalletsService.WalletsDatabase.MoveBalance | services/accounts/src/wallets/repositories/wallet.repository.ts:38-68 | moves the balance exactly when wallet, status, currency and available balance allow |
| WalletsService.WalletsDatabase.ApplyMovement | services/accounts/src/wallets/wallets.service.ts:123-159 | column by column: a recorded key answers with its entry, or a conflict if the operation differs; a new one is refused as not found, frozen, of another currency or short, in this order, each exactly when it is so, and otherwise moves balance and ledger together; a refusal changes nothing |
| WalletsService.WalletsDatabase.Create | services/accounts/src/wallets/wallets.service.ts:43-84 | a wallet opens active and empty, or with the one ledger entry that explains its balance, and touches nothing else |
| WalletsService.WalletsDatabase.FindMovement | services/accounts/src/wallets/wallets.service.ts:103-109 | a missing wallet is an error, never an absent movement; otherwise exactly the entry under the key |
| WalletsService.ReplayIsIdempotent | services/accounts/src/wallets/wallets.service.ts:210-230 | an accepted request replayed after anything else changes nothing and returns the same entry |
| PaymentWorld.TakeKeeps | services/accounts/src/wallets/wallets.service.ts:123-204 | every step of the whole system keeps accounts consistent, every entry explained by an opening or a payment's leg, and every payment's invariant |
| PaymentWorld.ActShowsInOneView | services/payments/src/domain/model/payment.ts:192-194 | a step of one payment shows in its own view of the ledger and in no other's |
| MoneyConservation.NoRunCreatesMoney | services/payments/src/application/handlers/commands/compensate-payment.handler.ts:41-127 | in every reachable state, per currency: balances plus amounts debited and neither credited nor refunded equal the opening balances, and what is in transit is never negative |
| MoneyConservation.SystemRunIsProtocolRun | services/payments/src/application/sagas/payment.saga.ts:24-51 | any system run, seen from one payment, is a run of that payment's protocol |
| MoneyConservation.AllTerminalMeansAllSettled | services/payments/src/application/handlers/commands/compensate-payment.handler.ts:177-219 | with quiet lookups, once all payments are terminal the wallets hold exactly what they were opened with |
| LateDebit.SettlementNeedsQuietLookups | services/payments/src/application/handlers/commands/compensate-payment.handler.ts:208-218 | without that hypothesis settlement fails: for every valid order and any two generated references a system run, lock never lost, ends with every payment terminal and the wallets short by exactly the amount |
| MoneyConservation.EveryRowAgrees | services/payments/src/application/handlers/commands/compensate-payment.handler.ts:103-171 | in every reachable state of the system every row agrees with the accounts ledger |
| MoneyConservation.RecordedLegsAreEntries | services/accounts/src/wallets/wallets.service.ts:210-230 | a recorded leg is an entry under its own key in the log of the destination for a credit and of the source otherwise, a debit for the debit leg alone, with the payment's own amount and currency |
| MoneyConservation.StoredReferenceNamesOneEntry | services/accounts/src/wallets/entities/ledger-entry.entity.ts:16-19 | a movement reference stored in a payment's row names that payment's entry for that leg and no other entry of any wallet |
| AccountsLedger.RunKeepsReferences | services/accounts/src/wallets/entities/ledger-entry.entity.ts:16-19 | over all wallets together a reference names one entry, after any run |
| MoneyConservation.SystemRefundExcludesCredit | services/payments/src/application/handlers/commands/compensate-payment.handler.ts:59-75 | exclusion of credit after a refund request, among any number of concurrent payments |
| LedgerDelivery.NoMovementIsLost | services/payments/src/infrastructure/messaging/outbox.relay.ts:42-92 | a committed ledger message with a valid payload is always unpublished, queued or in the downstream ledger |
| LedgerDelivery.NoMovementTwice | services/transactions/src/transactions/transactions.service.ts:60-92 | no transaction_id is ever in the ledger twice |
| LedgerDelivery.LedgerTellsTheTruth | services/payments/src/application/handlers/commands/credit-destination-wallet.handler.ts:84-122 | each ledger row comes from a committed outbox row and matches, field by field, the entry accounts made for that leg: wallet, direction, amount, currency, id and user; REFUND rows only for Compensated, DEBIT and CREDIT rows only for Approved payments |
| LedgerDelivery.OnlyTheUserCanSpoilAMessage | services/payments/src/infrastructure/messaging/transactions.outbox-adapter.ts:19-42 | a message passes the consumer's validation if and only if the payment's user reference is absent or well formed |
| LedgerDelivery.MalformedIsDropped | services/transactions/src/transactions/transactions.events-controller.ts:42-52 | a malformed message never reaches the ledger |
| DroppedMessage.MalformedUserLosesItsRows | services/payments/src/infrastructure/messaging/transactions.outbox-adapter.ts:28-33 | for every order the platform accepts with a malformed user, and any three references the generator gives the entries, a run that ends Approved with either of its ledger rows published, its message gone from the queue, absent from the ledger and unable to get there |
| LedgerDelivery.ArrivalExactly | services/payments/src/infrastructure/messaging/transactions.outbox-adapter.ts:19-42 | from a reachable state a committed movement can still reach the ledger if and only if the payment's user is absent or well formed |
| LedgerDelivery.LedgerOnlyGrows | services/transactions/src/transactions/repositories/transaction.repository.ts:18-28 | the downstream ledger is append-only |
| LedgerDelivery.EveryMovementCanArrive | services/payments/src/infrastructure/operations/payment-operations.ts:26-39 | from every reachable state a committed valid movement can still reach the ledger: no lost confirmation, dead relay or exhausted row strands it |
| LedgerDelivery.ChangeKeeps | services/transactions/src/transactions/transactions.events-controller.ts:26-79 | every step of relays, broker, consumers and payments keeps the delivery invariant |
| OutboxRelay.Relay.PublishBatch | services/payments/src/infrastructure/messaging/outbox.relay.ts:42-92 | the bounded loop in place does exactly one pass: oldest eligible row first, mark on a heard acceptance, back off on failure or timeout, stop on a database error |
| OutboxRelay.Relay.Drain | services/payments/src/infrastructure/messaging/outbox.relay.ts:27-40 | an overrunning pass is not joined, and the flag is reset whatever happens |
| OutboxRelay.PassMarksExactlyWhatItHeard | services/payments/src/infrastructure/messaging/outbox.relay.ts:42-92 | a pass leaves published rows and all messages alone, marks exactly the rows whose acceptance it heard, sends exactly the rows the broker took, heard or not, and never exceeds ten attempts |
| OutboxRelay.SentTwiceExactly | services/payments/src/infrastructure/messaging/outbox.relay.ts:43-77 | one pass sends a row twice if and only if the broker takes it in an emit the relay counts as failed and takes it again in a later iteration that reaches it |
| OutboxRelay.ReachedAgainExactly | services/payments/src/infrastructure/messaging/outbox.relay.ts:47-67 | a failed row is taken up again exactly when its backoff is over, attempts are left, no other relay holds it and no older row is eligible |
| OutboxRelay.QuickOrHeardPassSendsOnce | services/payments/src/infrastructure/messaging/outbox.relay.ts:43-77 | a pass sends no row twice if no acceptance goes unheard, or if it is over within two seconds of every failed emit |
| OutboxRelay.SilentBrokerSendsTwice | services/payments/src/infrastructure/messaging/outbox.relay.ts:56-77 | it does happen: two fresh rows and a broker that accepts the first in silence for the five seconds of the timeout, and the first row is sent twice |
| OutboxRelay.IterationIsARelayRun | services/payments/src/infrastructure/messaging/outbox.relay.ts:44-89 | one iteration, its unheard acceptance included, is a claim, a publication and a mark or a death of a relay in the delivery system, with the same row state after it |
| OutboxRelay.Relay.PublishOne | services/payments/src/infrastructure/messaging/outbox.relay.ts:54-88 | one row, column by column: marked on a heard acceptance, one attempt more and a backoff from the time of the failure otherwise, untouched after a database error |
| OutboxRelay.PassStopsOnlyFor | services/payments/src/infrastructure/messaging/outbox.relay.ts:42-92 | a pass stops before its fiftieth row for two reasons only: a database error, or no eligible row |
| OutboxRelay.BackoffDoubles | services/payments/src/infrastructure/messaging/outbox.relay.ts:61-69 | the backoff doubles with every failure from one second and stops at an hour |
| TransactionsService.LedgerService.Record | services/transactions/src/transactions/transactions.service.ts:60-92 | whatever other deliveries commit in between and whichever statement fails: appended once, or the stored row returned, or an error with nothing appended |
| TransactionsService.LedgerService.OnTransactionRecorded | services/transactions/src/transactions/transactions.events-controller.ts:26-79 | a valid message goes back to the queue exactly when a statement that is reached fails: the lookup always, the insert only for an unknown id, the fallback lookup only after losing the race; an acknowledged valid one is in the ledger |
| TransactionsService.HolderIsUnique | services/transactions/src/transactions/transactions.service.ts:60-92 | under the unique constraint a transaction_id names one row |
| IdempotentCreation.KeysAndPaymentsCorrespond | services/payments/src/application/services/idempotency.service.ts:34-50 | in every reachable committed state keys and payments correspond one to one and no key is seen in progress |
| IdempotentCreation.OneKeyOneAnswer | services/payments/src/application/services/idempotency.service.ts:52-66 | all callers of a key that get a reference get the same one, for the same request text |
| IdempotentCreation.SagaStartsAtMostOnce | services/payments/src/application/handlers/commands/initiate-payment.handler.ts:61-64 | of all callers of a key at most one starts the saga |
| IdempotentCreation.NobodyIsToldToWait | services/payments/src/application/services/idempotency.service.ts:54-64 | the in-progress error is never thrown |
| IdempotentCreation.PaymentIsAsAsked | services/payments/src/application/handlers/commands/initiate-payment.handler.ts:35-58 | whoever is told of a payment created finds it as asked for, in every column, whatever has been committed since |
| IdempotentCreation.FirstRequestCreates | services/payments/src/application/handlers/commands/initiate-payment.handler.ts:31-65 | from every reachable state an acceptable request under a key nobody has claimed can go all the way to its payment and its saga |
| IdempotentCreation.CommittedIsForever | services/payments/src/infrastructure/persistence/typeorm-idempotency.repository.ts:22-59 | a committed key never changes its answer and no payment disappears |
| IdempotentCreation.EveryStepIsExecute | services/payments/src/application/services/idempotency.service.ts:34-50 | only commits change committed tables, and a commit or a look at an existing key does and answers what a whole request would at that moment |
| IdempotentCreation.CreationIsSerial | services/payments/src/application/services/idempotency.service.ts:34-66 | every run, with its deaths and unheard commits, leaves the tables and gives the answers of whole requests taken one after another |
| IdempotentCreation.ReplayIsExact | services/payments/src/application/services/idempotency.service.ts:52-66 | under a committed key a request gets the stored reference if and only if it says the same thing as the first, else a conflict, and changes nothing either way |
| IdempotentCreation.CommitInitiates | services/payments/src/application/handlers/commands/initiate-payment.handler.ts:35-47 | a commit is a legal creation step of the payment system |
| IdempotentCreation.IdempotencyService.Execute | services/payments/src/application/services/idempotency.service.ts:34-50 | claim, work and completion in place: a new key ends in the payment as asked for and its completed key, or in nothing at all, exactly when the draft is refused or the reference or transaction id is taken; a known key changes nothing |
| IdempotentCreation.IdempotencyService.Initiate | services/payments/src/application/handlers/commands/initiate-payment.handler.ts:31-65 | the saga is started exactly for the request that created the payment |
| CanonicalText.OneTextPerRequest | services/payments/src/application/services/idempotency.service.ts:70-82 | two JSON values have one canonical text if and only if they are equal up to field order and undefined fields |
| CanonicalText.FieldOrderIsIrrelevant | services/payments/src/application/services/idempotency.service.ts:77-81 | permuting fields or adding undefined ones does not change the text |
| CanonicalText.CanonicalisePrintsNormalForm | services/payments/src/application/services/idempotency.service.ts:70-82 | the canonical text is the plain printing of the value's normal form |
| CanonicalText.PrintIsPrefixFree | services/payments/src/application/services/idempotency.service.ts:70-82 | printing can be read back: no two values share a text, in front of whatever may follow |
| CanonicalText.QuoteIsUndone | services/payments/src/application/services/idempotency.service.ts:70-82 | a quoted string, read by the grammar of section 7 of RFC 8259, is itself, whatever text follows it |
| CanonicalText.EscapedAsBrieflyAsCanBe | services/payments/src/application/services/idempotency.service.ts:70-82 | only quotes, backslashes and control characters are escaped, by two characters where the grammar has such an escape and otherwise by six |
| CanonicalText.SortAscends | services/payments/src/application/services/idempotency.service.ts:77-81 | fields come out in ascending order of their names |
| References.Generate | services/payments/src/domain/model/reference.ts:28-45 | the two loops in place produce the time digits and the random body |
| References.TimePartsSortExactly | services/payments/src/domain/model/reference.ts:33-38 | time parts sort lexicographically if and only if the times do modulo 32^10 |
| References.ReferencesSortByTime | services/payments/src/domain/model/reference.ts:28-45 | for t1 < t2 < 32^10 and any random bodies the references sort by time |
| References.GeneratedIsAccepted | services/payments/src/domain/model/reference.ts:16-45 | everything generated is accepted by `of` |
| References.LetterDrawnExactly | services/payments/src/domain/model/reference.ts:39-44 | each of the 32 letters is drawn on exactly its own 32nd part of [0, 1) |
| References.RandomTextAt | services/payments/src/domain/model/reference.ts:40-44 | each letter of the random body is the one drawn from its own random number |
| References.MovementKeysAreInjective | services/payments/src/domain/model/payment.ts:192-194 | movement keys are injective in reference and leg, and fit the key format of packages/shared |
| AccountsClient.Send | services/payments/src/infrastructure/http/accounts.http-client.ts:156-219 | the POST loop stops at the first answer not worth retrying; only a refusal of the first attempt is passed on as one |
| AccountsClient.Read | services/payments/src/infrastructure/http/accounts.http-client.ts:222-261 | only a 404 means no movement; retries as the POST loop |
| AccountsClient.Client.PostMovement | services/payments/src/infrastructure/http/accounts.http-client.ts:111-153 | a refusal that reaches the caller answers the call's one and only POST and leaves the circuit closed; an open circuit sends nothing; the breaker counts a call that gave up against accounts, and no other |
| AccountsClient.Client.FindMovement | services/payments/src/infrastructure/http/accounts.http-client.ts:88-109 | an absent movement is a 404 that was heard, both ways; an open circuit, a failure or a payload without a reference proves nothing |
| AccountsClient.RefusalsUseTheirWord | services/payments/src/infrastructure/http/accounts.http-client.ts:264-273 | an answer is a given refusal exactly when it is a 4xx with that reason's own word, and a payload counts only below 400 |
| AccountsClient.RetriedExactly | services/payments/src/infrastructure/http/resilience/retry-policy.ts:10-22 | retried are exactly: no answer, a 5xx, and a 429 that names no refusal |
| ClientProtocol.CallIsAProtocolRun | services/payments/src/infrastructure/http/accounts.http-client.ts:156-219 | for every sequence of responses a call is a protocol run of posts, give-ups and at most one received reply after which the handler goes on with the same answer, and the answered attempt is uncertain exactly when it is not the first POST |
| AccountsClient.CeilingGrows | services/payments/src/infrastructure/http/resilience/retry-policy.ts:35-39 | the backoff ceiling never shrinks and never passes the maximum |
| AccountsClient.CeilingDoubles | services/payments/src/infrastructure/http/resilience/retry-policy.ts:35-39 | the ceiling starts at the base, doubles from attempt to attempt and stops at the maximum |
| AccountsClient.BackoffIsBounded | services/payments/src/infrastructure/http/resilience/retry-policy.ts:35-39 | the delay is the whole part of its random share of the ceiling, so jitter only shortens the wait |
| CircuitBreaker.OpenExactlyWhenFailing | services/payments/src/infrastructure/http/resilience/circuit-breaker.ts:43-98 | with successThreshold 1 and sequential calls the circuit is open between calls if and only if the trailing run of failures has reached the threshold, rejections not counted |
| CircuitBreaker.RefusalClosesCircuit | services/payments/src/infrastructure/http/accounts.http-client.ts:129-141 | for any settings a refused movement leaves the circuit closed with no failure counted |
| CircuitBreaker.TurnedAwayExactly | services/payments/src/infrastructure/http/resilience/circuit-breaker.ts:43-80 | from the calls and the clock alone: a call is turned away if and only if the trailing failures have reached the threshold and it starts less than openMs after the last of them ended; any other comes to its own outcome |
| CircuitBreaker.ProbeDecides | services/payments/src/infrastructure/http/resilience/circuit-breaker.ts:44-98 | the first call after the pause decides: answered, it closes the circuit for every later call; failing, it opens it again with the pause counted from its end |
| CircuitBreaker.ProbesClose | services/payments/src/infrastructure/http/resilience/circuit-breaker.ts:82-93 | for any settings, successThreshold answered calls in a row after the pause close the circuit, and no fewer |
| CircuitBreaker.Breaker.Movement | services/payments/src/infrastructure/http/resilience/circuit-breaker.ts:43-98 | the breaker's fields and the outcome of a call are those of the history that TurnedAwayExactly and ProbeDecides describe |

## Left out

- HTTP, TypeORM, RabbitMQ, NestJS, the command bus, logging, correlation ids, DTO decorators and configuration: requests, responses, atomic transactions and a queue stand for them.
- PostgreSQL itself: guarded updates on the latest committed row, row locks held to commit, unique constraints that make a second insert wait, and advisory locks freed with their session are taken as given.
- The reconciliation cron (batching, the candidate query, logging): the protocol lets a saga or a recovery start at any time the lock is free, which covers every schedule; the attempt counter is in PaymentRepository.Repository.RecordRecoveryAttempt.
- PaymentDomain.Payment.Restore: does not check references and amount again; rows are written by the same service from checked values, so a row that fails those checks is not modelled.
- AccountsLedger.LedgerExplainsBalance: computes in integers; NumberExactness says up to where the service's numbers agree with them.
- OutboxRelay.ReachedAgainExactly: between two iterations the table changes through this relay alone; marks and delays written by other relays, and the operator's retry, are in LedgerDelivery and not in a tick.
- WalletsService.WalletsDatabase.ApplyMovement: takes the generated entry reference as unused; a reference already taken makes the insert fail and roll back, which is a caller that dies in AccountsRaces.
- OutboxRelay.SentTwiceExactly: selection and failure times are given per iteration and one clock is assumed for the service and its database.
- Lifecycle events after they reach the broker: no consumer of them is part of this model.
- The HTTP fallback of the ledger service and direct outside calls to debit and credit: payments and wallet openings are taken as the only writers of movements.
- Descriptions, timestamps, languages and the rest of the metadata are not carried; a message's description is validated by the same rule on both sides.
- Liveness in time: a payment with a recorded debit and a credit never seen stays Processing by design.
- CanonicalText.OneTextPerRequest: numbers are their printed texts, so NaN, infinities and negative zero are not modelled; strings are sequences of Unicode scalar values, so lone surrogates are not; distinct names the collation calls equal are excluded by the total order.
- CircuitBreaker.OpenExactlyWhenFailing: calls follow one another; overlapping calls through one breaker are not modelled.
- CircuitBreaker.TurnedAwayExactly: the same, and for the configured successThreshold of 1 (accounts.http-client.ts:62); what other settings take is in CircuitBreaker.ProbesClose.
- AccountsClient.Client.PostMovement: the delays between attempts are not part of the loop; how long each may be is AccountsClient.BackoffIsBounded.
- Sessions.FreeLockAddsNothing: speaks of work that takes no lock of another payment; no saga command does.
- Sessions.AllOrNothing: a failed commit or a lost connection is not modelled here; SagaProtocol's Break step and IdempotentCreation's unheard commit cover both outcomes.
- Users, reading history, pagination, seeds and migrations.
