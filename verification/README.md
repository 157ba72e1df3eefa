# A Dafny model of TollGate's crash recovery

TollGate sells network access on a router for Cashu tokens and Lightning payments.  Money and access move through
five stores that cannot be written together: `sessions.json` with `grant-tombstones.json`, `lightning-quotes.json`,
`payment-journal.jsonl`, `payout-journal.jsonl` and `migration-journal.jsonl`.  This project models the protocols over
these stores and proves what they keep through crashes, failed writes, gate failures and ambiguous answers of a mint.
It also models the exact arithmetic and codecs behind them: the calendar, PEM text, the DER reader, spend
classification, the rate limiter and the payout split.

## How it is built

Each protocol has three layers.

1. The state as a value, and each operation of the source as a function on it (`GrantLedger`, `Journals`,
   `PayoutJournal`).
2. A machine whose moves are the durable steps of a pass and the steps of every other actor, restarts among them.
   A run is any sequence of enabled moves, and the main theorems are about all runs (`LedgerRuns`, `LightningRuns`,
   `CashuRuns` with `CashuSessions`, `CashuCredits` and `CashuGrants`, `MigrationRuns`, `PayoutRuns`); `LedgerQuota`
   and `Pricing` say what a payment buys and what is left of it.
3. A class with the source's fields, whose methods follow the source statement by statement
   (`SessionManagers`, `LightningSettlement`, `CashuReconciler`, `FirstBoot`, `PayoutPlan`).  Each method's contract
   equates its effect with the functions of layer 1, or says that it is a run of the machine and what that run
   achieves.  A crash inside a pass is a beginning of its run followed by a restart, so the theorems about runs cover it.

The outside world is data: what the mint, the portal and the disk answer during a pass is an `Answers` value, and the
contracts hold for every such value.  Fields marked ghost, and the fields `credits`, `seen` and `served`, record what
happened for the proofs; the modelled code does not branch on them.

## Where the code does not keep a promise

- **A rollback that comes late loses other grants.**  `pay.rs` takes its snapshot, releases the lock to open the gate,
  and on a gate failure rolls back to the snapshot and saves (`src/http/routes/pay.rs:624-697`).  A Lightning grant for
  the same MAC that landed in between, and was saved, is then gone from memory and from both files:
  `LateRollbackCounterexample`.  `LateRollbackLosesExactly` says which ids a rollback loses, and `OwedIdsSurvive` holds
  over runs with late rollbacks for every id that the snapshot carries too.
- **The sweep of settled quotes trusts memory.**  `upsert` keeps memory ahead of the file when a write fails and is
  survived.  The sweep at the start of a tick then forgets the id of a quote that the file still calls ungranted, and
  after a restart the live session is credited again.  `SweepAfterLostWriteCreditsTwice` is such a run from a fresh
  router.  The guard "forget only what the file calls granted" is exact: with it no quote is ever credited twice
  (`LightningRuns.CreditedAtMostOnce`), and wherever it is broken while the credited session is live, a save, a restart
  and the next pass credit that session again (`CarelessForgetCreditsTwice`).  When every write completes or the process
  dies, every run keeps to it (`CompletedWritesAreCareful`).
- **A pass may grant a payment that its handler is about to grant.**  The handler journals its intent, receives, and then
  adds the allotment without an id (`src/http/routes/pay.rs:452-629`); the reconciliation loop (`src/main.rs:504-512`)
  meanwhile sees an undecided entry, is told by the mint that the token is spent, and grants it; no lock spans the two.
  `LiveGrantAfterPassCreditsTwice` is such a run from a fresh router: the payment is in the session twice, and journalled
  as received once.  The guard "no pass begins while a handler is at work on the payment or for its MAC", which a set of
  payments at work in the process would give, is exact: with it, and with the guards below, no session is ever credited a
  payment twice, by handler and passes together (`CashuCredits.CreditedAtMostOnce`); and after any guarded run a pass that
  breaks it on a payment in a handler's hands doubles it (`UnguardedPassCreditsTwice`).
- **Recreating a Cashu grant extends a dead record.**  The Lightning path replaces an expired leftover record; the Cashu
  path adds to whatever record is there (`src/main.rs:253`).  Everything that record was ever credited is live again, a
  sibling payment's allotment included (`RecreationCredits`), and when the record is the entry's own the customer has
  the allotment twice: `LeftoverRecordCreditsTwice`, from a fresh router.  The guard is "the record does not name the
  entry", which the code could check before it recreates; without it, a record whose `last_grant` is the entry is
  credited a second time after any guarded run (`UnguardedRecreationCreditsTwice`).  Between the two no condition on the
  record is exact: two histories can leave the same record, one credited and one not (`RecordsCannotTell`).
- **A payment can be granted anew.**  A grant id is forgotten when the journal has closed the entry, and after that a pass
  that finds the entry undecided makes a new session in the place of the used one.  Over every run from a fresh router
  in which the payment is posted for one MAC, a saved grant is followed by another one only after one of four events
  (`GrantedAnewOnlyAfter`), and each of them is enough, from whatever world:
  a sweep that forgets the id while the closing row is not synced, and a crash that loses the row
  (`SweepBeforeSyncGrantsAnew`; from a fresh router `UnsyncedRowGrantsAnew`; impossible when every append is synced or
  lost, `SyncedSweepsAreGuarded`);
  a row that reopens the entry, as the live path writes `TimeoutUnknown` whatever a pass has journalled in the meantime
  (`src/http/routes/pay.rs:642-648`, `681-687`) and a pass marks the delivery of the row it was handed
  (`src/main.rs:225-236`) (`ReopeningGrantsAnew`, `ReopenedBeforeForgettingGrantsAnew`; from a fresh router
  `LateRowGrantsAnew`);
  a pass that still holds an entry which was closed meanwhile (`StalePassGrantsAnew`);
  and a late rollback that takes the id out (`RollBackGrantsAnew`).
- **A replay sells a session again.**  The comment at `src/http/routes/pay.rs:326-328` says that a replay returns the
  original grant.  It does while the MAC has an active session; otherwise a settled token buys the whole allotment anew,
  for any MAC, and as often as the session is used up: `ReplaySellsExactlyWhen`, `ReplayedAgain`.
- **A value the library cannot compute turns the answer around.**  `token.value()` falls back to 0
  (`src/wallet/wallet.rs:583`), and then a token none of whose proofs is spent is classified as entirely spent, and a
  spent one as partly spent with almost 2^64 sats left: `UnknownValueExample`.  The answer is right exactly when it is
  not definite (`UnknownValueInverts`).
- **The single-token check believes silence.**  `token_check_state` answers Spent when no reply says otherwise, so a
  mint that leaves proofs out can make an unspent token count as spent; `SpentIsRightExactlyWhenAnswered` gives the exact
  condition.  The batched check does not have this gap (`DefiniteExactlyWhenAnswered`).
- **A PendingSpent proof is in neither part.**  The classification does not count it as in flight, the remainder filter
  refuses it, so spent value and remainder add up to the token exactly when no proof of value is in that state:
  `ConservedExactlyWhenNothingIsStuck`.

Comments that disagree with the code, where the model follows the code: `payment_journal::reconcile` says that grants
are journalled before they are returned (they are returned unjournalled, `src/payment_journal.rs:227-236`);
`process_payout_with_balance` says that an ambiguous owner melt does not abort the maintainers (it does,
`src/payout.rs:363-373`); `base64_decode` says that bodies are always padded (it accepts unpadded ones,
`PaddingIsOptional`).

## Model

| member | source | states |
|---|---|---|
| LedgerRuns.OwedIdsSurvive | src/session/mod.rs:133-700 | Over every run of overwrites, extensions, grants, rollbacks, late rollbacks, revocations, expiries, failed saves and crashes, an id held when a save answered Ok stays in memory and in one of the two files until it is forgotten by name or a late rollback replaces the session that carries it by a snapshot that does not |
| LedgerRuns.StepKeeps | src/session/mod.rs:133-600 | Every single action keeps the invariant, keeps safe every id it does not take out, and an Ok save makes every held id safe |
| LedgerRuns.SaveKeeps | src/session/mod.rs:565-655 | A save, wherever it fails, changes no session and endangers no id; when it answers Ok the tombstone file is the set in memory and every held id is in a file |
| LedgerRuns.GrantKeeps | src/main.rs:163-189 | A reconciled grant either is saved, and then safe, or is rolled back to the same session map |
| LedgerRuns.RecreateKeeps | src/lightning_quotes.rs:395-415 | A recreated grant either is saved or leaves the session map as it was, tombstones included in what is kept |
| LedgerRuns.ForgetKeeps | src/session/mod.rs:318-344 | Forgetting some ids endangers no other id |
| LedgerRuns.LoadHolds | src/session/mod.rs:657-701 | A reloaded manager holds exactly the ids the two files name, legacy single slots included |
| LedgerRefinement.CacheRefinesAlwaysWriting | src/session/mod.rs:603-655 | Over every run the files, and memory apart from the cache, are those of a manager that rewrites the tombstone file on every save |
| LedgerRefinement.TombstoneFileIsCurrent | src/session/mod.rs:565-655 | After every Ok save in any run the tombstone file equals the set in memory |
| LedgerRefinement.ReloadRecognises | src/session/mod.rs:232-244 | Exactly which ids a manager reloaded after an Ok save recognises for a MAC |
| LedgerRefinement.ReloadForgetsAndInventsNothing | src/session/mod.rs:657-701 | What was recognised before an Ok save is recognised after the reload, and nothing is recognised that was not held |
| LedgerRefinement.LateRollbackLosesExactly | src/session/mod.rs:375-384 | A rollback loses an id exactly when only the replaced session carries it and neither snapshot nor tombstone has it |
| LedgerRefinement.LateRollbackCounterexample | src/http/routes/pay.rs:624-697 | With the handler's own saves: a saved Lightning grant that lands between snapshot and rollback is gone from memory, from both files, and after a restart |
| LedgerCredits.StepGood | src/session/mod.rs:133-600 | Actions that credit a grant only where it is not credited keep every session, in memory and on disk, free of double credits |
| LedgerCredits.StepLast | src/session/mod.rs:133-600 | The single slot of a session always names a grant that its allotment is made of |
| LedgerCredits.StepInventsNothing | src/session/mod.rs:133-700 | No action makes the ledger know an id that it did not know and the action does not name |
| LedgerCredits.StepOnlyAt | src/session/mod.rs:133-600 | An id that is only ever named for one MAC stands only in the session of that MAC, in memory and on disk |
| LedgerValue.CreditsFollowAllotments | src/session/mod.rs:133-700 | Every action leaves allotment and credits of a session together, adds to both, starts both, or brings both back from the file or the snapshot |
| LedgerValue.AllotmentIsWorth | src/session/mod.rs:133-700 | Over every run in which every payment has one price, every allotment is the sum of the prices of its credits, as 64 bits hold it |
| LedgerQuota.ExtensionKeeps | src/session/mod.rs:193-227 | Whichever path extends a record, with an id or without: the amount is added modulo 2^64, used, metric and the ids carried before are unchanged, expiry and grant time are those of now, and no other session changes |
| LedgerQuota.ExtensionGains | src/session/mod.rs:184-215 | What is left of a session grows by exactly the amount if and only if the allotment does not wrap around, and never by more |
| LedgerQuota.QuotaConserved | src/session/mod.rs:133-600 | Over every run that neither replaces nor removes a session, its allotment is the old one and all payments since, as 64 bits hold it, what was used stays used unless it is metered anew, and the metric stays: no payment gives used quota back |
| LedgerOnce.StepFollows | src/session/mod.rs:133-600 | An action about other grants neither adds a credit or trace of a grant nor parts a credit from its trace, in memory and on disk |
| SessionManagers.SessionManager.LoadFromDisk | src/session/mod.rs:657-701 | The loaded manager is the seeded content of the two files |
| SessionManagers.SessionManager.RetireGrants | src/session/mod.rs:268-290 | The tombstones gain exactly the ids of the session, and the write cache is dropped only when the set changed |
| SessionManagers.SessionManager.CreateSession | src/session/mod.rs:133-182 | An unused session of the given allotment, metric and duration; a live predecessor hands its ids on, a dead one retires them first, everything else is unchanged |
| SessionManagers.SessionManager.AddAllotment | src/session/mod.rs:193-227 | An existing record grows modulo 2^64 and is renewed, with used, metric and earlier ids as they were; otherwise an unused one is created; the id, if there is one, is tagged on either |
| SessionManagers.SessionManager.ApplyGrantOnce | src/session/mod.rs:352-372 | A grant is applied exactly when neither tombstone nor session names its id, and otherwise changes nothing |
| SessionManagers.SessionManager.RollbackSession | src/session/mod.rs:375-384 | The session of the MAC is again what the snapshot says, absent included |
| SessionManagers.SessionManager.UpdateUsage | src/session/mod.rs:498-502 | Only the usage of an existing session changes |
| SessionManagers.SessionManager.RevokeSession | src/session/mod.rs:467-473 | The session goes and its ids become tombstones |
| SessionManagers.SessionManager.CleanupExpired | src/session/mod.rs:475-496 | Exactly the sessions whose expiry has come go, the others are unchanged, the ids of those that go are tombstones, and the count is right |
| SessionManagers.SessionManager.ForgetGrants | src/session/mod.rs:318-344 | What is held afterwards is exactly what was held before without the ids, and the answer says whether any of them was held |
| SessionManagers.SessionManager.SaveTombstones | src/session/mod.rs:603-655 | File, cache and answer for every failure point, the removal of an empty file included |
| SessionManagers.SessionManager.DoSaveInner | src/session/mod.rs:565-598 | Expired ids retire, then the tombstone file, then the sessions file, with every failure point between |
| SessionManagers.SessionManager.SaveNow | src/session/mod.rs:528-563 | An Ok save leaves exactly the unexpired sessions in the file, and no fault that strikes a file that is written is answered Ok; expired ids are tombstones either way; a failed save leaves the manager dirty |
| SessionManagers.SessionManager.SaveToDisk | src/session/mod.rs:514-523 | A debounced save writes nothing and stays dirty, any other is a durable save |
| SessionManagers.SessionManager.FlushIfDirty | src/session/mod.rs:534-540 | A dirty manager is saved, a clean one is left alone |
| SessionManagers.SessionManager.LiveGrant | src/http/routes/pay.rs:624-627 | Snapshot, and extension or creation without an id; used, metric and earlier ids of an existing record are as they were |
| SessionManagers.SessionManager.ReplayGrant | src/http/routes/pay.rs:352-354 | A new session without an id |
| SessionManagers.SessionManager.GrantOrRollBack | src/main.rs:163-189 | Snapshot, grant, save and rollback together are one durable grant |
| SessionManagers.SessionManager.RecreateOrRollBack | src/lightning_quotes.rs:395-415 | Snapshot, replacement or extension, save and rollback together are one durable recreation |
| LightningRuns.CreditedAtMostOnce | src/lightning_quotes.rs:336-437 | Over every careful run, late rollbacks of other payments included, no session, in memory or on disk, is credited the same quote twice |
| LightningRuns.CompletedWritesAreCareful | src/lightning_quotes.rs:82-103 | When every store write completes or the process dies, every run is careful and the file is the store |
| LightningRuns.EveryRunKeeps | src/lightning_quotes.rs:241-512 | The settlement invariant holds over every careful run of passes, sweeps, restarts and other actors |
| LightningRuns.StageOrder | src/lightning_quotes.rs:252-437 | An id in the ledger or the files means that the mint issued the quote, a granted record that the gate was opened for it |
| LightningRuns.GateOpensOnCarrier | src/lightning_quotes.rs:364-421 | The gate opens only onto an unexpired session that carries the quote, which is live unless the recreated allotment was zero or wrapped |
| LightningRuns.PositiveFits | src/lightning_quotes.rs:395-415 | A positive allotment that fits in 64 bits on top of a live sibling leaves a live session |
| LightningRuns.RecordsLeaveSettled | src/lightning_quotes.rs:139-154 | A record leaves the store only granted, or with its invoice withheld and the mint still at Unpaid, or when the mint answered Unpaid after the quote's time and only customer and mint have moved since |
| LightningSweep.CarelessForgetCreditsTwice | src/lightning_quotes.rs:448-467 | After any careful run, forgetting a quote that the file calls ungranted while its session is live leads to a second credit |
| LightningSweep.SweepAfterLostWriteCreditsTwice | src/lightning_quotes.rs:448-467 | A run from a fresh router with one lost granted mark ends in a second credit |
| LightningSettlement.QuoteStore.Upsert | src/lightning_quotes.rs:87-92 | Memory takes the record whether or not the file does |
| LightningSettlement.QuoteStore.Remove | src/lightning_quotes.rs:95-102 | The record goes, and an absent one causes no write |
| LightningSettlement.QuoteStore.Sweep | src/lightning_quotes.rs:139-154 | Exactly the granted records that are expired or stale go |
| LightningSettlement.Settlement.OfferInvoice | src/http/routes/ln_invoice.rs:224-252 | An invoice is shown only when its record is durable; otherwise it is withheld and the record taken back |
| LightningSettlement.Settlement.MintPhase | src/lightning_quotes.rs:252-316 | When the phase goes on, which takes payment, tokens known to be issued and a durable mark; when the quote is unpaid or expired; only the minted mark may change |
| LightningSettlement.Settlement.AllotmentPhase | src/lightning_quotes.rs:336-362 | The allotment is added only where no id proves it was; the phase goes on only when the session is saved and the mark is durable, and which failure is answered otherwise |
| LightningSettlement.Settlement.GatePhase | src/lightning_quotes.rs:364-421 | While the portal refuses, the answer is false and nobody is served; otherwise the quote is let in when its grant is live or no fault strikes its recreation; only a quote let in is added to those served |
| LightningSettlement.Settlement.TerminalPhase | src/lightning_quotes.rs:422-437 | The id is forgotten only after the granted mark is durable |
| LightningSettlement.Settlement.SettleQuote | src/lightning_quotes.rs:241-437 | A run of the quote's own moves and saves. Granted only when the quote was paid, the gate opened, the mark is durable and the id is gone, and whenever nothing fails; a pass that the portal refuses leaves the record ungranted and serves nobody; only marks of the record change, and no other record |
| LightningSettlement.Settlement.SettleAll | src/lightning_quotes.rs:478-510 | Each quote is settled from the record the tick began with, and served only if it was paid and the portal lets it; no other quote changes |
| LightningSettlement.Settlement.SweepIds | src/lightning_quotes.rs:449-467 | No id of a settled quote is held afterwards; the sweep is saved exactly when one was held |
| LightningSettlement.Settlement.Tick | src/lightning_quotes.rs:447-512 | A run of the two sweeps and of the quotes' own moves. A quote that was paid is settled when nothing fails; one that was not paid or that the portal refuses is neither marked nor served; a record goes exactly when it is over unpaid, or granted and over; without a wallet nothing is settled |
| CashuRuns.SpentOnlyAfterAccess | src/main.rs:155-320 | Over every run, lost rows and every live row included, a customer's entry is journalled ReconcileSpent, or marked delivered, only after the gate was opened for it |
| CashuSessions.SessionCreatedOnce | src/main.rs:159-214 | From any point of the granting pass on, no sequence of passes, restarts, saves, metering, rows of the live path and other customers' payments changes allotment or expiry of the session granted for an entry while it is live |
| CashuSessions.PassesKeepUsage | src/main.rs:159-214 | Nor what the customer has used, unless the monitor notes it or a restart goes back to the saved usage |
| CashuSessions.GrantStands | src/main.rs:163-189 | The move that grants and saves makes that session stand, in memory and on disk, with the gate still to be opened |
| CashuSessions.FailedSaveChangesNothing | src/main.rs:179-188 | A pass whose save failed leaves sessions, gate, journal and retry set as they were |
| Pricing.SessionBought | src/main.rs:157-189 | A new session that a reconciled payment is saved with holds k times the step size, for the k with price times k at most the amount and the amount below price times k plus one, zero prices and sizes counting as one; unused, for an hour, and k is positive |
| Pricing.DueExactlyWhen | src/payment_journal.rs:209-255 | Only an entry at its intent or timed out is looked at; one whose token is spent is due exactly when the amount buys a step, and closed with zero steps exactly when not; one whose token is unspent is closed exactly when no receive of it is undecided |
| Pricing.OverExactlyWhen | src/lightning_quotes.rs:49-56 | The boundaries of a quote's time: past its expiry, if it has one, or more than six hours after its creation |
| Pricing.QuoteIsWorth | src/lightning_quotes.rs:322-329 | A quote is worth its frozen allotment, and a legacy record the whole steps that its amount buys at the configured price |
| Pricing.QuoteCredits | src/lightning_quotes.rs:336-359 | The first allotment extends the session of the MAC by that worth, keeping what was used, or starts an unused one |
| CashuCredits.CreditedAtMostOnce | src/main.rs:148-321 | Over every guarded run no session, in memory or on disk, is credited the same payment twice, by its handler and the passes together |
| CashuConverses.UnguardedPassCreditsTwice | src/http/routes/pay.rs:452-629 | After any guarded run, a pass that begins on a payment which a handler has received leads to the payment in the session twice |
| CashuConverses.UnguardedRecreationCreditsTwice | src/main.rs:238-261 | After any guarded run, a recreation onto a record whose single slot is the entry credits it twice |
| CashuConverses.RecordsCannotTell | src/main.rs:243-253 | Two histories with the same record and tombstones, of which only one has the credit: no guard on the record is exact |
| CashuConverses.RecreationCredits | src/main.rs:243-261 | A recreation revives everything its record was credited, adds the entry once more, and is live exactly when the sum exceeds the usage |
| CashuConverses.SyncedSweepsAreGuarded | src/main.rs:27-52 | When no row lands unsynced, every sweep forgets only what stays closed |
| CashuConverses.ReplaySellsExactlyWhen | src/http/routes/pay.rs:316-362 | A replay makes a new session of the whole allotment exactly when the payment is settled and the MAC has no active session |
| CashuConverses.ReplayedAgain | src/http/routes/pay.rs:316-362 | One settled payment buys session after session |
| CashuGrants.GrantedAnewOnlyAfter | src/main.rs:15-321 | Over every run from a fresh router in which a payment has one MAC, a saved grant is followed by a new one only after an unsynced sweep, a reopening row, a pass on a closed entry or a late rollback |
| CashuGrants.SweepBeforeSyncGrantsAnew | src/main.rs:27-52 | From any world: a sweep before the sync, a save and the crash that loses the closing row have the payment granted anew |
| CashuGrants.ReopeningGrantsAnew | src/http/routes/pay.rs:679-687 | From any world: a row that reopens an entry whose id is forgotten has it granted anew |
| CashuGrants.ReopenedBeforeForgettingGrantsAnew | src/main.rs:296-310 | The same when the id is forgotten just after the row |
| CashuGrants.StalePassGrantsAnew | src/main.rs:82-115 | A pass that holds a closed entry whose id is forgotten grants it anew |
| CashuGrants.RollBackGrantsAnew | src/http/routes/pay.rs:688-697 | A late rollback that takes the id out has an undecided payment granted anew |
| CashuScenarios.UnsyncedRowGrantsAnew | src/main.rs:27-52 | A run from a fresh router: an unsynced terminal row, a sweep and a crash replace the used session by a new one |
| CashuScenarios.LateRowGrantsAnew | src/http/routes/pay.rs:679-687 | A run from a fresh router: a row of the live path after the terminal row has the payment granted anew |
| CashuScenarios.LiveGrantAfterPassCreditsTwice | src/http/routes/pay.rs:452-730 | A run from a fresh router: pass and handler both grant the payment, which the journal has as received once |
| CashuScenarios.LeftoverRecordCreditsTwice | src/main.rs:238-261 | A run from a fresh router: a crash, an expiry and a pass give the customer the allotment twice |
| CashuReconciler.Reconciler.ReplayPosted | src/http/routes/pay.rs:316-362 | Exactly when a posted token is replayed, answered with what is left of the active session, or sold a new session, and the whole new session |
| CashuReconciler.Reconciler.Decide | src/payment_journal.rs:209-255 | When a grant is due, exactly which row closes an entry that is owed nothing, and which counter of the report goes up |
| CashuReconciler.Reconciler.Reconcile | src/payment_journal.rs:203-257 | Exactly the due entries are returned, each once with its folded row, every other entry has the last row the mint's answer leaves it, and the report counts every undecided entry once |
| CashuReconciler.Reconciler.Deliver | src/main.rs:160-283 | Access is given, or was noted as given, before the pass goes on; nobody is served whom the portal refuses |
| CashuReconciler.Reconciler.CloseAndForget | src/main.rs:287-320 | The id goes only when the terminal row is durable; otherwise the entry joins the retry set |
| CashuReconciler.Reconciler.ApplyReconciledGrant | src/main.rs:148-321 | A run of the entry's own moves. When nothing fails the entry is closed as spent, its id is gone and access was given; whatever fails, its last row is untouched, delivered or spent, and untouched and unserved when the gate stays shut; no other entry's row changes. What the session holds is Pricing.SessionBought |
| CashuReconciler.Reconciler.SweepClosed | src/main.rs:27-52 | No id of a closed entry is held afterwards; the sweep is saved exactly when one was held |
| CashuReconciler.Reconciler.ReconcilePaymentsOnce | src/main.rs:15-138 | A run that begins with the sweep and makes no handler's move; what it may leave as the last row of every entry, and who may and must have access, for every answer of mint, disk and portal |
| Journals.Fold | src/payment_journal.rs:160-166 | The loop computes the last body of every id |
| Journals.FoldIsLast | src/payment_journal.rs:160-166 | The folded body of an id is that of its last row |
| Journals.FoldConcat | src/migration.rs:802-808 | Folding a longer journal lets the later rows win |
| MigrationRuns.ReceivedNeverResubmitted | src/migration.rs:296-620 | Over any boots, each cut off anywhere and each losing any unsynced rows, a token whose receive answered Ok, or whose remainder was recovered, is never handed to receive again, nor its remainder recovered again |
| MigrationRuns.SubmittedOnlyWhen | src/migration.rs:384-596 | In any boot after any boots, a token is handed to receive only when its last surviving row is not terminal and, if it is Pending, after this boot's Unspent answer, with no saga open; its remainder is recovered only after a partly spent answer |
| MigrationRuns.ResubmittedOnlyWhenUnspent | src/migration.rs:384-596 | A token last seen Pending, or whose last receive or recovery answered Ok or did not answer, is handed in again only after this boot's Unspent answer, and recovered only after a partly spent one, with no saga open |
| MigrationRuns.SubmittedWhenever | src/migration.rs:384-596 | A boot that is not cut off hands in every token, and recovers every remainder, that these conditions permit |
| MigrationRuns.HandedInExactlyWhen | src/migration.rs:384-596 | In a boot that is not cut off, exactly when a token is handed to receive and when its remainder is recovered, by its last row, its saga and the mint's answer |
| MigrationRuns.BootKeeps | src/migration.rs:556-607 | A pass cut off anywhere, and the crash after it, keep every received token guarded by a row that survives |
| MigrationPass.CleanMeansSettled | src/migration.rs:310-620 | A pass reports no failed and no pending token exactly when every token of the file has a terminal last row |
| MigrationPass.CleanPassIsFinal | src/migration.rs:310-620 | After a clean pass, whatever crash follows, another pass submits nothing and appends nothing |
| MigrationPass.PassSettles | src/migration.rs:344-606 | What a whole pass makes of every token: imported, pending or failed as its receive ended, spent or partly spent with the mint's amounts, and otherwise what it was |
| MigrationPass.SummaryAddsUp | src/migration.rs:296-620 | A pass counts every token once, as received now or in exactly one counter, and calls imported exactly what the wallet received |
| MigrationPass.ReadMarker | src/migration.rs:823-849 | The loop over the marker's lines decides as its first explicit state does |
| MigrationPass.PrintedMarkerIsExact | src/migration.rs:643-659 | The printed marker reads as complete exactly for clean summaries |
| MigrationPass.MarkerMeans | src/migration.rs:809-849 | No marker is incomplete and a blank one complete; otherwise the first line that states an outcome decides; and without one it is complete exactly when it names imports and its last word about failures is zero |
| MigrationPass.LegacyMarkerIsExact | src/migration.rs:809-849 | A marker as earlier versions printed it is complete exactly when it counts no failure |
| FirstBoot.TokensAreTheLines | src/migration.rs:851-859 | The tokens are the trimmed lines that are neither blank nor comments, each once |
| FirstBoot.ReadTokens | src/migration.rs:851-859 | The loop over the lines computes those tokens |
| FirstBoot.Migration.ImportToken | src/migration.rs:344-606 | One turn of the loop writes the token's rows in order and counts it, or stops where a write fails |
| FirstBoot.Migration.ImportTokens | src/migration.rs:296-620 | The whole pass is the plan of the tokens, cut off exactly where writes run out, and the summary is its tally |
| FirstBoot.Migration.FinishImport | src/migration.rs:625-691 | wallet.db is renamed only for a clean summary, the marker written says the same, and each error leaves the marker as it was |
| FirstBoot.Migration.Boot | src/main.rs:365-458 | The tokens imported are exactly those of the file whenever wallet.db is there, the marker is not complete and the export did not fail, and none otherwise; a pass is cut off only where writes run out; after a whole pass wallet.db is renamed exactly when every token has a terminal synced last row and the rename succeeds, and the marker says so; until then the next boot runs again |
| PayoutRuns.MeltedAtMostOnce | src/payout.rs:478-631 | Over every run, rows of send operations and crashes that lose unsynced rows included, no id is melted twice, and none before an intent that survives |
| PayoutRuns.DoneMeansMelted | src/payout.rs:486-523 | Over every run, a payout is called already done only when its melt was called, exactly once, and that of a literal invoice only when its row says paid |
| PayoutRuns.CompactionNeverLosesALastRow | src/payout_journal.rs:252-299 | Under any interleaving of appends of melts and sends, compactions and crashes the journal folds to what its full history folds to |
| PayoutJournal.DecisionsMean | src/payout_journal.rs:173-245 | When a melt proceeds, is done, or is surfaced, and when an ambiguity is advanced: nothing is done after a bare intent |
| PayoutJournal.CompactIfLarge | src/payout_journal.rs:252-268 | The backward scan and reversal compute the compaction, exactly above the threshold |
| PayoutJournal.CompactKeepsFold | src/payout_journal.rs:252-268 | Compaction keeps the last body of every id and the ids |
| PayoutJournal.CompactDistinct | src/payout_journal.rs:252-268 | Compacted ids are distinct |
| PayoutJournal.CompactIdempotent | src/payout_journal.rs:252-268 | Compacting twice is compacting once |
| PayoutJournal.CompactInLastOrder | src/payout_journal.rs:258-268 | Compacted rows stand in the order of their last occurrences |
| PayoutPlan.SplitBound | src/payout.rs:195-220 | What is planned differs from the factors' share by at most half a sat per entry, dropped entries included |
| PayoutPlan.ValidatedSplitBound | src/config/schema.rs:94-109 | With validated factors the plan stays within n/2 sat and a millionth of the aimed payment |
| PayoutPlan.EachGetsTheirShare | src/payout.rs:195-220 | Every recipient gets their own factor's share of the aimed payment to half a sat, and every share of half a sat or more has a recipient |
| PayoutPlan.BuiltAre | src/payout.rs:195-220 | The plan has exactly the shares whose part is not zero, with their identity and address, in their order |
| PayoutPlan.BuildRecipients | src/payout.rs:195-220 | The plan is the rounded shares without the zeros |
| PayoutPlan.PaidExactlyWhen | src/payout.rs:441-631 | Exactly when a recipient is paid, was paid before, or failed, by last row, saga, wallet and answers, and under which invoice |
| PayoutPlan.PayoutDesk.JournalledMelt | src/payout.rs:478-631 | A run of the payment's own moves whose result, melt count and last row are fixed by the last row of the id and the answers; paid means one melt and a sealed row of the amount, and other ids are untouched |
| PayoutPlan.PayoutDesk.MeltToLightning | src/payout.rs:441-476 | A literal invoice is melted verbatim, any other address through a new invoice; nothing else is melted, and nothing at all without an invoice |
| PayoutPlan.PayoutDesk.ProcessPayout | src/payout.rs:286-432 | Skipped exactly below the thresholds or with an empty plan, completed exactly when else a share of the owner is worth paying and can be reached, aborted otherwise; the owner is paid first, and only when that is paid or already done every reachable maintainer in order; whoever is reported as paid was melted exactly once for the amount, and no invoice is melted twice |
| PayoutPlan.PayoutDesk.CompactJournal | src/payout_journal.rs:252-299 | Compaction in place is the compaction move |
| Calendar.DaysRoundTrip | src/cli/x509.rs:156-179 | Every day number is the number of the valid date it is rendered as |
| Calendar.DateRoundTrip | src/cli/x509.rs:156-179 | Every valid date is what its day number is rendered as |
| Calendar.DaysAscend | src/cli/x509.rs:156-164 | Later dates have larger day numbers |
| Calendar.CountsDays | src/cli/x509.rs:156-164 | The number of the next day is one more, by an independent calendar |
| Calendar.CountsFromEpoch | src/cli/x509.rs:154-164 | Counting starts at 1970-01-01 |
| Base64.PemTextRoundTrip | src/cli/x509.rs:528-576 | `base64_decode` reads back what `pem_encode` writes, for every byte sequence (section 4 of RFC 4648) |
| Base64.PaddingIsOptional | src/cli/x509.rs:526-576 | The same text without its padding decodes to the same bytes |
| Base64.DecodesExactlyWhen | src/cli/x509.rs:526-576 | Exactly which texts decode, and to how many bytes |
| Base64.QuadDigits | src/cli/ssl.rs:622-654 | Three bytes are written as the four base-64 digits of their number, highest first |
| Base64.KnownVector | src/cli/ssl.rs:622-654 | The longest test vector of section 10 of RFC 4648 |
| Base64.PemEncode | src/cli/ssl.rs:622-654 | The loops over chunks and characters write the padded symbols in lines of 64 |
| Base64.DecodeText | src/cli/x509.rs:528-576 | The loops over characters and chunks compute the decoding, failures included |
| Pem.BlocksRoundTrip | src/cli/x509.rs:589-613 | Written blocks are read back with the same types, bytes and order (sections 2 and 3 of RFC 7468) |
| Pem.RewritingIsStable | src/cli/x509.rs:589-613 | Any file, read and written back, reads the same |
| Pem.EncodedInLinesOf64 | src/cli/ssl.rs:622-654 | The encoded text stands in lines of 64 characters, only the last of which may be shorter |
| Pem.SurroundingsIgnored | src/cli/x509.rs:589-613 | Lines before, between and behind the blocks that open no block are ignored |
| Pem.EndMeans | src/cli/x509.rs:589-613 | An end of another type is ignored, and a block whose text does not decode is dropped |
| Pem.PemBlocks | src/cli/x509.rs:589-613 | The line loop computes the reader |
| Pem.SplitCombined | src/cli/ssl.rs:572-615 | The two files read back as exactly the certificates and the keys of the input; which error is given when one is missing |
| Der.ReadElement | src/cli/x509.rs:37-60 | The reader of one element with its length loop, every refusal included |
| Der.ReadChildren | src/cli/x509.rs:95-103 | The walk ends and lists the children |
| Der.ChildrenCover | src/cli/x509.rs:62-103 | The raw children and an unreadable remainder are the content, and each child reads as itself |
| Der.EncodedChildren | src/cli/x509.rs:62-103 | The children of a list in any definite-length form are the list (section 8.1 of X.690) |
| Der.Pkcs8Unwraps | src/cli/x509.rs:430-450 | What a PKCS#8 wrapping gives for each algorithm |
| Der.Sec1WrappedOrBare | src/cli/x509.rs:422-490 | A SEC1 key gives the same material bare and wrapped, with or without a point |
| Der.Pkcs1WrappedOrBare | src/cli/x509.rs:422-509 | An RSA key gives the same material bare and wrapped |
| Der.Sec1Point | src/cli/x509.rs:467-490 | The point found is the one encoded, in any length form |
| Der.Pkcs1Numbers | src/cli/x509.rs:493-509 | The numbers found are the encoded modulus and exponent |
| Der.RefusedKeys | src/cli/x509.rs:422-490 | What is refused: no sequence, no version first, and a SEC1 key without a point |
| SpendState.DefiniteExactlyWhenAnswered | src/wallet/wallet.rs:100-143 | A definite answer is given exactly when every proof was answered and none is in flight |
| SpendState.AnswersMean | src/wallet/wallet.rs:131-142 | For positive amounts AllSpent and Unspent mean all and no proofs spent; of a partly spent token the first amount is the value of the spent proofs and the second that of the rest |
| SpendState.UnknownValueInverts | src/wallet/wallet.rs:583-593 | With an unknown value a definite answer turns around; the answer is right exactly when it is not definite |
| SpendState.UnknownValueExample | src/wallet/wallet.rs:583-593 | A token and two replies that are answered the wrong way round |
| SpendState.ConservedExactlyWhenNothingIsStuck | src/wallet/wallet.rs:933-949 | Spent value and remainder add up exactly when no proof of value is PendingSpent and unspent |
| SpendState.ValueSplits | src/wallet/wallet.rs:933-949 | Spent, remainder and stuck value are the whole token |
| SpendState.SpentIsRightExactlyWhenAnswered | src/wallet/wallet.rs:460-475 | The single-token Spent is right exactly when every proof was answered |
| SpendState.ChecksAgreeOnSpent | src/wallet/wallet.rs:425-475 | On complete replies both checks call the same tokens spent, in flight and unspent |
| RateLimiter.NoWindowExceeds | src/rate_limiter.rs:29-39 | No minute, wherever it starts, holds more than the limit of an address |
| RateLimiter.TableRemembers | src/rate_limiter.rs:32 | Dropping old timestamps loses nothing that still matters of the whole history |
| RateLimiter.AllowedExactlyWhen | src/rate_limiter.rs:29-39 | A request passes exactly when fewer than the limit passed in the minute before |
| RateLimiter.RefusedMeansFull | src/rate_limiter.rs:33-36 | A refusal means that exactly the limit passed in the minute before |
| RateLimiter.Limiter.Allow | src/rate_limiter.rs:29-39 | The answer and the new table are those of the whole history |

## Left out

- The mint, CDK, SQLite, secp256k1 and hashing: a mint is a monotone state per quote, a batch of answers, or an oracle; ids, the journal key of a melt among them, are injective.
- JSON text, torn journal lines, file modes and the mechanics of fsync: a file is a value replaced whole, a journal a sequence of which a crash may lose the unsynced last rows; the tombstone cache compares sets, the source their JSON text.
- A directory sync that fails after the rename of the migration marker is not an error in the source and has no place in the model; a failed journal write of the migration ends the pass where it occurs.
- Clocks: every operation has one clock reading; debouncing is a flag; the limiter's clock is monotone.
- Interleaving of other session mutations inside one settle pass, and two payout tasks for one canonical mint: a pass runs alone; other actors, the snapshot and the late rollback of `pay.rs` among them, step between its durable steps or between passes.
- ReceivedNeverResubmitted: assumes that a mint calls neither unspent nor partly spent a token whose receive, or whose remainder's receive, it answered Ok.
- LightningRuns.CreditedAtMostOnce: assumes careful runs, which CompletedWritesAreCareful derives from writes that complete or kill the process.
- CashuCredits.CreditedAtMostOnce: assumes the guards named above, that the passes hold the payment for one MAC, that a closed entry is reopened only for an unspent token and is not granted, that the sweep and replays wait for the sync of the closing row, and that a mint's Spent is final.
- CashuGrants.GrantedAnewOnlyAfter: assumes that the payment's rows carry one MAC; a token posted from two devices is two MACs.
- CashuSessions.SessionCreatedOnce: the session is live and not metered up, and nobody but the passes grants on its MAC, rolls its session back or revokes it; those replace the session by design.
- CashuReconciler.Reconciler.ReplayPosted: the price fallback for an entry without a journal row cannot be reached, since a settled entry has one.
- PayoutRuns.MeltedAtMostOnce: the ids of send operations are taken to differ from those of melts, since the name of an operation is never an invoice.
- UnknownValueInverts: when the library fails to compute a value is not part of this model; that it fails is a parameter.
- LightningSettlement.Settlement.SettleQuote: the branch for a record already marked granted cannot be reached from the monitor, which passes only ungranted records, and is not modelled.
- PayoutPlan.ValidatedSplitBound: factors and products are reals, rounding errors of f64 are not modelled.
- Der.ReadElement: lengths are unbounded integers, so the overflow of header plus length on a 32-bit target is not modelled.
- Calendar.DaysRoundTrip: integers are unbounded, so overflow near the ends of i64 is not modelled.
- SpendState.AnswersMean: requires the token's value to fit in 64 bits, as a computed `Amount` does; the proofs' `hash_to_curve` is an optional point.
- Additivity of two reconciled Cashu payments on one MAC: the code overwrites by design.
- The wallet (re-)initialisation inside a reconciliation pass, the portal's delivery of access: effects outside the stores.
- The usage monitor's polling: only its effects on the sessions (usage, revocation, cleanup, saves) are steps of the ledger's runs.
- HTTP routes, CLI, provisioning, configuration, Nostr events, expired-session history, mint health, status summaries: plumbing or plain data.
