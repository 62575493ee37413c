# zkAPI wallet, credentials, stream and codec: a verified model

zkAPI sells anonymous access to a model API. A user deposits into a vault contract and holds a
private *note*; each chat spends from it through a temporary key, and the rest is withdrawn on
chain. This project models the parts where a mistake loses money or unlinkability, and proves what
they promise. Check everything with `dafny verify dfyconfig.toml`.

**The browser wallet** keeps its state in IndexedDB. One *selected slot* holds a note with its spend
journal, pending deposit, prepared withdrawal, lease flag and *late attempts*; beside it stand
background *withdrawal records* and an *archive*. Several tabs work on it in any order. `wallet_types`
holds the values, `attempt_log`, `plan_log`, `finalization_log` the write-ahead logs, `selected_slot`
the commits of locked sections, `withdrawal_record` the record transactions, `note_moves` the
transactions that move a note, and `wallet_store` the same as objects updated in place.
`wallet_world` puts them together: a state is the stores, the copy held by the tab that has the lock,
and a history of issued notes, marked notes, prompts and wallet claims; a run is any sequence of steps.
`record_laws`, `wallet_laws`, `wallet_runs`, `claim_laws`, `retirement_laws`, `log_laws`, `broadcast_laws`,
`replacement_laws`, `record_replacement`, `finalization_runs`, `revision_laws`, `restore_laws` and `phase_laws`
prove the invariants and the theorems about whole runs; `slot_laws`, `start_laws` and `transfer_laws` say what
single commits, record calls and transfers mean; `claim_examples` holds concrete runs. A *wallet claim* is opened before the wallet is asked, its nonce is journaled before
`eth_sendTransaction`, and its hash is remembered afterwards.

**The chain** (`chain`, `start_recovery`) is a timeline of canonical chains under the nonce rule of
section 6 of the Ethereum Yellow Paper. Finalized prefixes never change and no reorganisation reaches 64
blocks deep. The node's answers may come from different moments of a check.

**Leases** (`lease_desk`, `retry_loops`): handing out the temporary key, retiring it, and the two retry
loops against the lease server.

**Credentials** (`scalar`, `blind_schnorr`, `credential_ledger`, `blind_credentials`, `state_anchor`):
blind Schnorr over an abstract cyclic group of order n, and both credential schemes as refinements of one
ledger. Hashes, commitments and one-time signatures are uninterpreted functions; absence of collisions is
assumed only for inputs that a run evaluates.

**The stream** (`ollama_stream`) turns an event stream into newline-delimited JSON. **The codec**
(`numerals`, `token_amounts`, `withdrawal_codec`) prints and parses amounts and encodes withdrawals.

## Reading notes

- One deployment is fixed, so a record id is a function of its note id. The vault never reuses a note id
  and random claim ids are new (`WalletWorld.Possible`).
- None stands for an operation that throws, aborts, or writes nothing.
- A note carries the withdrawal-only mark when its plan in the slot, or its record, has
  `clearanceReserved`. A record detached as closed may have mode `mutual` without the mark
  (sdk/services/zkapiClient.js:3004), so the mode alone is not the mark.
- Restoring uses `record.preparedWithdrawal` whatever note it names; a record's plan is its own note's
  only as far as the fallback at sdk/services/browserWalletStore.js:585 allows, and no theorem assumes more.
- A prompt's driver follows sdk/services/zkapiClient.js:1075-1098 and 2036-2066: it journals before it sends,
  and releasing its claim is the last thing it does (`ended`). The release is written without the lock, so a
  locked section with an older copy can write the claim back (`CancelledClaimIsWrittenBack`); no driver is left
  to use it, and `CancelledMeansNeverSent` holds all the same.
- A comment at sdk/services/browserWalletStore.js:633-639 says that the claim retired by a late transfer can
  no longer be sent. That holds for the moved note's own claim and fails exactly under the condition of
  `RetirementLaws.RetiredByTransferIsFinalIff`; `StrayClaimIsSendable` is a run on which it fails.
- A background record that is told a further hash of its plan's operation overwrites the plan's hash list with
  that of its start log (sdk/services/browserWalletStore.js:1173-1184). Nothing is lost, because only background
  claims report there and they open on records whose logs are empty (`LogLaws.RunKeepsBook`).
- A balance is offered again only after a pass has checked its start transactions, with one exception: closing
  the wallet prompt of a challenged escape sets it aside on the latest, not yet final status alone
  (sdk/services/zkapiClient.js:4360-4384, sdk/services/browserWalletStore.js:2336-2385). `ShortcutIff` says
  exactly when that leaves an unchecked transaction, `ShortcutIsReachable` is a run.
- A late transfer takes its phase from the caller (sdk/services/browserWalletStore.js:717-719) and keeps the
  finalization log, so a record may be pending again beside an open finalization; `TransferredPendingIff` says
  when. No second prompt follows: `FreshPromptIff` looks at the log, not at the phase.
- An event stream's last line is read as it stands when the newline is missing, carriage return included
  (crates/zkapi-clientd/src/routes.rs:429-435); `MissingNewlineIff` says when that shows.
- The state-anchor scheme accepts a genesis presentation without a signature
  (crates/zkapi-auth/src/state_anchor.rs:115-117) and takes the nullifier as shown (188-201), so one state is
  accepted again under every fresh nullifier: `ShownTwiceIff`. Its refinement of the ledger is therefore about
  honest clients; `NoTokenTwice` and the contract of `VerifyPresentation` hold for anything presented.

## Model

| member | source | states |
|---|---|---|
| WalletRuns.ReachableIsSafe | sdk/services/browserWalletStore.js:2465-2482 | Every state reached from a new wallet, by any interleaving of locked commits, note moves, unlocked record transactions and released prompts, satisfies the joint invariant of slot, records, archive, marks and prompts. |
| WalletRuns.EveryNoteHasOnePlace | sdk/services/browserWalletStore.js:352-401 | Single ownership: in every reachable state a note id was issued by the vault if and only if it is selected, in its own live record, closed, or archived; the places exclude each other and an archive entry is unique. |
| WalletRuns.StepConserves | sdk/services/browserWalletStore.js:571-841 | Conservation per step: the live state of a note stays equal, except that a response installs a balance, archiving appends exactly that state to the archive, and the sanitizing update closes its record; a state that is gone stays gone. |
| WalletRuns.RunConserves | sdk/services/browserWalletStore.js:1806-1867 | Conservation over runs: without a retiring step a live note stays live, without a balance update its state is identical, and once retired it never returns. |
| WalletRuns.ReserveMarks | sdk/services/browserWalletRuntime.js:2238-2253 | Committing the mutual-close intent, a mutual plan, or a recovery that finds `clearance_reserved` puts the selected note among the marked ones. |
| WalletRuns.MarkedIsWithdrawalOnly | sdk/services/browserWalletRuntime.js:2079-2098 | A marked note has no spend journal, and committing one is refused in the section that holds the lock. |
| WalletRuns.ClearanceIsIrreversible | sdk/services/browserWalletRuntime.js:2228-2281 | From the moment a note is marked, every continuation leaves it marked wherever it is live, without a journal and unable to get one. |
| WalletRuns.SlotExclusion | sdk/services/browserWalletRuntime.js:1455-1488 | No reachable stored slot or locked copy holds a journal beside a prepared withdrawal, nor note state beside a pending deposit. |
| WalletRuns.SecretIsKept | sdk/services/browserWalletRuntime.js:812-858 | A deposit secret leaves the slot only by dropping a deposit that has no claim and no hash and is freshly prepared, or by installing its own note. |
| WalletRuns.ClosedForever | sdk/services/browserWalletStore.js:1806-1867 | A closed record stays closed and erased in every continuation of the whole wallet, and its note is never selected again. |
| WalletRuns.RunKeepsInv | sdk/services/browserWalletStore.js:2465-2482 | Every run from a state that satisfies the invariant ends in one. |
| WalletLaws.CommitKeepsInv | sdk/services/browserWalletRuntime.js:670-676 | Every commit of a locked section keeps the invariant, even when the section's copy is older than an unlocked release. |
| WalletLaws.MoveKeepsInv | sdk/services/browserWalletStore.js:428-524 | Archive, detach, park, restore and late transfer keep the invariant. |
| WalletLaws.TransferKeepsInv | sdk/services/browserWalletStore.js:531-841 | A late transfer keeps ownership and marks, from the slot or within the background record. |
| WalletLaws.RestoreKeepsInv | sdk/services/browserWalletStore.js:1674-1776 | Restoring moves state and mark back to an empty slot and removes the record. |
| WalletLaws.ArchiveKeepsInv | sdk/services/browserWalletStore.js:352-401 | Archiving moves the selected note to one new archive entry. |
| WalletLaws.RecordCallKeepsInv | sdk/services/browserWalletStore.js:922-946 | Every record transaction keeps the invariant. |
| WalletLaws.ReleasePromptKeepsInv | sdk/services/browserWalletStore.js:1382-1613 | The one slot write made without the lock changes nothing a locked copy relies on. |
| WalletLaws.HeldIsSafe | sdk/services/browserWalletRuntime.js:633-663 | The copy held under the lock agrees with the stored slot on note, late attempts and mark. |
| ClaimLaws.CancelledMeansNeverSent | sdk/services/browserWalletStore.js:633-669 | A claim retired without a journaled nonce (by a locked commit, by its own prompt's unlocked release, by releasing a background claim, or by the late transfer of its own note) is neither journaled nor sent, then or in any continuation, even if a stale locked copy writes it back. |
| ClaimLaws.StepKeepsClaims | sdk/services/zkapiClient.js:1075-1098 | Every step of every interleaving keeps: an open claim belongs to the note it was issued for and shows its nonce once journaled; a cancelled claim that is still written anywhere has a driver that has given up; only journaled claims are sent. |
| ClaimLaws.PromptAdvances | sdk/services/zkapiClient.js:2036-2044 | A prompt that releases its own claim without a nonce retires a claim that was never journaled. |
| ClaimLaws.CallAdvances | sdk/services/browserWalletStore.js:1069-1126 | A start claim that carries no nonce in either log was issued by the background driver, so releasing it is final. |
| ClaimLaws.TransferAdvances | sdk/services/browserWalletStore.js:633-669 | The moved note's own claim that a transfer retires has no journaled nonce. |
| RetirementLaws.RetiredByTransferIsFinalIff | sdk/services/browserWalletStore.js:633-669 | The false corner, exactly: after a late transfer retires a claim, some continuation has sent it if and only if it was sent before, or its driver is still at work and has journaled its nonce or finds the claim open in the slot, which then belongs to another note; never for the moved note's own claim. |
| RetirementLaws.FallbackIsFinalIff | sdk/services/browserWalletStore.js:585-586 | In every reachable state a transfer that falls back to the slot's plan of another note retires a claim that can still be sent if and only if its driver is still at work. |
| ClaimExamples.StrayClaimIsSendable | sdk/services/browserWalletStore.js:585-586 | From a new wallet a run reaches a store in which a transfer dismisses another note's claim that a continuation then sends. |
| ClaimExamples.CancelledClaimIsWrittenBack | sdk/services/browserWalletStore.js:1382-1613 | A concrete run in which a released claim is written back by a locked section with an older copy; the claim is cancelled all the same. |
| ClaimExamples.StrayIsReachable | sdk/services/browserWalletStore.js:585-586 | A concrete run from a new wallet that reaches that store. |
| ClaimExamples.CancellationHappens | sdk/services/browserWalletRuntime.js:2772-2842 | A concrete run that cancels a claim, so the theorem above has instances. |
| ClaimLaws.RetiredIsDismissed | sdk/services/browserWalletStore.js:773-781 | A claim retired by a transfer is kept among the dismissed ones, so a late callback is recognised. |
| BroadcastLaws.NoBroadcastForgotten | sdk/services/browserWalletRuntime.js:2545-2548 | Over every possible run a hash that is in a plan, an unresolved late attempt or a record (start log, closed history and finalization log) stays in one of them until a step settles it: its receipt is released, its late attempt ends, the escape of a plan that knows it is challenged, its note is archived or restored, a transfer supersedes it, or a close erases the finalization log it stands in. |
| BroadcastLaws.ReportedStaysKnown | sdk/services/browserWalletRuntime.js:2477-2598 | From a new wallet: a hash on record at any point of a run is on record in every continuation that does not settle it. |
| BroadcastLaws.StepKeepsKnown | sdk/services/browserWalletRuntime.js:670-676 | The same for one step of any kind, moves and unlocked releases included. |
| BroadcastLaws.CallbackIsKnown | sdk/services/browserWalletRuntime.js:2477-2598 | A callback is never refused in a locked section: its hash is in the plan or among the unresolved late attempts afterwards. |
| BroadcastLaws.RecordForgetsNothing | sdk/services/browserWalletStore.js:1128-1196 | No record transaction that the drivers can make loses a hash the record knew, although a reported hash overwrites the plan's list with that of the start log. |
| BroadcastLaws.RecordKeepsHash | sdk/services/browserWalletStore.js:2174-2239 | Counting finalization hashes too: a record transaction loses a known hash only when its receipt releases it from the finalization log or the sanitizing close erases that log. |
| BroadcastLaws.FinCallbackIsKnown | sdk/services/browserWalletStore.js:2093-2172 | A finalization callback for an existing record is never refused: its hash is known afterwards. |
| BroadcastLaws.CloseKeepsHash | sdk/services/browserWalletStore.js:1821-1846 | The sanitizing close keeps every hash of start log and plan in the archived attempts. |
| LogLaws.RunKeepsBook | sdk/services/browserWalletStore.js:864-875 | Every run keeps: a record that a background claim can still report to has each hash of its plan in its start log, and every log names only claims that were issued. |
| BroadcastLaws.TransferKeepsKnown | sdk/services/browserWalletStore.js:676-716 | A late transfer keeps every known hash unless it supersedes the attempt without aggregating. |
| RestoreLaws.RestoredIsChecked | sdk/services/browserWalletStore.js:1674-1776 | Over every run in which recoveries are ended only for records whose start transactions are all done, every balance that can be selected again knows only transactions that are done. |
| RestoreLaws.StepKeepsDone | sdk/services/zkapiClient.js:3805-3907 | One step of any kind keeps that a set-aside record with nothing pending knows only done transactions, and that an attempt whose hash a restored plan dropped was done. |
| RestoreLaws.ShortcutIff | sdk/services/browserWalletStore.js:2336-2385 | The false corner, exactly: closing a challenged wallet prompt leaves the record safe to select if and only if its start is still pending or everything it knows was done before. |
| ClaimExamples.ShortcutIsReachable | sdk/services/zkapiClient.js:4360-4384 | A concrete run from a new wallet: a pass finds the start transaction still open, the challenged prompt is closed, and the balance is offered all the same. |
| RestoreChain.RestoredCannotMove | sdk/services/zkapiClient.js:3698-3907 | With recoveries ended by honest clean passes: in every later view of the chain, each start transaction that a selectable balance knows has failed, stands before a block at which the note is active, or was confirmed by a receipt. |
| RestoreChain.PassMakesHarmless | sdk/services/zkapiClient.js:3698-3803 | A clean pass with true answers makes every unconfirmed transaction of its record harmless in every later view. |
| PhaseLaws.PhaseTellsTheTruth | sdk/services/browserWalletRuntime.js:2286-2399 | In every reachable state, for plan and deposit, stored or held: a waiting phase has an open claim, an idle one none, a phase from which the wallet may be asked has no hash, a submitted one has some. |
| PhaseLaws.UntouchedIffPrepared | sdk/services/browserWalletRuntime.js:812-858 | A pending deposit has neither claim nor hash if and only if its phase is `prepared`. |
| PhaseLaws.SlotStaysTruthful | sdk/services/browserWalletRuntime.js:2772-2895 | Every commit keeps phase and log consistent. |
| PhaseLaws.DepositStaysTruthful | sdk/services/browserWalletRuntime.js:905-1400 | Every deposit log operation does. |
| RecordLaws.FinalizationLogIsExact | sdk/services/browserWalletStore.js:1901-2452 | Over every run of a record the finalization hashes are exactly those reported and not since released by hash or sanitized, without duplicates; an awaiting or ambiguous record has a live claim. |
| RecordLaws.PendingStaysIdle | sdk/services/browserWalletStore.js:1778-1867 | Every operation keeps that a pending record has neither a finalization hash nor an open finalization claim. |
| FinalizationRuns.FinalizationLogOverRuns | sdk/services/browserWalletStore.js:717-719 | Over every run of the whole wallet the finalization hashes of a note's record are exactly those reported and not since released or erased; late transfers, detaching, parking, restoring and released prompts count for nothing. |
| FinalizationRuns.StepKeepsFin | sdk/services/browserWalletStore.js:717-719 | Hashes, attempts, generation and open claim of the log are unchanged by every step that is not an accepted call on that record; a new record starts with an unused log; only restoring removes a record, and then no hash and no claim is left. |
| FinalizationRuns.MoveKeepsFin | sdk/services/browserWalletStore.js:428-841 | The same for each move of a note. |
| FinalizationRuns.FreshPromptIff | sdk/services/browserWalletStore.js:1917-1979 | In every reachable state a fresh finalization prompt is opened if and only if the record waits for one, its note is not shown active, every hash ever reported for it has been released, and no prompt is open. |
| FinalizationRuns.SupersededInWallet | sdk/services/browserWalletStore.js:1901-1915 | Until the note is restored, whatever moves and calls follow, the prompt of an earlier finalization claim can never again release, mark, journal or resolve anything. |
| FinalizationNonce.FinReplacementIssuedIff | sdk/services/browserWalletStore.js:1981-2059 | A finalization replacement is issued if and only if the dropped finalization has no open prompt and the identity is the only one of its saved attempts. |
| FinalizationNonce.FinalizationKeepsOneNonce | sdk/services/browserWalletStore.js:1981-2059 | Over every run of finalization calls without a fresh prompt, all attempts, the open claim and every replacement keep one nonce. |
| FinalizationLog.CallbackSavesAttempt | sdk/services/browserWalletStore.js:2115-2163 | A callback saves exactly one attempt for its hash, with the claim it stems from and the reported or else the journaled identity; the other attempts stay; a concurrent claim is recorded exactly when there is one. |
| RecordLaws.StepCountsClaims | sdk/services/browserWalletStore.js:1917-1979 | The generation never falls and rises by one exactly when a claim is opened where none was open. |
| RecordLaws.SupersededForever | sdk/services/browserWalletStore.js:1901-1915 | Once a later claim has been opened, the earlier one can never again release, mark, journal or resolve anything. |
| RecordLaws.ClosedIsAbsorbing | sdk/services/browserWalletStore.js:1806-1867 | No run of operations leaves the closed phase or puts state, plan or nullifier back. |
| RecordLaws.ClosedStep | sdk/services/browserWalletStore.js:1128-1196 | On a closed record a reported hash changes only history and revision. |
| RecordLaws.LateHashIsAuditOnly | sdk/services/browserWalletStore.js:1136-1158 | A late hash for an archived claim changes only the observed-hash list of history entries. |
| RecordLaws.ClosedAnswersFromArchive | sdk/services/browserWalletStore.js:1128-1196 | After a close, every claim that can still report is one the history already knows. |
| RecordLaws.SanitizeArchives | sdk/services/browserWalletStore.js:1806-1867 | The sanitizing close moves every claim the record still answered for into its history. |
| RecordLaws.RecKeepsOk | sdk/services/browserWalletStore.js:922-1380 | Every record operation keeps the record well formed: state only of its own note, closed means erased, mutual plans marked, log and attempts agree. |
| RecordLaws.RecFrame | sdk/services/browserWalletStore.js:1778-1867 | No operation moves a record to another note or changes its mark, and only the sanitizing close removes its state. |
| RecordLaws.StartFrame | sdk/services/browserWalletStore.js:864-888 | Start operations other than a hash report are refused on a closed record and leave the finalization log alone. |
| RecordLaws.PatchKeepsPrivate | sdk/services/zkapiClient.js:3853-3899 | Patches that report the chain's view never touch private material or claims. |
| FinalizationLog.CallbackIsLogged | sdk/services/browserWalletStore.js:2093-2172 | A callback for this note is never lost: its hash joins the log whatever claim it stems from, and a foreign one leaves the live claim open. |
| FinalizationLog.SupersededClaimIsPowerless | sdk/services/browserWalletStore.js:1901-1915 | A claim that is not the exact current one can neither release, mark nor journal. |
| FinalizationLog.FinKeepsLog | sdk/services/browserWalletStore.js:2174-2239 | Each operation changes the hash set exactly by the reported or the released hash, and attempts stay one per hash. |
| FinalizationLog.FinKeepsClaim | sdk/services/browserWalletStore.js:2388-2452 | A phase that waits for the wallet always has a live claim. |
| FinalizationLog.WithoutFinAttempt | sdk/services/browserWalletStore.js:2174-2239 | Removing a hash from the attempts removes exactly that hash. |
| NoteMoves.TransferLosesNoBroadcast | sdk/services/browserWalletStore.js:630-716 | The start log keeps every hash it had and the reported one; when the transfer aggregates it also keeps the hashes of the travelling plan and of every unresolved attempt of the note; unresolved attempts of other notes stay in order and terminal history is cut to 32. What else the record keeps is stated by TransferLaws and FinalizationRuns. |
| TransferLaws.TransferKeepsRecord | sdk/services/browserWalletStore.js:717-795 | An existing record keeps state, mark, nullifier, finalization log, history, independence, superseded, ambiguous and resolved claims; its revision rises by one; mode, destination, phase and chain status are those asked for. |
| TransferLaws.TransferKeepsMentions | sdk/services/browserWalletStore.js:676-716 | Every hash that a reconciliation pass would have followed in log or plan, it follows after the transfer. |
| TransferLaws.TransferKeepsClaims | sdk/services/browserWalletStore.js:739-795 | Every claim the record answered for is one it answers for afterwards, unless the reported hash answers it, its nonce was never journaled, or it was the open claim and the travelling plan disagrees with it. |
| TransferLaws.TransferTakesClaim | sdk/services/browserWalletStore.js:739-757 | The open claim of the slot's plan, once journaled, becomes the open start claim of the new record under the same identity. |
| TransferLaws.TransferKeepsPlan | sdk/services/browserWalletStore.js:584-675 | The travelling plan keeps everything but claim, phase, outcome and log, loses no hash, and is unchanged unless the hash answers its claim or its claim had no nonce; the nullifier comes from record, plan or attempt. |
| TransferLaws.TransferSavesAttempts | sdk/services/browserWalletStore.js:696-716 | Every attempt that the transfer ends is saved with the record; a single one with its own claim and identity. |
| TransferLaws.NoReplacementUntilChecked | sdk/services/browserWalletStore.js:758-768 | Marks of an earlier pass do not outlive a transfer: without an open claim or a saved retry no replacement is issued before the next pass. |
| TransferLaws.TransferredPendingIff | sdk/services/browserWalletStore.js:717-719 | The false corner of PendingStaysIdle, exactly: a transfer to the pending phase leaves a pending record without an open finalization if and only if it had none. |
| NoteMoves.TransferEndsAttempts | sdk/services/browserWalletStore.js:800-838 | After a transfer no unresolved attempt of that note is left and all those of other notes are, in order. |
| NoteMoves.TransferKeepsHashes | sdk/services/browserWalletStore.js:676-716 | The merged hash list holds record, plan and late-attempt hashes. |
| NoteMoves.Transferable | sdk/services/browserWalletStore.js:545-583 | The attempt found is unresolved, of this note and hash, and its note's state is at hand. |
| NoteMoves.Related | sdk/services/browserWalletStore.js:677-680 | Exactly the unresolved attempts of the note. |
| AttemptLog.RetainKeepsUnresolved | sdk/services/browserWalletRuntime.js:224-232 | Trimming keeps every unresolved attempt in order and at most 32 others. |
| AttemptLog.RetainKeepsTerminal | sdk/services/browserWalletRuntime.js:224-232 | Of the ended attempts trimming keeps the last 32, or all if there are no more, in order. |
| AttemptLog.Distinct | sdk/services/browserWalletStore.js:681-695 | Same members, each once. |
| AttemptLog.MergeAttempts | sdk/services/browserWalletStore.js:696-716 | One entry per hash, taken from the input, for every hash of the input. |
| AttemptLog.LastEntryWins | sdk/services/browserWalletStore.js:696-716 | Of several entries with one hash the last is kept. |
| AttemptLog.Without | sdk/services/browserWalletRuntime.js:2772-2842 | Exactly the other hashes. |
| AttemptLog.WithoutLate | sdk/services/browserWalletRuntime.js:2533-2536 | Exactly the attempts with another operation or hash. |
| AttemptLog.FindLate | sdk/services/browserWalletRuntime.js:2608-2646 | The first matching attempt, or none exists. |
| SelectedSlot.SlotKeepsOk | sdk/services/browserWalletRuntime.js:2148-2284 | Every commit keeps slot exclusion and plan ownership, and never drops the mark. |
| SelectedSlot.SlotKeepsNote | sdk/services/browserWalletRuntime.js:1402-1443 | A commit changes the note only by installing a confirmed deposit in an empty slot, and its balance only by a response. |
| SelectedSlot.PlanKeepsMark | sdk/services/browserWalletRuntime.js:2286-2475 | No log operation changes note, mode, mark, destination, nullifier or proof of a plan. |
| SlotLaws.SpendRoundTrip | sdk/services/browserWalletRuntime.js:2031-2045 | Journal, lease and response leave the slot as it was except for the new balance of the same note. |
| SlotLaws.ReservationTakesNullifier | sdk/services/browserWalletRuntime.js:2079-2098 | A reservation found in recovery takes over the journaled nullifier and marks the note. |
| SlotLaws.NullifierIsKept | sdk/services/browserWalletRuntime.js:2148-2284 | A plan keeps the nullifier it was first given, whatever is committed. |
| SlotLaws.ReserveThenProve | sdk/services/browserWalletRuntime.js:2228-2281 | Reserving and proving a mutual close give a marked, proved plan for the same note and destination under the nullifier of the reservation, with an empty log. |
| SlotLaws.DepositInstalledIff | sdk/services/browserWalletRuntime.js:1402-1443 | A confirmed deposit is installed if and only if the slot is empty and secret, note, amount and operation are those of the pending one. |
| SlotLaws.CallbackIsFiled | sdk/services/browserWalletRuntime.js:2477-2598 | A callback joins the plan it was opened for as the attempt of its claim, and closes that claim alone; any other is filed as an unresolved late attempt with everything its prompt carried. |
| SlotLaws.LateIsUpdated | sdk/services/browserWalletRuntime.js:2608-2646 | An update changes the one attempt and leaves the unresolved ones before and after it in order. |
| SlotLaws.ChallengeEndsAttempts | sdk/services/browserWalletRuntime.js:2702-2770 | A challenge ends every unresolved attempt of its note and no other. |
| SlotLaws.ChallengedLateLeavesPlan | sdk/services/browserWalletRuntime.js:2702-2770 | A challenged late withdrawal of the selected note that is marked leaves a marked, unproved plan of the same kind unless there is a plan already. |
| SlotLaws.ChallengedEscapeIsReset | sdk/services/browserWalletRuntime.js:3049-3085 | A challenged escape is reset only without an open prompt and for exactly the hashes looked up; the marked plan stays with an empty log. |
| SlotLaws.UnresolvedBars | sdk/services/browserWalletRuntime.js:2148-2284 | While a late attempt of the selected note is unresolved, no spend is journaled and no withdrawal reserved or proved. |
| SlotLaws.ReplacedPlanWasIdle | sdk/services/browserWalletRuntime.js:2148-2284 | A plan is replaced only without claim and hash, for the same note and towards the same destination, and keeps its operation. |
| SlotLaws.DepositRoundTrip | sdk/services/browserWalletRuntime.js:812-866 | A fresh deposit that is confirmed as prepared is installed as its note. |
| SlotLaws.SlotReleaseIsExact | sdk/services/browserWalletStore.js:1382-1613 | The unlocked release touches the slot only for the prompt whose claim, operation, note, mode and destination the plan shows, and no other record. |
| SlotLaws.RestoredWasIdle | sdk/services/browserWalletStore.js:1674-1776 | A balance is selected again only for the version of its record that was looked at, with no start, finalization or late attempt open, into an empty slot. |
| SlotLaws.ParkThenRestore | sdk/services/browserWalletStore.js:1616-1776 | Parking and restoring give back state, late attempts, records and archive, and the plan with its note, mode, destination, operation, nullifier and attempts, marked and without its proof. |
| SlotLaws.EscapeDetaches | sdk/services/browserWalletStore.js:428-471 | The record of a detached escape takes state, plan and nullifier along and begins with the hash that moved the note. |
| SlotLaws.CloseDetaches | sdk/services/browserWalletStore.js:478-524 | The same for a note closed on chain, with its mark. |
| SlotLaws.ArchivedWhole | sdk/services/browserWalletStore.js:352-401 | An expired note is archived with all unfinished work, any other with its state alone. |
| ReplacementLaws.ReplacementKeepsOneNonce | sdk/services/browserWalletRuntime.js:2401-2475 | Over any interleaving of locked sections, possibly on stale copies, with unlocked releases, the saved attempts have at most one identity, and every replacement issued uses it. |
| ReplacementLaws.IdentityStays | sdk/services/browserWalletRuntime.js:2401-2475 | While no hash is retired the identity stays and no first prompt can start over. |
| ReplacementLaws.RoundKeepsOneNonce | sdk/services/zkapiClient.js:2146-2175 | One round never adds a second identity when prompts journal what they were handed and report what they journaled. |
| PlanLog.ReplacementIssuedIff | sdk/services/browserWalletRuntime.js:2401-2475 | A replacement is issued for an identity if and only if the plan is dropped, has no open claim, and the identity is the only one that an attempt of a logged hash names. |
| PlanLog.DepositReplacementIssuedIff | sdk/services/browserWalletRuntime.js:971-1038 | The same for a dropped deposit. |
| PlanLog.ForeignClaimIsPowerless | sdk/services/browserWalletRuntime.js:2364-2399 | A claim that is not the open one of the plan's operation can neither journal, release, mark nor retire anything. |
| PlanLog.ForeignDepositIsUntouched | sdk/services/browserWalletRuntime.js:1040-1330 | A deposit prompt touches nothing unless operation, note, amount and secret are those of the pending deposit, journals and marks only for the open claim, and receipts count only for exactly the hashes looked up. |
| PlanLog.RefreshedWasUntouched | sdk/services/browserWalletRuntime.js:1360-1400 | A pending deposit gets another leaf only while nothing was asked, for the same amount, and starts over after a conflict only if it is exactly the deposit that was looked at. |
| DepositNonce.DepositRunKeepsOneNonce | sdk/services/browserWalletRuntime.js:971-1038 | Over every run of deposit writes without a first prompt, attempts, open claim and replacements of the deposit keep one nonce. |
| RecordReplacement.ReplacementIssuedIff | sdk/services/browserWalletStore.js:1198-1290 | A background replacement under a new claim id is issued for an identity if and only if the record's start is unresolved on an active note with its proof at hand, and the identity is the one the open claim of that plan has journaled, else that of the plan's saved retry, else, once receipts are missing, the only one of the dropped attempts. |
| RecordReplacement.ReplacementOpens | sdk/services/browserWalletStore.js:1291-1345 | It opens the new claim under that nonce in record and plan, keeps all hashes and attempts, and keeps the overtaken claim with its identity among the superseded ones. |
| RecordReplacement.RecordKeepsOneNonce | sdk/services/browserWalletStore.js:1198-1345 | Over every run of replace, journal, remember, release and reconciliation calls on a record and of unlocked releases of its prompts, every attempt, open claim, saved retry and retired claim keeps one identity, and a replacement is issued for no other. |
| RecordReplacement.RecordIdentityStays | sdk/services/browserWalletStore.js:1128-1196 | Until the record is closed or its resolved start filed away, the identity stays saved and no first prompt can start over. |
| RecordReplacement.ReleaseSavesRetry | sdk/services/browserWalletStore.js:1494-1595 | A released prompt whose nonce may still be used, because its own result is unknown or an older prompt shares it, leaves that nonce as the plan's saved retry, and the next replacement is issued for no other. |
| RecordReplacement.ReleaseIsExact | sdk/services/browserWalletStore.js:1382-1450 | A prompt releases only its own claim of its own plan. |
| RevisionLaws.StalePatchIsRefused | sdk/services/browserWalletStore.js:1778-1805 | Until the note is restored, whatever other tabs do in between, a patch for the revision that was read is applied to that very record or refused. |
| StartLaws.FirstPromptIsAlone | sdk/services/browserWalletStore.js:1044-1067 | A first start prompt is opened only for the proved plan of its operation, on a marked balance at rest whose record knows no hash, answers for no claim and has no finalization; afterwards it answers for that claim alone. |
| StartLaws.SavedPlanIsAlone | sdk/services/browserWalletStore.js:1025-1042 | A plan is saved only on such a balance, unchanged since it was read; the record then withdraws under the plan's nullifier. |
| StartLaws.RetryFilesEverything | sdk/services/browserWalletStore.js:960-1023 | A resolved start is tried again only when the caller names exactly the known hashes and nothing is open; all are filed as history, and a new unproved plan keeps the nullifier. |
| StartLaws.CancelledHadNoNonce | sdk/services/browserWalletStore.js:890-920 | A preparation is cancelled only when it is all the record answers for and no nonce was saved anywhere; the balance is at rest again. |
| StartLaws.RepairedWasUnsubmitted | sdk/services/browserWalletStore.js:948-958 | Phases are repaired only on a balance without transaction, claim, nonce or open outcome. |
| StartLaws.ReportIsFiled | sdk/services/browserWalletStore.js:1128-1196 | A hash reported for a live record is filed for the claim that reported it, open or retained, under an identity that contradicts neither claim nor report; the plan of its operation gets the same log, and exactly the answered claim is closed. |
| StartLaws.ForeignReportIsRefused | sdk/services/browserWalletStore.js:1128-1196 | A report for a claim that neither record nor history knows, or against the journaled identity, is refused. |
| StartLaws.ArchivedReportIff | sdk/services/browserWalletStore.js:1136-1158 | A late hash of a filed claim is noted if and only if the claim's identity is complete and agrees with the report and its entry has not got the hash yet; it is then noted once. |
| StartLaws.CloseFilesEverything | sdk/services/browserWalletStore.js:1821-1846 | The sanitizing close files every claim the record answers for with its identity, every resolved and dismissed one, and all hashes and attempts of log and plan; afterwards the record answers for none. |
| StartLaws.NonceIsSaved | sdk/services/browserWalletStore.js:1078-1090 | A nonce is saved in record and plan before the wallet is asked, and never overwritten by another. |
| StartLaws.ReleasedIsRemembered | sdk/services/browserWalletStore.js:1102-1126 | A released claim is remembered with its identity, and the balance is parked if and only if nothing else may have been sent. |
| StartLaws.UnresolvedMarks | sdk/services/zkapiClient.js:3853-3899 | A pass that leaves something open keeps an open claim as it is, and otherwise marks the start for replacement or takes back an earlier mark. |
| WalletStore.RetainAttemptHistory | sdk/services/browserWalletRuntime.js:224-232 | The loop computes the trimmed history and keeps all unresolved attempts. |
| WalletStore.SettleAttempts | sdk/services/browserWalletStore.js:808-826 | The loop settles one attempt and ends the other unresolved ones of its note. |
| WalletStore.SettleHistory | sdk/services/browserWalletStore.js:800-838 | The late attempts after a transfer: those of the note have ended, those of others are unchanged. |
| WalletStore.BrowserWalletStore.ArchiveWallet | sdk/services/browserWalletStore.js:352-401 | In place, equal to the archive function or nothing. |
| WalletStore.BrowserWalletStore.DetachEscapeWithdrawal | sdk/services/browserWalletStore.js:428-471 | In place, equal to the escape detach or nothing. |
| WalletStore.BrowserWalletStore.DetachClosedWithdrawal | sdk/services/browserWalletStore.js:478-524 | In place, equal to the closed detach or nothing. |
| WalletStore.BrowserWalletStore.ParkWithdrawal | sdk/services/browserWalletStore.js:1616-1668 | In place, equal to parking or nothing. |
| WalletStore.BrowserWalletStore.RestoreWithdrawal | sdk/services/browserWalletStore.js:1674-1776 | In place, equal to restoring or nothing. |
| WalletStore.BrowserWalletStore.TransferLateWithdrawalAttempt | sdk/services/browserWalletStore.js:531-841 | In place, equal to the late transfer or nothing. |
| WalletStore.BrowserWalletStore.ReleaseStartSubmission | sdk/services/browserWalletStore.js:1382-1613 | In place, releases the claim in slot, record or both, or nothing. |
| WalletStore.BrowserWalletStore.MutateWithdrawal | sdk/services/browserWalletStore.js:922-946 | One transaction: a well-formed record stays well formed, with its note and mark, and loses its state only by the sanitizing close; slot, archive and all other records are untouched; a refusal writes nothing. |
| WalletStore.BrowserWalletRuntime.LockedSection | sdk/services/browserWalletRuntime.js:670-676 | Reload, compute, commit: copy and store agree afterwards, the slot stays exclusive, the selected note and its mark are kept, and only the slot is written; a refusal writes nothing. |
| Chain.NonceConsumed | sdk/services/zkapiClient.js:3471-3547 | Reports consumed if and only if sender and expected statuses are given and, at the finalized block or 64 below the best known head, the account nonce exceeds the attempt's and the note has an expected status. |
| Chain.ConsumedIsFinal | sdk/services/zkapiClient.js:3471-3547 | In every later canonical chain the checked block is still there, the note had an expected status at it, and no transaction with that sender and nonce stands after it. |
| Chain.RevertedReceiptFinal | sdk/services/zkapiClient.js:3404-3469 | Final if and only if the failed receipt's block is settled and the second receipt is the same. |
| Chain.RevertIsFinal | sdk/services/zkapiClient.js:3404-3469 | In every later canonical chain each occurrence of that hash failed. |
| Chain.AtMostOneVersionExecutes | sdk/services/browserWalletRuntime.js:2401-2475 | After any number of replacements at most one transaction of the log is included in a chain. |
| Chain.ConsumptionHappens | sdk/services/zkapiClient.js:3471-3547 | A concrete chain on which the assumptions hold and a nonce is consumed. |
| Chain.OnePerNonce | sdk/services/zkapiClient.js:3471-3547 | No two transactions of a valid chain share sender and nonce. |
| Chain.NoncesOnlyRise | sdk/services/zkapiClient.js:3471-3547 | Past a prefix no sender uses a nonce below its count in that prefix. |
| StartRecovery.CleanPassIsSound | sdk/services/zkapiClient.js:3681-3848 | When a pass over a record sends its resolving patch: in every later chain each hash that the record or its plan knows and no receipt confirms has failed or stands before a settled block at which the note is active; the open start claim, the plan's open claim, the saved retry and every superseded, ambiguous and replaced claim has an identity, and a transaction of that identity stands before such a block; and the patch keeps every hash. |
| StartRecovery.ReconcileRecord | sdk/services/zkapiClient.js:3681-3899 | On the record's own fields: the pass sends the resolving patch if and only if every known hash is confirmed, finally failed or consumed under its first attempt, every claim the record answers for has a consumed nonce, and the record is followed and stale; its claims are the earlier ones and the settled ones under the identity checked. Otherwise an active note stays submitted, marked for replacement exactly when there are open hashes and none has a receipt, and of those exactly the plan's own are droppable. |
| StartRecovery.CheckedAsIff | sdk/services/zkapiWithdrawalRecovery.mjs:25-36 | A claim without a sender is checked under the only one that any claim or attempt names for its operation and nonce; without a nonce, or with several named, it has no identity and blocks the pass. |
| StartRecovery.SavedIff | sdk/services/zkapiWithdrawalRecovery.mjs:7-24 | The claims checked are exactly the open start claim, the plan's open claim, the saved retry, and the superseded, ambiguous and replaced claims. |
| StartRecovery.ReconcileHashes | sdk/services/zkapiClient.js:3709-3779 | The loop counts exactly the open hashes, lists those without a receipt, and count and list agree if and only if every open hash lacks a receipt. |
| StartRecovery.ReconcileClaims | sdk/services/zkapiClient.js:3780-3803 | Clear if and only if every live claim has a consumed nonce; consumed claims join the resolved list, and nothing else does. |
| StartRecovery.CheckNonce | sdk/services/zkapiClient.js:3697-3704 | One answer per identity, reused within the pass, equal to the nonce check. |
| LeaseDesk.CheckoutIsExact | sdk/services/browserWalletRuntime.js:2106-2146 | In every interleaving each lease's counter is the number of its unreleased handles, and a retiring or retired lease has none. |
| LeaseDesk.NewDeskIsExact | sdk/services/browserWalletRuntime.js:1917-1967 | The same from a fresh runtime, stated for one lease. |
| LeaseDesk.DoubleReleaseCountsOnce | sdk/services/browserWalletRuntime.js:2133-2144 | The first release lowers the counter by exactly one, a second does nothing. |
| LeaseDesk.NoKeyAfterRetirement | sdk/services/browserWalletRuntime.js:1917-1967 | Once a retirement has begun, no handle for that lease is given out unless that retirement fails. |
| LeaseDesk.RetiredForever | sdk/services/browserWalletRuntime.js:1936-1945 | A lease whose key the server disabled is never active or handed out again, whatever fails afterwards. |
| LeaseDesk.CheckoutIff | sdk/services/browserWalletRuntime.js:2106-2146 | In every reachable desk a key is handed out exactly when its lease is the active one and no retirement of it is pending. |
| LeaseDesk.FailureReopens | sdk/services/browserWalletRuntime.js:1946-1967 | A failed retirement of the active lease makes its key available again and changes nothing else. |
| LeaseDesk.FailureUndoesBegin | sdk/services/browserWalletRuntime.js:1917-1967 | A retirement that begins and fails with nothing in between leaves no trace. |
| LeaseDesk.LeaseHolder.AcquireKey | sdk/services/browserWalletRuntime.js:2106-2146 | Hands out a key exactly when the lease is still active and neither retiring nor retired, and keeps the counters exact. |
| LeaseDesk.LeaseHolder.ReleaseKey | sdk/services/browserWalletRuntime.js:2133-2144 | Idempotent release; the counter never clamps. |
| LeaseDesk.LeaseHolder.BeginRetirement | sdk/services/browserWalletRuntime.js:1917-1928 | Starts exactly when no retirement is pending, a lease is active with a journal, and no handle is out. |
| LeaseDesk.LeaseHolder.EndRetirement | sdk/services/browserWalletRuntime.js:1946-1967 | Success clears the active lease; failure reopens it only if it is still the active one. |
| RetryLoops.RequestLeaseWithRetry | sdk/services/browserWalletRuntime.js:1538-1591 | At most maxAttempts requests; every pause honours backoff and advertised delay and is due to end by the deadline; failure only on a final error, the last attempt or lack of time. |
| RetryLoops.RetireRequest | sdk/services/browserWalletRuntime.js:1888-1915 | The loop without a counter ends; its pauses are paced the same way and it gives up only on a final error or lack of time. |
| RetryLoops.AtMostEightRequests | sdk/services/browserWalletRuntime.js:1888-1915 | Under the 45 second default retirement sends at most eight requests, whatever latency, overshoot or advertised delays. |
| RetryLoops.EightIsAttained | sdk/services/browserWalletRuntime.js:1888-1915 | A server that always asks for another try, on an exact clock, receives all eight. |
| RetryLoops.RetryDelay | sdk/services/browserWalletRuntime.js:1566-1571 | At least the backoff and at least the advertised delay, and equal to one of them. |
| BlindSchnorr.ScalarMul | crates/zkapi-auth/src/blind_schnorr.rs:37-49 | The double-and-add loop computes (k mod n) times the point, for every scalar and point. |
| BlindSchnorr.Completeness | crates/zkapi-auth/src/blind_schnorr.rs:102-169 | Blinding panics if and only if the blinded point is the identity, and every other honest run yields a signature that verifies. |
| BlindSchnorr.PerfectBlindness | crates/zkapi-auth/src/blind_schnorr.rs:12-18 | For any key, honest transcript and accepted reduced signature, exactly one pair of blinding factors maps that transcript to that signature. |
| BlindSchnorr.FactorsExplain | crates/zkapi-auth/src/blind_schnorr.rs:116-157 | The factors s' - s and c - c' do map the transcript to the signature. |
| BlindSchnorr.FactorsUnique | crates/zkapi-auth/src/blind_schnorr.rs:116-157 | Any factors that do are these. |
| BlindSchnorr.OtherMessageNeedsCollision | crates/zkapi-auth/src/blind_schnorr.rs:160-170 | A signature serves a second message only if the challenge hash collides. |
| BlindSchnorr.UnreducedVerifiesToo | crates/zkapi-auth/src/blind_schnorr.rs:160-170 | s' and s' + n verify alike, which is why blindness speaks of reduced components. |
| BlindSchnorr.GroupExists | crates/zkapi-auth/src/blind_schnorr.rs:31-49 | The group laws have a model. |
| BlindSchnorr.RecoveredPoint | crates/zkapi-auth/src/blind_schnorr.rs:160-167 | Verification recovers the multiple r of the base with r + c' x = s'. |
| Scalar.SubThenAdd | crates/zkapi-auth/src/scalar.rs:41-46 | Adding back what was subtracted gives the reduced scalar. |
| Scalar.AddCancels | crates/zkapi-auth/src/scalar.rs:36-38 | Addition of a fixed scalar is injective on reduced scalars. |
| Scalar.ReducedFactor | crates/zkapi-auth/src/scalar.rs:31-51 | A product may be taken with a reduced factor. |
| CredentialLedger.RunRefines | crates/zkapi-auth/src/lib.rs:98-141 | A lawful scheme whose tokens do not collide answers every run, failed signings included, exactly as the abstract ledger answers the operations that the signer did not fail, and its spent set is the ledger's. |
| CredentialLedger.FailureChangesNothing | crates/zkapi-auth/src/lib.rs:98-141 | A step that the signer fails leaves the whole system as it was. |
| CredentialLedger.NoTokenTwice | crates/zkapi-auth/src/lib.rs:121-123 | Whatever anyone presents in whatever order, no spend token is accepted twice nor after it was spent. |
| CredentialLedger.BalanceIsDepositMinusCharges | crates/zkapi-auth/src/lib.rs:125-137 | A balance is the deposit minus the accepted charges, and a withdrawal pays exactly that. |
| CredentialLedger.PaidIsFinal | crates/zkapi-auth/src/lib.rs:133-137 | After a withdrawal the user is never paid or served again in any continuation, and the paid balance stands. |
| CredentialLedger.UsedUpStays | crates/zkapi-auth/src/lib.rs:121-137 | A used-up credential gets no acceptance, charge or payment. |
| BlindCredentials.BlindImplementsLedger | crates/zkapi-auth/src/blind_signature.rs:97-194 | Over every honest run whose serial hash does not collide on the inputs it evaluated, the blind-signature scheme answers as the ledger does on the answered operations, and all serials differ. |
| BlindCredentials.BlindIsLawful | crates/zkapi-auth/src/blind_signature.rs:111-176 | Every issued or re-issued credential has the right balance and is accepted. |
| BlindCredentials.SerialsDiffer | crates/zkapi-auth/src/blind_signature.rs:97-99 | Equal serials come from equal inputs, down to the secrets. |
| BlindCredentials.ForgedBalanceNeedsCollision | crates/zkapi-auth/src/blind_signature.rs:200-215 | A credential presented with another balance is accepted only if the challenge hash collides on the two messages. |
| BlindCredentials.BlindSignatureScheme.VerifyPresentation | crates/zkapi-auth/src/blind_signature.rs:142-153 | Accepted if and only if the signature verifies and the serial is unspent; otherwise the spent set is unchanged. |
| BlindCredentials.BlindSignatureScheme.IssueCredential | crates/zkapi-auth/src/blind_signature.rs:111-121 | Fails exactly when blinding panics; the credential carries deposit and genesis serial and is accepted. |
| BlindCredentials.BlindSignatureScheme.ApplyCharge | crates/zkapi-auth/src/blind_signature.rs:155-176 | Insufficient if and only if the charge exceeds the balance; the next credential has the remaining balance and the next serial and is accepted. |
| BlindCredentials.BlindSignatureScheme.VerifyWithdrawal | crates/zkapi-auth/src/blind_signature.rs:186-189 | Pays the shown balance if and only if the credential is accepted and unspent. |
| StateAnchor.AnchorImplementsLedger | crates/zkapi-auth/src/state_anchor.rs:161-282 | Over every honest run without collisions among evaluated inputs, whether or not the leaves run out, the state-anchor scheme answers as the ledger does on the answered operations, and all nullifiers differ. |
| StateAnchor.AnchoredIsLawful | crates/zkapi-auth/src/state_anchor.rs:203-257 | Every issued or re-signed credential has the right balance and is accepted. |
| StateAnchor.NullifiersDiffer | crates/zkapi-auth/src/state_anchor.rs:161-186 | Equal nullifiers come from equal secrets and anchors, down to the genesis anchor. |
| StateAnchor.StateAnchorScheme.VerifyPresentation | crates/zkapi-auth/src/state_anchor.rs:188-201 | For any presentation with any nullifier: accepted if and only if it is genesis or its state signature checks, and the shown nullifier is unspent; otherwise nothing changes. |
| StateAnchor.AcceptedIff | crates/zkapi-auth/src/state_anchor.rs:105-130 | Accepted presentations, spelled out: genesis, or a signature that checks on the message of the commitment to the shown balance and blinding and of the shown anchor. |
| StateAnchor.ChargeSigns | crates/zkapi-auth/src/state_anchor.rs:203-257 | A charge signs the commitment to the remaining balance under the rerandomised blinding, with the anchor of the shown nullifier. |
| StateAnchor.AcceptedWasSigned | crates/zkapi-auth/src/state_anchor.rs:105-130 | Where a signature checks only for what was signed and neither message nor commitment collides, an accepted non-genesis presentation shows balance, blinding and anchor of a credential that some logged charge left. |
| StateAnchor.ForgedBalanceIsRejected | crates/zkapi-auth/src/state_anchor.rs:188-201 | Under the same assumptions a presentation whose balance is not that of the credential with its anchor is rejected. |
| StateAnchor.RerandIsUniform | crates/zkapi-auth/src/state_anchor.rs:203-257 | Every reduced blinding is reached by exactly one rerandomisation, so the next commitment tells nothing of the last. |
| StateAnchor.ShownTwiceIff | crates/zkapi-auth/src/state_anchor.rs:188-201 | One state shown twice is accepted both times if and only if it checks and the two shown nullifiers differ and are unspent: the verifier takes the nullifier as shown. |
| StateAnchor.HonestlyShown | crates/zkapi-auth/src/state_anchor.rs:161-186 | An honest presentation carries the nullifier of secret and anchor, and is judged as the ledger's scheme judges its credential. |
| StateAnchor.StateAnchorScheme.ApplyCharge | crates/zkapi-auth/src/state_anchor.rs:203-257 | Insufficient, exhausted or charged, each exactly when; one leaf is used exactly on success, the shown nullifier enters anchor and blinding, and the next credential is accepted. |
| StateAnchor.StateAnchorScheme.VerifyWithdrawal | crates/zkapi-auth/src/state_anchor.rs:274-277 | Pays the shown balance if and only if the presentation is accepted and its nullifier unspent. |
| CredentialSchemes.SchemesAgree | crates/zkapi-auth/src/lib.rs:98-141 | Two honest runs, one under each scheme, whose answered operations are alike give the same answers whatever is drawn at random. |
| OllamaStream.SplittingDoesNotMatter | crates/zkapi-clientd/src/routes.rs:266-279 | Any two cuts of the same error-free bytes give the same items. |
| OllamaStream.StreamIsWhole | crates/zkapi-clientd/src/routes.rs:266-279 | What the unfold loop emits for an error-free upstream, from any state, is what the joined bytes emit at once. |
| OllamaStream.StreamMeansItsLines | crates/zkapi-clientd/src/routes.rs:281-391 | The emitted items are exactly the meaning of the lines of the joined bytes: a message per event that says something, then the ending. |
| OllamaStream.OneTerminalItem | crates/zkapi-clientd/src/routes.rs:412-438 | The stream ends with exactly one terminal item, in last place, even if the upstream breaks off. |
| OllamaStream.ContentIsPreserved | crates/zkapi-clientd/src/routes.rs:331-373 | The content fields concatenate to the content deltas of the events before the end. |
| OllamaStream.StreamEndsAs | crates/zkapi-clientd/src/routes.rs:281-391 | However the stream is cut: an unreadable event ends it in a parse error, a reported error in its own message, and otherwise the closing item has the finish reason, prompt count and completion count that were reported last, or `stop` and zero. |
| OllamaStream.ReadMeans | crates/zkapi-clientd/src/routes.rs:281-300 | A line says something only behind `data:`, with or without one space: nothing, the end mark, an unreadable event or the parsed event. |
| OllamaStream.LinesMean | crates/zkapi-clientd/src/routes.rs:267-279 | A line ends at its newline or at the carriage return before it, and the rest is read on its own. |
| OllamaStream.DeltaSays | crates/zkapi-clientd/src/routes.rs:331-373 | An event becomes one message with its own content, thinking and tool calls, or none if it has none of them. |
| OllamaStream.StreamState.Pull | crates/zkapi-clientd/src/routes.rs:412-438 | Returns the first of the remaining items and leaves the rest, or reports the end exactly when none remain. |
| OllamaStream.StreamState.ConsumeCompleteLines | crates/zkapi-clientd/src/routes.rs:267-279 | The loop computes the line-wise consumption of the buffer. |
| OllamaStream.StreamState.ConsumeLine | crates/zkapi-clientd/src/routes.rs:281-391 | One line, in place, equal to the line function. |
| OllamaStream.LinesSplit | crates/zkapi-clientd/src/routes.rs:267-279 | Consuming a first part and then the rest is consuming both at once. |
| OllamaStream.MissingNewlineIff | crates/zkapi-clientd/src/routes.rs:429-435 | After any bytes, from any state and however both streams are cut into chunks, a missing final newline changes the output if and only if the stream is unfinished at the last line and that line is `data:`, an optional space, nothing or `[DONE]`, and a carriage return. |
| OllamaStream.CutEndMark | crates/zkapi-clientd/src/routes.rs:429-435 | Both failing inputs, in any chunks: a stream cut inside the CRLF of its end mark, or of an empty event, ends in an error item. |
| TokenAmounts.FormatThenParse | sdk/wallet.js:44-54 | Parsing a formatted amount gives it back, for every natural number. |
| TokenAmounts.AcceptsIff | sdk/wallet.js:44-48 | Accepted texts are exactly digits, optionally followed by a point and at most six digits. |
| TokenAmounts.ParseDecimal | sdk/wallet.js:44-48 | A fraction of k digits counts its value times ten to the 6 - k millionths. |
| TokenAmounts.FormatInjective | sdk/wallet.js:50-54 | Different amounts print differently. |
| Numerals.NumeralValue | sdk/wallet.js:21-27 | Reading a printed number gives it back. |
| Numerals.NumeralLength | sdk/wallet.js:21-27 | A number prints in at most k digits if and only if it is below base to the k. |
| WithdrawalCodec.EncodeThenDecode | sdk/wallet.js:130-181 | ABI-decoding any encoded withdrawal gives the eight-digit selector of its mode, 14 words that are, in order, version, chain, contract, root, the four key coordinates, note, balance, destination, nullifier, the clearance flag and the tag of the answer, its 32 siblings, and through the offset word the same 256 proof bytes. |
| WithdrawalCodec.PaysTheAccount | sdk/wallet.js:160-181 | The account in the destination word is the one the caller named, whether the answer gives it as text or as bytes. |
| WithdrawalCodec.EncodesIff | sdk/wallet.js:130-181 | Encoding succeeds if and only if the answer passes every check and each field and sibling fits a word. |
| WithdrawalCodec.WordMeans | sdk/wallet.js:21-27 | A word exists exactly for values of 1 to 64 hex digits, has 64 digits and the same value. |
| WithdrawalCodec.IntegerFits | sdk/wallet.js:21-27 | An integer is encodable if and only if it is an unsigned 256-bit number. |
| WithdrawalCodec.UnhexBytes | sdk/wallet.js:119-121 | Hex of bytes decodes to the bytes. |

## Left out

- IndexedDB opening and upgrade, Web Locks, BroadcastChannel, fetch, proxies and worker messages: only atomic transactions and the exclusive lock are kept.
- MetaMask prompts, status texts, activities, progress listeners, abort signals, and the formatting of money and expiry.
- Groth16, Poseidon, Merkle paths, Pedersen and XMSS internals: uninterpreted, with the laws stated where they are used. The epoch field of a state signature is dropped.
- The deposit history store, expiry claims and `projectBrowserDeposits`: archiving with reason `expiry-claimed` takes the verified claim as a flag.
- Late deposit attempts: `rememberPendingDepositTransaction` for a deposit that is no longer pending writes nothing in the model.
- Timestamps, owner ids, error texts and observed block numbers of records: start, close and deadline blocks are one flag `moved`, the audit lists of ambiguous replacements one flag `residue`.
- Patches across two lives of a record: revisions restart at 1 when a restored note is detached again, so RevisionLaws.StalePatchIsRefused speaks of one life.
- `clearPreparedWithdrawal` with `force`, `putBrowserWithdrawal`, and legacy records without operation id or phase.
- Case folding of addresses and hashes in the wallet: identifiers are numbers that are already normalised.
- The receipt parsers of sdk/wallet.js, deposit calldata and period labels: one-pass field reads.
- Manifest trust checks, URL validation, daemon configuration, the CLI and the indexer: flat equality tests.
- `from_uint` byte padding in the scalar module: scalars are natural numbers.
- ReplacementLaws.ReplacementKeepsOneNonce: a wallet in which the user edits the nonce of a prompt by hand is not modelled; the driver hands the nonce over, journals it and reports it (sdk/services/zkapiClient.js:2141-2175, 1078-1093).
- RecordReplacement.RecordKeepsOneNonce: a late transfer that merges attempts of another identity into the record is not a round of its runs; NoReplacementUntilChecked and ReplacementIssuedIff say what follows it.
- ReplacementLaws.IdentityStays: a callback that carries no identity, which no driver makes, is left out.
- StartRecovery.ReconcileRecord: the resolution block, the plan's ambiguous replacements and whether the pending flag was ever written are parameters; comparing the patch with the record before writing it is left out.
- RestoreChain.RestoredCannotMove: says nothing more about a start that a receipt confirmed; that a challenged note's Active state is itself settled (`browserWithdrawalStateFinality`) is left out.
- Chain.ConsumedIsFinal: takes immutability of finalized prefixes and the 64-block bound as assumptions about the chain.
