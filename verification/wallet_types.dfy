/** The values kept by the browser wallet in its IndexedDB stores: the selected
    slot (`runtime`), the background withdrawal records and the archive.
    One deployment is fixed, so a record id is a function of its note id and
    the deployment, chain and contract fields of every identity are dropped.
    Hashes, addresses and identifiers are compared only for equality, so they
    are numbers; letter case is already normalised. */
module WalletTypes {

  type NoteId = nat
  type Address = nat
  type Hash = nat
  type OpId = nat
  type SubId = nat
  type Felt = nat

  datatype Option<+T> = None | Some(value: T)

  datatype Mode = Mutual | Escape

  /** The private state of one note. Only its id and balance are observed. */
  datatype Note = Note(id: NoteId, balance: nat)

  /** The journaled identity of a wallet transaction. */
  datatype Sender = Sender(from: Address, nonce: nat)

  datatype Attempt = Attempt(hash: Hash, sub: SubId, op: OpId, sender: Option<Sender>)

  datatype WalPhase = Reserving | Prepared | AwaitingWallet | Ambiguous | Submitted | Dropped | RetryExact

  /** The write-ahead part shared by a pending deposit and a prepared withdrawal:
      `sub` is the open wallet claim, `sender` its journaled nonce. */
  datatype Wal = Wal(phase: WalPhase, sub: Option<SubId>, sender: Option<Sender>,
                     hashes: seq<Hash>, attempts: seq<Attempt>)

  datatype Outcome =
    | NoOutcome | AwaitingWalletOutcome | AmbiguousOutcome | SubmittedOutcome
    | RejectedBeforeBroadcast | ExplicitlyRejected | RevertedOutcome | ReceiptMissing
    | ReplacementAwaiting | ReplacementUnknown | RetryAuthorized | ChallengedOutcome | ResolvedOutcome
    | PromptClosed

  /** A prepared withdrawal. `proved` says that proof and public inputs are present;
      `residue` that one of the audit lists ambiguousReplacements,
      ambiguousSubmissions or replacementOf is nonempty. */
  datatype Plan = Plan(mode: Mode, note: NoteId, destination: Option<Address>, op: Option<OpId>,
                       clearance: bool, nullifier: Option<Felt>, proved: bool,
                       outcome: Outcome, residue: bool, wal: Wal)

  datatype Deposit = Deposit(op: OpId, note: NoteId, amount: nat, secret: Felt, wal: Wal)

  /** What a wallet prompt carries away from the claim that opened it. */
  datatype Ref = Ref(sub: SubId, op: OpId, note: NoteId, mode: Mode, destination: Option<Address>,
                     clearance: bool, nullifier: Option<Felt>, replacement: Option<Sender>)

  datatype DepositRef = DepositRef(sub: SubId, op: OpId, note: NoteId, amount: nat, secret: Felt)

  datatype LateStatus =
    | SubmittedLate | Unconfirmed
    | ClosedLate | Detached | Reverted | Challenged | Superseded | Quarantined

  datatype Late = Late(op: OpId, sub: SubId, note: NoteId, mode: Mode, destination: Option<Address>,
                       clearance: bool, nullifier: Option<Felt>, hash: Hash,
                       sender: Option<Sender>, status: LateStatus)

  /** The selected slot. */
  datatype Runtime = Runtime(state: Option<Note>, journal: Option<Felt>, deposit: Option<Deposit>,
                             plan: Option<Plan>, lease: bool, late: seq<Late>)

  datatype Phase =
    | ParkedPhase | RestoredPhase | PendingPhase | SubmittedUnconfirmed | ChallengedUnconfirmed
    | RecoveryUnconfirmed | ClosedUnconfirmed | ClosedPhase | AwaitingPhase | AmbiguousPhase | FinalizingPhase

  datatype ChainStatus = ChainUnknown | ChainActive | ChainPending | ChainClosed

  /** A retired wallet claim, kept so that a late callback can be recognised. */
  datatype Claim = Claim(sub: SubId, op: OpId, from: Option<Address>, nonce: Option<nat>)

  datatype Retry = Retry(op: OpId, sender: Sender)

  /** The start-transaction log of a background record. */
  datatype StartLog = StartLog(pending: bool, sub: Option<SubId>, op: Option<OpId>, sender: Option<Sender>,
                               outcome: Outcome, hashes: seq<Hash>, attempts: seq<Attempt>,
                               dismissed: seq<Claim>, superseded: seq<Claim>, ambiguous: seq<Claim>,
                               retry: Option<Retry>, replaceables: seq<Hash>,
                               resolved: seq<Claim>, resolutionBlock: nat)

  datatype FinAttempt = FinAttempt(hash: Hash, sub: SubId, op: OpId, generation: nat, sender: Option<Sender>)

  /** The finalization log of a background record. */
  datatype FinLog = FinLog(op: Option<OpId>, generation: nat, sub: Option<SubId>, sender: Option<Sender>,
                           hashes: seq<Hash>, attempts: seq<FinAttempt>, outcome: Outcome,
                           retried: bool, concurrent: bool)

  /** One entry of resolvedStartTransactionHistory: claims and hashes that are final. */
  datatype Resolved = Resolved(hashes: seq<Hash>, attempts: seq<Attempt>, planAttempts: seq<Attempt>,
                               claims: seq<Claim>, lateObserved: seq<Hash>)

  /** A background withdrawal record. `moved` says that a start, close or deadline
      block of a real chain transition has been saved. */
  datatype Record = Record(note: NoteId, mode: Mode, destination: Option<Address>, phase: Phase,
                           chain: ChainStatus, state: Option<Note>, plan: Option<Plan>, clearance: bool,
                           nullifier: Option<Felt>, independent: bool, moved: bool,
                           start: StartLog, fin: FinLog, history: seq<Resolved>, revision: nat)

  datatype Archived = Archived(note: Note, journal: Option<Felt>, plan: Option<Plan>,
                               deposit: Option<Deposit>, lease: bool)

  /** The durable stores. */
  datatype Store = Store(runtime: Runtime, records: map<NoteId, Record>, archive: seq<Archived>)

  const EMPTY_WAL := Wal(Prepared, None, None, [], [])
  const EMPTY_START := StartLog(false, None, None, None, NoOutcome, [], [], [], [], [], None, [], [], 0)
  const EMPTY_FIN := FinLog(None, 0, None, None, [], [], NoOutcome, false, false)
  const EMPTY_RUNTIME := Runtime(None, None, None, None, false, [])

  function First<T>(a: Option<T>, b: Option<T>): Option<T> {
    if a.Some? then a else b
  }

  /** The slot left behind when its note has moved away: only the late attempts stay. */
  function Emptied(r: Runtime): Runtime {
    EMPTY_RUNTIME.(late := r.late)
  }

  predicate Selects(r: Runtime, n: NoteId) {
    r.state.Some? && r.state.value.id == n
  }
}
