/** The chain as the wallet sees it through its node, and why an attempt whose nonce is
    consumed at a settled block, or whose reverted receipt is settled, can be retired. */
module Chain {
  import opened WalletTypes
  import opened PlanLog
  import opened ReplacementLaws

  const FALLBACK_DEPTH := 64

  datatype NoteStatus = Absent | Active | Pending | Closed

  /** What a successful transaction does to the vault. */
  datatype Effect =
    | Quiet
    | Deposits(note: NoteId)
    | Starts(note: NoteId)
    | Challenges(note: NoteId)
    | Closes(note: NoteId)

  datatype Tx = Tx(hash: Hash, from: Address, nonce: nat, ok: bool, effect: Effect)

  type Block = seq<Tx>

  /** A node's canonical chain at one moment, with the block its finalized tag names. */
  datatype View = View(chain: seq<Block>, finalized: Option<nat>)

  ghost function Flat(c: seq<Block>): seq<Tx> {
    if c == [] then [] else Flat(c[..|c| - 1]) + c[|c| - 1]
  }

  /** The account nonce of `from` after these transactions. */
  ghost function Count(txs: seq<Tx>, from: Address): nat {
    if txs == [] then 0 else Count(txs[..|txs| - 1], from) + if txs[|txs| - 1].from == from then 1 else 0
  }

  ghost function Apply(s: NoteStatus, t: Tx, n: NoteId): NoteStatus {
    if !t.ok then s
    else match t.effect
      case Deposits(m) => if m == n && s.Absent? then Active else s
      case Starts(m) => if m == n && s.Active? then Pending else s
      case Challenges(m) => if m == n && s.Pending? then Active else s
      case Closes(m) => if m == n && (s.Active? || s.Pending?) then Closed else s
      case Quiet => s
  }

  ghost function StatusOf(txs: seq<Tx>, n: NoteId): NoteStatus {
    if txs == [] then Absent else Apply(StatusOf(txs[..|txs| - 1], n), txs[|txs| - 1], n)
  }

  /** Section 6 of the Ethereum Yellow Paper: a transaction is valid only with its
      sender's current account nonce. */
  ghost predicate ValidTxs(txs: seq<Tx>) {
    forall p :: 0 <= p < |txs| ==> txs[p].nonce == Count(txs[..p], txs[p].from)
  }

  // --- One chain -----------------------------------------------------------------------

  lemma {:induction false} CountMonotone(txs: seq<Tx>, p: nat, from: Address)
    requires p <= |txs|
    ensures Count(txs[..p], from) <= Count(txs, from)
    decreases |txs|
  {
    if p < |txs| {
      CountMonotone(txs[..|txs| - 1], p, from);
      assert txs[..|txs| - 1][..p] == txs[..p];
    } else {
      assert txs[..p] == txs;
    }
  }

  /** Past a point where the sender's nonce is `count`, it uses no smaller nonce. */
  lemma NoncesOnlyRise(txs: seq<Tx>, m: nat, p: nat)
    requires ValidTxs(txs) && m <= p < |txs|
    ensures txs[p].nonce >= Count(txs[..m], txs[p].from)
  {
    CountMonotone(txs[..p], m, txs[p].from);
    assert txs[..p][..m] == txs[..m];
  }

  /** No two transactions of one chain share sender and nonce. */
  lemma OnePerNonce(txs: seq<Tx>, p: nat, q: nat)
    requires ValidTxs(txs) && p < |txs| && q < |txs|
    requires txs[p].from == txs[q].from && txs[p].nonce == txs[q].nonce
    ensures p == q
  {
    if p < q { LaterIsLarger(txs, p, q); }
    if q < p { LaterIsLarger(txs, q, p); }
  }

  lemma LaterIsLarger(txs: seq<Tx>, p: nat, q: nat)
    requires ValidTxs(txs) && p < q < |txs| && txs[p].from == txs[q].from
    ensures txs[p].nonce < txs[q].nonce
  {
    NoncesOnlyRise(txs, p + 1, q);
    assert txs[..p + 1][..p] == txs[..p];
  }

  lemma {:induction false} FlatPrefix(c: seq<Block>, k: nat)
    requires k <= |c|
    ensures |Flat(c[..k])| <= |Flat(c)| && Flat(c)[..|Flat(c[..k])|] == Flat(c[..k])
  {
    if k == |c| {
      assert c[..k] == c;
    } else {
      FlatPrefix(c[..|c| - 1], k);
      assert c[..|c| - 1][..k] == c[..k];
    }
  }

  // --- The node over time ----------------------------------------------------------------

  /** Blocks that this view lets nobody replace: finalized, or 64 below its head. */
  ghost predicate Settled(v: View, b: nat) {
    || (v.finalized.Some? && b <= v.finalized.value)
    || b + FALLBACK_DEPTH < |v.chain|
  }

  /** Every chain obeys the nonce rule and no later view replaces a settled block: finalized
      prefixes are immutable and reorganisations are shorter than 64 blocks. A hash fixes
      its transaction's sender and nonce. */
  ghost predicate Stable(views: seq<View>) {
    && (forall i :: 0 <= i < |views| ==> ValidTxs(Flat(views[i].chain)))
    && (forall i, j :: 0 <= i <= j < |views| ==> Keeps(views[i], views[j]))
    && (forall i, j :: 0 <= i < |views| && 0 <= j < |views| ==> HashesAgree(Flat(views[i].chain), Flat(views[j].chain)))
  }

  ghost predicate Keeps(v: View, later: View) {
    forall b: nat :: Settled(v, b) ==> SamePrefix(v, later, b)
  }

  ghost predicate SamePrefix(v: View, later: View, b: nat) {
    b < |v.chain| && b < |later.chain| && later.chain[..b + 1] == v.chain[..b + 1]
  }

  ghost predicate HashesAgree(txs: seq<Tx>, others: seq<Tx>) {
    forall s, t :: s in txs && t in others && s.hash == t.hash ==> s.from == t.from && s.nonce == t.nonce
  }

  /** What the node answered; an absent answer is a failed or malformed one. Account
      nonces and note statuses are read at a block number. */
  datatype Replies = Replies(finalized: Option<nat>, latest: Option<nat>,
                             counts: map<nat, nat>, statuses: map<nat, NoteStatus>)

  /** The answers are true: tags come from views up to t, reads at a block from views
      between t and now, possibly from different ones. */
  ghost predicate Truthful(q: Replies, views: seq<View>, from: Address, n: NoteId, observed: nat, t: nat, now: nat) {
    && t <= now < |views|
    && (q.finalized.Some? ==> exists i :: 0 <= i <= t && views[i].finalized == q.finalized)
    && (q.latest.Some? ==> exists i :: 0 <= i <= t && |views[i].chain| == q.latest.value + 1)
    && (observed > 0 ==> exists i :: 0 <= i <= t && |views[i].chain| == observed + 1)
    && (forall b :: b in q.counts ==> exists j :: t <= j <= now && CountAt(views[j], b, from, q.counts[b]))
    && (forall b :: b in q.statuses ==> exists j :: t <= j <= now && StatusAt(views[j], b, n, q.statuses[b]))
  }

  ghost predicate CountAt(v: View, b: nat, from: Address, count: nat) {
    b < |v.chain| && Count(Flat(v.chain[..b + 1]), from) == count
  }

  ghost predicate StatusAt(v: View, b: nat, n: NoteId, status: NoteStatus) {
    b < |v.chain| && StatusOf(Flat(v.chain[..b + 1]), n) == status
  }

  /** The block at which nonce and status are read: the finalized one, else 64 below the
      best head known. */
  function CheckedBlock(q: Replies, observed: nat): Option<nat> {
    if q.finalized.Some? then q.finalized
    else
      var head := if q.latest.Some? && q.latest.value > observed then q.latest.value else observed;
      if head <= FALLBACK_DEPTH then None else Some(head - FALLBACK_DEPTH)
  }

  predicate Consumes(q: Replies, nonce: nat, expected: set<NoteStatus>, observed: nat) {
    var b := CheckedBlock(q, observed);
    b.Some? && b.value in q.counts && b.value in q.statuses
    && q.counts[b.value] > nonce && q.statuses[b.value] in expected
  }

  datatype Verdict = Verdict(consumed: bool, checkedBlock: nat)

  /** browserTransactionNonceConsumed */
  method NonceConsumed(sender: Option<Sender>, expected: set<NoteStatus>, observed: nat, q: Replies)
    returns (r: Verdict)
    ensures r.consumed <==> sender.Some? && expected != {} && expected <= {Active, Pending}
                            && Consumes(q, sender.value.nonce, expected, observed)
    ensures r.consumed ==> CheckedBlock(q, observed) == Some(r.checkedBlock)
  {
    if sender.None? || expected == {} || !(expected <= {Active, Pending}) { return Verdict(false, 0); }
    var tag := q.finalized;
    if tag.None? {
      var head := observed;
      if q.latest.Some? && q.latest.value > head { head := q.latest.value; }
      if head <= FALLBACK_DEPTH { return Verdict(false, 0); }
      tag := Some(head - FALLBACK_DEPTH);
    }
    if tag.value !in q.counts || tag.value !in q.statuses { return Verdict(false, tag.value); }
    var consumed := q.counts[tag.value] > sender.value.nonce && q.statuses[tag.value] in expected;
    return Verdict(consumed, tag.value);
  }

  lemma CheckedBlockIsSettled(q: Replies, views: seq<View>, from: Address, n: NoteId, observed: nat, t: nat, now: nat)
    returns (i: nat)
    requires Truthful(q, views, from, n, observed, t, now) && CheckedBlock(q, observed).Some?
    ensures i <= t && Settled(views[i], CheckedBlock(q, observed).value)
  {
    if q.finalized.Some? {
      i :| 0 <= i <= t && views[i].finalized == q.finalized;
    } else if q.latest.Some? && q.latest.value > observed {
      i :| 0 <= i <= t && |views[i].chain| == q.latest.value + 1;
    } else {
      i :| 0 <= i <= t && |views[i].chain| == observed + 1;
    }
  }

  /** The identity cannot be used beyond block b of view v. */
  ghost predicate SpentBy(v: View, b: nat, s: Sender) {
    && b < |v.chain|
    && forall p :: |Flat(v.chain[..b + 1])| <= p < |Flat(v.chain)| ==>
          Flat(v.chain)[p].from != s.from || Flat(v.chain)[p].nonce != s.nonce
  }

  lemma SpentFromCount(v: View, b: nat, s: Sender)
    requires ValidTxs(Flat(v.chain)) && b < |v.chain| && Count(Flat(v.chain[..b + 1]), s.from) > s.nonce
    ensures SpentBy(v, b, s)
  {
    FlatPrefix(v.chain, b + 1);
    var m := |Flat(v.chain[..b + 1])|;
    forall p | m <= p < |Flat(v.chain)| && Flat(v.chain)[p].from == s.from ensures Flat(v.chain)[p].nonce != s.nonce {
      NoncesOnlyRise(Flat(v.chain), m, p);
    }
  }

  /** Retirement by nonce is sound. Once an attempt is reported consumed, in every later
      canonical chain the checked block is still there, the note had an expected status at
      that block, and no transaction with the attempt's sender and nonce stands after it:
      whatever moves the note from then on, the retired attempt does not. */
  lemma ConsumedIsFinal(q: Replies, views: seq<View>, s: Sender, n: NoteId, expected: set<NoteStatus>,
                        observed: nat, t: nat, now: nat, v: nat)
    requires Stable(views) && Truthful(q, views, s.from, n, observed, t, now)
    requires Consumes(q, s.nonce, expected, observed) && now <= v < |views|
    ensures var b := CheckedBlock(q, observed).value;
            && SpentBy(views[v], b, s)
            && exists status :: status in expected && StatusAt(views[v], b, n, status)
  {
    var b := CheckedBlock(q, observed).value;
    var i := CheckedBlockIsSettled(q, views, s.from, n, observed, t, now);
    var j :| t <= j <= now && CountAt(views[j], b, s.from, q.counts[b]);
    var k :| t <= k <= now && StatusAt(views[k], b, n, q.statuses[b]);
    assert Keeps(views[i], views[j]) && Keeps(views[i], views[k]) && Keeps(views[i], views[v]);
    ConsumedInView(views[i], views[j], views[k], views[v], b, s, n, q.counts[b], q.statuses[b]);
  }

  lemma ConsumedInView(base: View, counted: View, read: View, later: View, b: nat, s: Sender, n: NoteId, count: nat,
                       status: NoteStatus)
    requires Settled(base, b) && Keeps(base, counted) && Keeps(base, read) && Keeps(base, later)
    requires CountAt(counted, b, s.from, count) && count > s.nonce && StatusAt(read, b, n, status)
    requires ValidTxs(Flat(later.chain))
    ensures SpentBy(later, b, s) && StatusAt(later, b, n, status)
  {
    ReadsAgree(base, counted, later, b);
    ReadsAgree(base, read, later, b);
    SpentFromCount(later, b, s);
  }

  /** A read at a settled block gives the same answer at any later time. */
  lemma ReadsAgree(base: View, read: View, later: View, b: nat)
    requires Settled(base, b) && Keeps(base, read) && Keeps(base, later)
    ensures b < |read.chain| && b < |later.chain| && Flat(later.chain[..b + 1]) == Flat(read.chain[..b + 1])
  {
    assert SamePrefix(base, read, b) && SamePrefix(base, later, b);
  }

  /** The assumptions can be met: account 7 deposits note 3 in the finalized first block,
      and its nonce 0 is consumed while the note is active. */
  lemma ConsumptionHappens(deposit: Tx, v: View, q: Replies)
    requires deposit == Tx(5, 7, 0, true, Deposits(3)) && v == View([[deposit]], Some(0))
    requires q == Replies(Some(0), None, map[0 := 1], map[0 := Active])
    ensures Stable([v]) && Truthful(q, [v], 7, 3, 0, 0, 0) && Consumes(q, 0, {Active}, 0)
  {
    OneBlock(deposit, v);
    OneViewIsStable(v);
    TruthfulOfOne(q, v);
  }

  lemma OneViewIsStable(v: View)
    requires ValidTxs(Flat(v.chain)) && HashesAgree(Flat(v.chain), Flat(v.chain)) && v.finalized == Some(0)
    requires |v.chain| == 1
    ensures Stable([v])
  {
    assert forall b: nat :: Settled(v, b) ==> SamePrefix(v, v, b);
    assert Keeps(v, v);
  }

  lemma TruthfulOfOne(q: Replies, v: View)
    requires q == Replies(Some(0), None, map[0 := 1], map[0 := Active]) && v.finalized == Some(0)
    requires CountAt(v, 0, 7, 1) && StatusAt(v, 0, 3, Active)
    ensures Truthful(q, [v], 7, 3, 0, 0, 0)
  {
    assert [v][0].finalized == q.finalized;
    assert CountAt([v][0], 0, 7, 1) && StatusAt([v][0], 0, 3, Active);
  }

  lemma OneBlock(t: Tx, v: View)
    requires v.chain == [[t]] && t.nonce == 0
    ensures v.chain[..1] == v.chain && Flat(v.chain) == [t] && ValidTxs([t]) && HashesAgree([t], [t])
    ensures Count([t], t.from) == 1 && StatusOf([t], 3) == Apply(Absent, t, 3)
  {
    FlatOfOne(t);
    OneTx(t);
  }

  lemma FlatOfOne(t: Tx)
    ensures [[t]][..1] == [[t]] && Flat([[t]]) == [t]
  {
    assert [[t]][..0] == [];
    assert [] + [t] == [t];
  }

  lemma OneTx(t: Tx)
    requires t.nonce == 0
    ensures ValidTxs([t]) && HashesAgree([t], [t]) && Count([t], t.from) == 1 && StatusOf([t], 3) == Apply(Absent, t, 3)
  {
    assert [t][..0] == [];
  }

  // --- Reverted receipts -------------------------------------------------------------------

  datatype Receipt = Receipt(block: nat, ok: bool)

  /** browserRevertedReceiptFinality: block 0 counts as no answer here. */
  method RevertedReceiptFinal(seen: Receipt, finalized: Option<nat>, latest: Option<nat>, again: Option<Receipt>)
    returns (final: bool)
    ensures final <==> RevertSettled(seen, finalized, latest, again)
  {
    if seen.block == 0 || seen.ok { return false; }
    var checked := 0;
    if finalized.Some? { checked := finalized.value; }
    if checked == 0 && latest.Some? && latest.value > FALLBACK_DEPTH { checked := latest.value - FALLBACK_DEPTH; }
    if checked < seen.block { return false; }
    return again.Some? && again.value.block == seen.block && !again.value.ok;
  }

  predicate RevertSettled(seen: Receipt, finalized: Option<nat>, latest: Option<nat>, again: Option<Receipt>) {
    && seen.block > 0 && !seen.ok
    && (if finalized.Some? && finalized.value > 0 then seen.block <= finalized.value
        else latest.Some? && seen.block + FALLBACK_DEPTH <= latest.value)
    && again == Some(seen)
  }

  /** The receipt that a chain gives for a hash. */
  ghost predicate HasReceipt(v: View, hash: Hash, r: Receipt) {
    r.block < |v.chain| && exists t :: t in v.chain[r.block] && t.hash == hash && t.ok == r.ok
  }

  lemma {:induction false} InFlat(c: seq<Block>, b: nat, t: Tx)
    requires b < |c| && t in c[b]
    ensures t in Flat(c)
  {
    if b < |c| - 1 { InFlat(c[..|c| - 1], b, t); }
  }

  /** A chain that has the failed transaction has no other with its hash. */
  lemma OnlyFailed(v: View, b: nat, u: Tx, tx: Tx)
    requires ValidTxs(Flat(v.chain)) && HashesAgree(Flat(v.chain), Flat(v.chain))
    requires b < |v.chain| && u in v.chain[b] && tx in Flat(v.chain) && tx.hash == u.hash
    ensures tx == u
  {
    InFlat(v.chain, b, u);
    var txs := Flat(v.chain);
    var p :| 0 <= p < |txs| && txs[p] == u;
    var q :| 0 <= q < |txs| && txs[q] == tx;
    OnePerNonce(txs, p, q);
  }

  /** The evidence behind a settled revert: the tags and the second receipt are true. */
  ghost predicate RevertEvidence(views: seq<View>, hash: Hash, seen: Receipt, finalized: Option<nat>,
                                 latest: Option<nat>, t: nat, now: nat) {
    && t <= now < |views|
    && (finalized.Some? ==> exists i :: 0 <= i <= t && views[i].finalized == finalized)
    && (latest.Some? ==> exists i :: 0 <= i <= t && |views[i].chain| == latest.value + 1)
    && RevertSettled(seen, finalized, latest, Some(seen)) && HasReceipt(views[now], hash, seen)
  }

  lemma RevertBlockIsSettled(views: seq<View>, hash: Hash, seen: Receipt, finalized: Option<nat>, latest: Option<nat>,
                             t: nat, now: nat)
    returns (i: nat)
    requires RevertEvidence(views, hash, seen, finalized, latest, t, now)
    ensures i <= t && Settled(views[i], seen.block)
  {
    if finalized.Some? && finalized.value > 0 {
      i :| 0 <= i <= t && views[i].finalized == finalized;
    } else {
      i :| 0 <= i <= t && |views[i].chain| == latest.value + 1;
    }
  }

  /** A settled revert is final: in every later canonical chain each occurrence of that
      hash failed, so it moves no note. */
  lemma RevertIsFinal(views: seq<View>, hash: Hash, seen: Receipt, finalized: Option<nat>, latest: Option<nat>,
                      t: nat, now: nat, v: nat, tx: Tx)
    requires Stable(views) && RevertEvidence(views, hash, seen, finalized, latest, t, now) && now <= v < |views|
    requires tx in Flat(views[v].chain) && tx.hash == hash
    ensures !tx.ok
  {
    var i := RevertBlockIsSettled(views, hash, seen, finalized, latest, t, now);
    assert Keeps(views[i], views[now]) && Keeps(views[i], views[v]);
    assert ValidTxs(Flat(views[v].chain)) && HashesAgree(Flat(views[v].chain), Flat(views[v].chain));
    RevertInView(views[i], views[now], views[v], hash, seen, tx);
  }

  lemma RevertInView(base: View, read: View, later: View, hash: Hash, seen: Receipt, tx: Tx)
    requires Settled(base, seen.block) && Keeps(base, read) && Keeps(base, later)
    requires HasReceipt(read, hash, seen) && !seen.ok
    requires ValidTxs(Flat(later.chain)) && HashesAgree(Flat(later.chain), Flat(later.chain))
    requires tx in Flat(later.chain) && tx.hash == hash
    ensures !tx.ok
  {
    var b := seen.block;
    SameBlock(base, read, later, b);
    var u :| u in read.chain[b] && u.hash == hash && !u.ok;
    OnlyFailed(later, b, u, tx);
  }

  lemma SameBlock(base: View, read: View, later: View, b: nat)
    requires Settled(base, b) && Keeps(base, read) && Keeps(base, later)
    ensures b < |read.chain| && b < |later.chain| && later.chain[b] == read.chain[b]
  {
    assert SamePrefix(base, read, b) && SamePrefix(base, later, b);
    assert later.chain[..b + 1][b] == read.chain[..b + 1][b];
  }

  // --- At most one version executes ------------------------------------------------------------

  /** The log tells the truth about a transaction that is on the chain. */
  ghost predicate Describes(w: Wal, txs: seq<Tx>) {
    forall a, t :: a in w.attempts && t in txs && a.hash == t.hash && a.sender.Some?
      ==> a.sender == Some(Sender(t.from, t.nonce))
  }

  ghost predicate Saved(w: Wal, hash: Hash) {
    hash in w.hashes && exists a :: a in w.attempts && a.hash == hash && a.sender.Some?
  }

  /** After any rounds of replacement, at most one of the transactions in the stored log is
      ever included in a chain. */
  lemma AtMostOneVersionExecutes(d: Desk, rounds: seq<Round>, s: Sender, txs: seq<Tx>, i: nat, j: nat)
    requires AllUse(d, s) && FollowsAll(d, rounds) && NeverStartsOver(d, rounds)
    requires ValidTxs(txs) && Describes(DeskRun(d, rounds).stored.wal, txs) && i < |txs| && j < |txs|
    requires Saved(DeskRun(d, rounds).stored.wal, txs[i].hash) && Saved(DeskRun(d, rounds).stored.wal, txs[j].hash)
    ensures i == j
  {
    ReplacementKeepsOneNonce(d, rounds, s);
    SavedUses(DeskRun(d, rounds).stored.wal, s, txs, i);
    SavedUses(DeskRun(d, rounds).stored.wal, s, txs, j);
    OnePerNonce(txs, i, j);
  }

  lemma SavedUses(w: Wal, s: Sender, txs: seq<Tx>, i: nat)
    requires Identities(w) <= {s} && Describes(w, txs) && i < |txs| && Saved(w, txs[i].hash)
    ensures txs[i].from == s.from && txs[i].nonce == s.nonce
  {
    var a :| a in w.attempts && a.hash == txs[i].hash && a.sender.Some?;
    assert txs[i] in txs;
    SavedIdentity(w, a, a.sender.value);
  }
}
