/** The reconciliation pass over the start transactions of a background record: when it
    reports nothing unresolved, no saved start can still move the note. */
module StartRecovery {
  import opened WalletTypes
  import opened AttemptLog
  import opened WithdrawalRecord
  import opened Chain

  /** What the node shows for a start hash: no receipt, a receipt with the expected event,
      a success without it, or a failure. */
  datatype Seen = Missing | Matching | Mismatched | Failed(receipt: Receipt)

  datatype Recheck = Recheck(finalized: Option<nat>, latest: Option<nat>, again: Option<Receipt>)

  /** The node's answers during one pass. */
  datatype Node = Node(receipts: map<Hash, Seen>, replies: map<Sender, Replies>, rechecks: map<Hash, Recheck>)

  function SeenOf(node: Node, h: Hash): Seen {
    if h in node.receipts then node.receipts[h] else Missing
  }

  /** The sender saved with the first attempt of a hash. */
  function SenderOf(attempts: seq<Attempt>, h: Hash): Option<Sender> {
    if attempts == [] then None
    else if attempts[0].hash == h then attempts[0].sender
    else SenderOf(attempts[1..], h)
  }

  /** A claim that the record still answers for; a saved retry has no claim id. */
  datatype LiveClaim = LiveClaim(sub: Option<SubId>, op: Option<OpId>, from: Option<Address>, nonce: Option<nat>)

  function ClaimSender(c: LiveClaim): Option<Sender> {
    if c.from.Some? && c.nonce.Some? then Some(Sender(c.from.value, c.nonce.value)) else None
  }

  function AsLive(c: Claim): LiveClaim {
    LiveClaim(Some(c.sub), Some(c.op), c.from, c.nonce)
  }

  function AllLive(s: seq<Claim>): (r: seq<LiveClaim>)
    ensures |r| == |s| && forall i :: 0 <= i < |s| ==> r[i] == AsLive(s[i])
  {
    seq(|s|, i requires 0 <= i < |s| => AsLive(s[i]))
  }

  function AttemptsLive(s: seq<Attempt>): seq<LiveClaim> {
    seq(|s|, i requires 0 <= i < |s| => LiveClaim(Some(s[i].sub), Some(s[i].op), FromOf(s[i].sender),
                                                  NonceOf(s[i].sender)))
  }

  function OpenLive(sub: Option<SubId>, op: Option<OpId>, sender: Option<Sender>): seq<LiveClaim> {
    if sub.Some? then [LiveClaim(sub, op, FromOf(sender), NonceOf(sender))] else []
  }

  /** The claims a record holds; `replaced` are the ambiguous replacements of its plan. */
  function SavedClaims(rec: Record, replaced: seq<Claim>): seq<LiveClaim> {
    var s := rec.start;
    OpenLive(s.sub, s.op, s.sender)
    + (if rec.plan.Some? then OpenLive(rec.plan.value.wal.sub, rec.plan.value.op, rec.plan.value.wal.sender) else [])
    + AllLive(s.superseded) + AllLive(s.ambiguous) + AllLive(replaced)
    + (if s.retry.Some? then
         [LiveClaim(None, Some(s.retry.value.op), Some(s.retry.value.sender.from), Some(s.retry.value.sender.nonce))]
       else [])
  }

  function SavedAttempts(rec: Record): seq<Attempt> {
    rec.start.attempts + if rec.plan.Some? then rec.plan.value.wal.attempts else []
  }

  /** The senders that the evidence names for this operation and nonce. */
  function Candidates(evidence: seq<LiveClaim>, c: LiveClaim): seq<Address> {
    if evidence == [] then []
    else
      var e := evidence[0];
      (if e.from.Some? && e.op == c.op && e.nonce.Some? && e.nonce == c.nonce then [e.from.value] else [])
      + Candidates(evidence[1..], c)
  }

  /** A claim without a sender takes the only one that the evidence names. */
  function Completed(c: LiveClaim, evidence: seq<LiveClaim>): LiveClaim {
    var found := Candidates(evidence, c);
    if c.from.Some? then c
    else if found != [] && forall i :: 0 <= i < |found| ==> found[i] == found[0] then c.(from := Some(found[0]))
    else c
  }

  /** backgroundWithdrawalClaims */
  function LiveClaims(rec: Record, replaced: seq<Claim>): (r: seq<LiveClaim>)
    ensures |r| == |SavedClaims(rec, replaced)|
    ensures forall i :: 0 <= i < |r| ==>
          r[i].sub == SavedClaims(rec, replaced)[i].sub && r[i].nonce == SavedClaims(rec, replaced)[i].nonce
  {
    var saved := SavedClaims(rec, replaced);
    seq(|saved|, i requires 0 <= i < |saved| => Completed(saved[i], Evidence(rec, replaced)))
  }

  /** The nonce is used up at a settled block at which the note is still active. */
  predicate Retired(node: Node, sender: Option<Sender>, observed: nat) {
    sender.Some? && sender.value in node.replies
        && Consumes(node.replies[sender.value], sender.value.nonce, {Active}, observed)
  }

  predicate Reverted(node: Node, h: Hash) {
    SeenOf(node, h).Failed? && h in node.rechecks
    && RevertSettled(SeenOf(node, h).receipt, node.rechecks[h].finalized, node.rechecks[h].latest,
                     node.rechecks[h].again)
  }

  // --- The same on the record's own fields ----------------------------------------------------

  /** c carries this claim id and operation, and of the sender what is known. */
  ghost predicate Carries(c: LiveClaim, sub: Option<SubId>, op: Option<OpId>, sender: Option<Sender>) {
    c.sub == sub && c.op == op
    && (if sender.Some? then c.from == Some(sender.value.from) && c.nonce == Some(sender.value.nonce)
        else c.from.None? && c.nonce.None?)
  }

  ghost predicate Copies(c: LiveClaim, d: Claim) {
    c.sub == Some(d.sub) && c.op == Some(d.op) && c.from == d.from && c.nonce == d.nonce
  }

  /** The record answers for c: it is the open start claim, the open claim of the plan, the saved
      retry, or one of the claims that were superseded, ambiguous or replaced. */
  ghost predicate Answers(rec: Record, replaced: seq<Claim>, c: LiveClaim) {
    || (rec.start.sub.Some? && Carries(c, rec.start.sub, rec.start.op, rec.start.sender))
    || (rec.plan.Some? && rec.plan.value.wal.sub.Some?
        && Carries(c, rec.plan.value.wal.sub, rec.plan.value.op, rec.plan.value.wal.sender))
    || (rec.start.retry.Some? && Carries(c, None, Some(rec.start.retry.value.op), Some(rec.start.retry.value.sender)))
    || (exists d :: (d in rec.start.superseded || d in rec.start.ambiguous || d in replaced) && Copies(c, d))
  }

  /** The record holds an attempt in its own log or in that of its plan. */
  ghost predicate Attempted(rec: Record, a: Attempt) {
    a in rec.start.attempts || (rec.plan.Some? && a in rec.plan.value.wal.attempts)
  }

  /** Some claim or attempt names this sender for the operation and nonce. */
  ghost predicate NamesSender(rec: Record, replaced: seq<Claim>, op: Option<OpId>, nonce: nat, from: Address) {
    || (exists c :: Answers(rec, replaced, c) && c.op == op && c.nonce == Some(nonce) && c.from == Some(from))
    || (exists a :: Attempted(rec, a) && Some(a.op) == op && a.sender == Some(Sender(from, nonce)))
  }

  /** The identity under which a claim is checked. A claim without a sender takes the only one
      named for its operation and nonce; without a nonce, or with several named, it has none. */
  ghost predicate CheckedAs(rec: Record, replaced: seq<Claim>, c: LiveClaim, s: Sender) {
    && c.nonce == Some(s.nonce)
    && (if c.from.Some? then c.from == Some(s.from)
        else NamesSender(rec, replaced, c.op, s.nonce, s.from)
             && forall f :: NamesSender(rec, replaced, c.op, s.nonce, f) ==> f == s.from)
  }

  /** The claim has an identity, and its nonce is used up. */
  ghost predicate ClaimDone(node: Node, rec: Record, replaced: seq<Claim>, c: LiveClaim, observed: nat) {
    exists s :: CheckedAs(rec, replaced, c, s) && Retired(node, Some(s), observed)
  }

  /** a is the first attempt of its hash. */
  ghost predicate IsFirst(attempts: seq<Attempt>, a: Attempt) {
    exists i :: 0 <= i < |attempts| && attempts[i] == a && forall j :: 0 <= j < i ==> attempts[j].hash != a.hash
  }

  /** The first attempt of the hash in the record's own log, else in that of its plan, has this sender. */
  ghost predicate SentAs(rec: Record, h: Hash, s: Option<Sender>) {
    exists a: Attempt :: a.hash == h && a.sender == s
                && (IsFirst(rec.start.attempts, a)
                    || (!HasHash(rec.start.attempts, h) && rec.plan.Some? && IsFirst(rec.plan.value.wal.attempts, a)))
  }

  /** A receipt confirms the hash, or its failure is final, or its nonce is used up. */
  ghost predicate HashDone(node: Node, rec: Record, h: Hash, observed: nat) {
    match SeenOf(node, h)
    case Matching => true
    case Failed(_) => Reverted(node, h)
    case _ => exists s :: SentAs(rec, h, Some(s)) && Retired(node, Some(s), observed)
  }

  /** Every hash the record knows and every claim it answers for is done. */
  ghost predicate Clean(node: Node, rec: Record, replaced: seq<Claim>, observed: nat) {
    && (forall h :: Mentions(rec, h) ==> HashDone(node, rec, h, observed))
    && (forall c :: Answers(rec, replaced, c) ==> ClaimDone(node, rec, replaced, c, observed))
  }

  lemma FirstOfRest(attempts: seq<Attempt>, a: Attempt)
    requires attempts != [] && attempts[0].hash != a.hash
    ensures IsFirst(attempts, a) <==> IsFirst(attempts[1..], a)
  {
    var rest := attempts[1..];
    assert forall j :: 0 <= j < |rest| ==> rest[j] == attempts[j + 1];
    if IsFirst(rest, a) {
      var i :| 0 <= i < |rest| && rest[i] == a && forall j :: 0 <= j < i ==> rest[j].hash != a.hash;
      assert attempts[i + 1] == a && forall j :: 0 < j < i + 1 ==> attempts[j] == rest[j - 1];
    }
    if IsFirst(attempts, a) {
      var i :| 0 <= i < |attempts| && attempts[i] == a && forall j :: 0 <= j < i ==> attempts[j].hash != a.hash;
      assert rest[i - 1] == a;
    }
  }

  lemma {:induction false} FirstSender(attempts: seq<Attempt>, h: Hash)
    ensures HasHash(attempts, h) ==>
              exists a :: IsFirst(attempts, a) && a.hash == h && a.sender == SenderOf(attempts, h)
    ensures !HasHash(attempts, h) ==> SenderOf(attempts, h).None?
  {
    if attempts != [] {
      assert attempts == [attempts[0]] + attempts[1..];
      if attempts[0].hash == h {
        assert IsFirst(attempts, attempts[0]);
      } else {
        FirstSender(attempts[1..], h);
        if a :| IsFirst(attempts[1..], a) && a.hash == h && a.sender == SenderOf(attempts[1..], h) {
          FirstOfRest(attempts, a);
        }
      }
    }
  }

  lemma OneFirst(attempts: seq<Attempt>, a: Attempt, b: Attempt)
    requires IsFirst(attempts, a) && IsFirst(attempts, b) && a.hash == b.hash
    ensures a == b && HasHash(attempts, a.hash)
  {
  }

  lemma {:induction false} SenderOfConcat(a: seq<Attempt>, b: seq<Attempt>, h: Hash)
    ensures SenderOf(a + b, h) == if HasHash(a, h) then SenderOf(a, h) else SenderOf(b, h)
  {
    if a == [] {
      assert a + b == b;
    } else {
      assert (a + b)[1..] == a[1..] + b && a == [a[0]] + a[1..];
      SenderOfConcat(a[1..], b, h);
    }
  }

  lemma SentAsIff(rec: Record, h: Hash, s: Sender)
    ensures SentAs(rec, h, Some(s)) <==> SenderOf(SavedAttempts(rec), h) == Some(s)
  {
    var tried := if rec.plan.Some? then rec.plan.value.wal.attempts else [];
    SenderOfConcat(rec.start.attempts, tried, h);
    FirstSender(rec.start.attempts, h);
    FirstSender(tried, h);
    forall a, b | IsFirst(rec.start.attempts, a) && IsFirst(rec.start.attempts, b) && a.hash == b.hash ensures a == b {
      OneFirst(rec.start.attempts, a, b);
    }
    forall a, b | IsFirst(tried, a) && IsFirst(tried, b) && a.hash == b.hash ensures a == b { OneFirst(tried, a, b); }
  }

  lemma HashDoneIff(node: Node, rec: Record, h: Hash, observed: nat)
    ensures HashDone(node, rec, h, observed) <==> Resolves(node, SavedAttempts(rec), h, observed)
  {
    var sender := SenderOf(SavedAttempts(rec), h);
    if sender.Some? { SentAsIff(rec, h, sender.value); }
    forall s | SentAs(rec, h, Some(s)) ensures sender == Some(s) { SentAsIff(rec, h, s); }
  }

  lemma SavedIff(rec: Record, replaced: seq<Claim>, c: LiveClaim)
    ensures c in SavedClaims(rec, replaced) <==> Answers(rec, replaced, c)
  {
    AllLiveIff(rec.start.superseded, c);
    AllLiveIff(rec.start.ambiguous, c);
    AllLiveIff(replaced, c);
  }

  lemma AllLiveIff(s: seq<Claim>, c: LiveClaim)
    ensures c in AllLive(s) <==> exists d :: d in s && Copies(c, d)
  {
    if d :| d in s && Copies(c, d) {
      var i :| 0 <= i < |s| && s[i] == d;
      assert AllLive(s)[i] == c;
    }
    if c in AllLive(s) {
      var i :| 0 <= i < |s| && AllLive(s)[i] == c;
      assert s[i] in s && Copies(c, s[i]);
    }
  }

  lemma AttemptsLiveIff(s: seq<Attempt>, op: Option<OpId>, nonce: nat, from: Address)
    ensures (exists e :: e in AttemptsLive(s) && e.op == op && e.nonce == Some(nonce) && e.from == Some(from))
        <==> exists a :: a in s && Some(a.op) == op && a.sender == Some(Sender(from, nonce))
  {
    if a :| a in s && Some(a.op) == op && a.sender == Some(Sender(from, nonce)) {
      var i :| 0 <= i < |s| && s[i] == a;
      assert AttemptsLive(s)[i] in AttemptsLive(s);
    }
    if e :| e in AttemptsLive(s) && e.op == op && e.nonce == Some(nonce) && e.from == Some(from) {
      var i :| 0 <= i < |s| && AttemptsLive(s)[i] == e;
      assert s[i] in s;
    }
  }

  /** Claims and attempts in which a sender is looked for. */
  function Evidence(rec: Record, replaced: seq<Claim>): seq<LiveClaim> {
    SavedClaims(rec, replaced) + AttemptsLive(SavedAttempts(rec))
  }

  lemma NamesSenderIff(rec: Record, replaced: seq<Claim>, op: Option<OpId>, nonce: nat, from: Address)
    ensures NamesSender(rec, replaced, op, nonce, from)
       <==> exists e :: e in Evidence(rec, replaced) && e.op == op && e.nonce == Some(nonce) && e.from == Some(from)
  {
    AttemptsLiveIff(SavedAttempts(rec), op, nonce, from);
    forall c ensures c in SavedClaims(rec, replaced) <==> Answers(rec, replaced, c) { SavedIff(rec, replaced, c); }
    assert forall a :: a in SavedAttempts(rec) <==> Attempted(rec, a);
    assert forall e :: e in Evidence(rec, replaced)
                  <==> e in SavedClaims(rec, replaced) || e in AttemptsLive(SavedAttempts(rec));
  }

  lemma {:induction false} CandidatesIff(evidence: seq<LiveClaim>, c: LiveClaim, from: Address)
    ensures from in Candidates(evidence, c) <==>
            exists e :: e in evidence && e.op == c.op && e.nonce.Some? && e.nonce == c.nonce && e.from == Some(from)
  {
    if evidence != [] {
      CandidatesIff(evidence[1..], c, from);
      assert evidence == [evidence[0]] + evidence[1..];
    }
  }

  /** The completed claim is checked under exactly the identity that the record's fields give it. */
  lemma CheckedAsIff(rec: Record, replaced: seq<Claim>, c: LiveClaim, s: Sender)
    ensures CheckedAs(rec, replaced, c, s) <==> ClaimSender(Completed(c, Evidence(rec, replaced))) == Some(s)
  {
    if c.from.None? && c.nonce.Some? {
      var found := Candidates(Evidence(rec, replaced), c);
      forall f ensures f in found <==> NamesSender(rec, replaced, c.op, c.nonce.value, f) {
        CandidatesIff(Evidence(rec, replaced), c, f);
        NamesSenderIff(rec, replaced, c.op, c.nonce.value, f);
      }
      if found != [] && forall i :: 0 <= i < |found| ==> found[i] == found[0] {
        assert found[0] in found;
      }
      if CheckedAs(rec, replaced, c, s) {
        assert s.from in found;
        forall i | 0 <= i < |found| ensures found[i] == s.from { assert found[i] in found; }
      }
    }
  }

  lemma ClaimDoneIff(node: Node, rec: Record, replaced: seq<Claim>, c: LiveClaim, observed: nat)
    ensures ClaimDone(node, rec, replaced, c, observed)
       <==> Retired(node, ClaimSender(Completed(c, Evidence(rec, replaced))), observed)
  {
    var sender := ClaimSender(Completed(c, Evidence(rec, replaced)));
    if sender.Some? { CheckedAsIff(rec, replaced, c, sender.value); }
    forall s | CheckedAs(rec, replaced, c, s) ensures sender == Some(s) { CheckedAsIff(rec, replaced, c, s); }
  }

  lemma LiveIff(rec: Record, replaced: seq<Claim>, d: LiveClaim)
    ensures d in LiveClaims(rec, replaced)
       <==> exists c :: Answers(rec, replaced, c) && d == Completed(c, Evidence(rec, replaced))
  {
    var saved := SavedClaims(rec, replaced);
    if c :| Answers(rec, replaced, c) && d == Completed(c, Evidence(rec, replaced)) {
      SavedIff(rec, replaced, c);
      var i :| 0 <= i < |saved| && saved[i] == c;
      assert LiveClaims(rec, replaced)[i] == d;
    }
    if d in LiveClaims(rec, replaced) {
      var i :| 0 <= i < |saved| && LiveClaims(rec, replaced)[i] == d;
      SavedIff(rec, replaced, saved[i]);
    }
  }

  /** What the two loops check is what the record's fields ask for. */
  lemma CleanIff(node: Node, rec: Record, replaced: seq<Claim>, observed: nat)
    ensures Clean(node, rec, replaced, observed) <==>
            && (forall h :: h in KnownHashes(rec) ==> Resolves(node, SavedAttempts(rec), h, observed))
            && (forall c :: c in LiveClaims(rec, replaced) ==> Retired(node, ClaimSender(c), observed))
  {
    forall h ensures Mentions(rec, h) <==> h in KnownHashes(rec)
      ensures HashDone(node, rec, h, observed) <==> Resolves(node, SavedAttempts(rec), h, observed)
    {
      MentionsIff(rec, h);
      HashDoneIff(node, rec, h, observed);
    }
    forall c ensures ClaimDone(node, rec, replaced, c, observed)
                <==> Retired(node, ClaimSender(Completed(c, Evidence(rec, replaced))), observed) {
      ClaimDoneIff(node, rec, replaced, c, observed);
    }
    forall d ensures d in LiveClaims(rec, replaced)
                <==> exists c :: Answers(rec, replaced, c) && d == Completed(c, Evidence(rec, replaced)) {
      LiveIff(rec, replaced, d);
    }
    assert forall c :: Answers(rec, replaced, c) ==> Completed(c, Evidence(rec, replaced)) in LiveClaims(rec, replaced);
  }

  // --- The two loops ----------------------------------------------------------------------------

  predicate Resolves(node: Node, attempts: seq<Attempt>, h: Hash, observed: nat) {
    match SeenOf(node, h)
    case Matching => true
    case Failed(_) => Reverted(node, h)
    case _ => Retired(node, SenderOf(attempts, h), observed)
  }

  /** One nonce check per identity: answers are kept for the rest of the pass. */
  method CheckNonce(node: Node, sender: Option<Sender>, observed: nat, memo: map<Sender, bool>)
    returns (consumed: bool, next: map<Sender, bool>)
    requires forall s :: s in memo ==> memo[s] == Retired(node, Some(s), observed)
    ensures consumed == Retired(node, sender, observed)
    ensures forall s :: s in next ==> next[s] == Retired(node, Some(s), observed)
  {
    next := memo;
    if sender.None? { return false, memo; }
    if sender.value !in memo {
      var verdict := Verdict(false, 0);
      if sender.value in node.replies {
        verdict := NonceConsumed(sender, {Active}, observed, node.replies[sender.value]);
      }
      next := memo[sender.value := verdict.consumed];
    }
    return next[sender.value], next;
  }

  /** The start hashes that are still open, in order. */
  function OpenHashes(node: Node, attempts: seq<Attempt>, hashes: seq<Hash>, observed: nat): (r: seq<Hash>) {
    if hashes == [] then []
    else
      var h := hashes[|hashes| - 1];
      OpenHashes(node, attempts, hashes[..|hashes| - 1], observed)
      + if Resolves(node, attempts, h, observed) then [] else [h]
  }

  function MissingHashes(node: Node, attempts: seq<Attempt>, hashes: seq<Hash>, observed: nat): (r: seq<Hash>) {
    if hashes == [] then []
    else
      var h := hashes[|hashes| - 1];
      MissingHashes(node, attempts, hashes[..|hashes| - 1], observed)
        + if Resolves(node, attempts, h, observed) || !SeenOf(node, h).Missing? then [] else [h]
  }

  lemma {:induction false} OpenMembers(node: Node, attempts: seq<Attempt>, hashes: seq<Hash>, observed: nat)
    ensures forall h :: h in OpenHashes(node, attempts, hashes, observed)
                        <==> h in hashes && !Resolves(node, attempts, h, observed)
    ensures forall h :: h in MissingHashes(node, attempts, hashes, observed)
                        <==> h in hashes && !Resolves(node, attempts, h, observed) && SeenOf(node, h).Missing?
    ensures |MissingHashes(node, attempts, hashes, observed)| <= |OpenHashes(node, attempts, hashes, observed)|
    ensures |MissingHashes(node, attempts, hashes, observed)| == |OpenHashes(node, attempts, hashes, observed)|
       <==> forall h :: h in hashes && !Resolves(node, attempts, h, observed) ==> SeenOf(node, h).Missing?
  {
    if hashes != [] {
      OpenMembers(node, attempts, hashes[..|hashes| - 1], observed);
      assert hashes == hashes[..|hashes| - 1] + [hashes[|hashes| - 1]];
    }
  }

  /** The loop over the saved start hashes. `open` counts the unresolved ones. */
  method ReconcileHashes(node: Node, attempts: seq<Attempt>, hashes: seq<Hash>, observed: nat)
    returns (open: nat, missing: seq<Hash>, memo: map<Sender, bool>)
    ensures open == |OpenHashes(node, attempts, hashes, observed)|
    ensures open == 0 <==> forall h :: h in hashes ==> Resolves(node, attempts, h, observed)
    ensures missing == MissingHashes(node, attempts, hashes, observed)
    ensures |missing| == open <==> forall h :: h in hashes && !Resolves(node, attempts, h, observed) ==>
          SeenOf(node, h).Missing?
    ensures forall s :: s in memo ==> memo[s] == Retired(node, Some(s), observed)
  {
    open, missing, memo := 0, [], map[];
    for i := 0 to |hashes|
      invariant open == |OpenHashes(node, attempts, hashes[..i], observed)|
      invariant missing == MissingHashes(node, attempts, hashes[..i], observed)
      invariant forall s :: s in memo ==> memo[s] == Retired(node, Some(s), observed)
    {
      var h := hashes[i];
      assert hashes[..i + 1][..i] == hashes[..i];
      var seen := SeenOf(node, h);
      if seen.Missing? || seen.Mismatched? {
        var consumed: bool;
        consumed, memo := CheckNonce(node, SenderOf(attempts, h), observed, memo);
        if !consumed {
          open := open + 1;
          if seen.Missing? { missing := missing + [h]; }
        }
      } else if seen.Failed? {
        var final := false;
        if h in node.rechecks {
          final := RevertedReceiptFinal(seen.receipt, node.rechecks[h].finalized, node.rechecks[h].latest,
                                        node.rechecks[h].again);
        }
        if !final { open := open + 1; }
      }
    }
    assert hashes[..|hashes|] == hashes;
    OpenMembers(node, attempts, hashes, observed);
    assert open > 0 ==> OpenHashes(node, attempts, hashes, observed)[0] in OpenHashes(node, attempts, hashes, observed);
  }

  predicate Lists(claims: seq<Claim>, c: LiveClaim) {
    exists d :: d in claims && Some(d.sub) == c.sub && Some(d.op) == c.op
  }

  /** A claim with an id and an operation that the pass settled. */
  ghost predicate Settles(node: Node, claims: seq<LiveClaim>, observed: nat, d: Claim) {
    AsLive(d) in claims && Retired(node, ClaimSender(AsLive(d)), observed)
  }

  /** The loop over the wallet claims: one without a nonce is a prompt that may still be
      open in another tab. Claims that are used up join the resolved ones, once each. */
  method ReconcileClaims(node: Node, claims: seq<LiveClaim>, resolved: seq<Claim>, observed: nat,
                         known: map<Sender, bool>)
    returns (clear: bool, all: seq<Claim>)
    requires forall s :: s in known ==> known[s] == Retired(node, Some(s), observed)
    ensures clear <==> forall c :: c in claims ==> Retired(node, ClaimSender(c), observed)
    ensures resolved <= all
    ensures forall c :: c in claims && c.sub.Some? && c.op.Some? && Retired(node, ClaimSender(c), observed) ==>
          Lists(all, c)
    ensures forall d :: d in all ==> d in resolved || Settles(node, claims, observed, d)
  {
    clear, all := true, resolved;
    var memo := known;
    for i := 0 to |claims|
      invariant clear <==> forall c :: c in claims[..i] ==> Retired(node, ClaimSender(c), observed)
      invariant resolved <= all
      invariant forall c :: c in claims[..i] && c.sub.Some? && c.op.Some? && Retired(node, ClaimSender(c), observed) ==>
            Lists(all, c)
      invariant forall d :: d in all ==> d in resolved || Settles(node, claims, observed, d)
      invariant forall s :: s in memo ==> memo[s] == Retired(node, Some(s), observed)
    {
      var c := claims[i];
      assert claims[..i + 1] == claims[..i] + [c];
      var consumed: bool;
      consumed, memo := CheckNonce(node, ClaimSender(c), observed, memo);
      if !consumed {
        clear := false;
      } else if c.sub.Some? && c.op.Some? && !Lists(all, c) {
        var d := Claim(c.sub.value, c.op.value, c.from, c.nonce);
        assert AsLive(d) == c && c in claims;
        ghost var before := all;
        all := all + [d];
        assert forall x :: Lists(before, x) ==> Lists(all, x);
        assert d in all;
      }
    }
    assert claims[..|claims|] == claims;
  }

  /** The record has something for the pass to follow. */
  predicate Tracked(rec: Record, replaced: seq<Claim>) {
    || rec.start.pending || rec.phase.SubmittedUnconfirmed? || rec.start.sub.Some?
    || KnownHashes(rec) != [] || LiveClaims(rec, replaced) != []
    || (rec.start.outcome.ResolvedOutcome? && (rec.start.resolved != [] || rec.start.resolutionBlock > 0))
  }

  /** Resolving the record would change it; `unset` tells that its pending flag was never written. */
  predicate Outdated(rec: Record, replaced: seq<Claim>, status: ChainStatus, unset: bool) {
    unset || rec.start.pending || rec.start.sub.Some? || LiveClaims(rec, replaced) != [] || rec.chain != status
  }

  /** The same on the record's own fields. */
  ghost predicate Followed(rec: Record, replaced: seq<Claim>) {
    || rec.start.pending || rec.phase.SubmittedUnconfirmed?
    || (exists h :: Mentions(rec, h)) || (exists c :: Answers(rec, replaced, c))
    || (rec.start.outcome.ResolvedOutcome? && (rec.start.resolved != [] || rec.start.resolutionBlock > 0))
  }

  ghost predicate Stale(rec: Record, replaced: seq<Claim>, status: ChainStatus, unset: bool) {
    unset || rec.start.pending || rec.chain != status || exists c :: Answers(rec, replaced, c)
  }

  lemma HasClaimsIff(rec: Record, replaced: seq<Claim>)
    ensures LiveClaims(rec, replaced) != [] <==> exists c :: Answers(rec, replaced, c)
    ensures rec.start.sub.Some? ==> exists c :: Answers(rec, replaced, c)
  {
    var saved := SavedClaims(rec, replaced);
    if saved != [] { SavedIff(rec, replaced, saved[0]); }
    forall c | Answers(rec, replaced, c) ensures saved != [] { SavedIff(rec, replaced, c); }
    if rec.start.sub.Some? { SavedIff(rec, replaced, saved[0]); }
  }

  lemma FollowedIff(rec: Record, replaced: seq<Claim>, status: ChainStatus, unset: bool)
    ensures Tracked(rec, replaced) <==> Followed(rec, replaced)
    ensures Outdated(rec, replaced, status, unset) <==> Stale(rec, replaced, status, unset)
  {
    HasClaimsIff(rec, replaced);
    forall h ensures Mentions(rec, h) <==> h in KnownHashes(rec) { MentionsIff(rec, h); }
    assert KnownHashes(rec) != [] ==> KnownHashes(rec)[0] in KnownHashes(rec);
  }

  /** The record answers for claim d, and its nonce is used up under the identity that d shows. */
  ghost predicate SettledClaim(node: Node, rec: Record, replaced: seq<Claim>, observed: nat, d: Claim) {
    exists c, s :: CheckedAs(rec, replaced, c, s) && Answers(rec, replaced, c) && Retired(node, Some(s), observed)
                   && c.sub == Some(d.sub) && c.op == Some(d.op) && d.from == Some(s.from) && d.nonce == Some(s.nonce)
  }

  /** The claims saved as resolved: those saved before, and those the record answers for that have
      an id, an operation and a used-up nonce, each under the identity it was checked under. */
  ghost predicate ClaimsResolved(node: Node, rec: Record, replaced: seq<Claim>, observed: nat, all: seq<Claim>) {
    && rec.start.resolved <= all
    && (forall d :: d in all ==> d in rec.start.resolved || SettledClaim(node, rec, replaced, observed, d))
    && (forall c ::
          Answers(rec, replaced, c) && c.sub.Some? && c.op.Some? && ClaimDone(node, rec, replaced, c, observed)
          ==> Lists(all, c))
  }

  lemma SettlesIsSettled(node: Node, rec: Record, replaced: seq<Claim>, observed: nat, d: Claim)
    requires Settles(node, LiveClaims(rec, replaced), observed, d)
    ensures SettledClaim(node, rec, replaced, observed, d)
  {
    LiveIff(rec, replaced, AsLive(d));
    var c :| Answers(rec, replaced, c) && AsLive(d) == Completed(c, Evidence(rec, replaced));
    CheckedAsIff(rec, replaced, c, ClaimSender(AsLive(d)).value);
  }

  lemma ClaimsAreResolved(node: Node, rec: Record, replaced: seq<Claim>, observed: nat, all: seq<Claim>)
    requires rec.start.resolved <= all
    requires forall c ::
               c in LiveClaims(rec, replaced) && c.sub.Some? && c.op.Some? && Retired(node, ClaimSender(c), observed)
               ==> Lists(all, c)
    requires forall d :: d in all ==> d in rec.start.resolved || Settles(node, LiveClaims(rec, replaced), observed, d)
    ensures ClaimsResolved(node, rec, replaced, observed, all)
  {
    forall d | d in all && d !in rec.start.resolved ensures SettledClaim(node, rec, replaced, observed, d) {
      SettlesIsSettled(node, rec, replaced, observed, d);
    }
    forall c | Answers(rec, replaced, c) && c.sub.Some? && c.op.Some? && ClaimDone(node, rec, replaced, c, observed)
      ensures Lists(all, c)
    {
      ClaimDoneIff(node, rec, replaced, c, observed);
      LiveIff(rec, replaced, Completed(c, Evidence(rec, replaced)));
      assert Lists(all, Completed(c, Evidence(rec, replaced)));
    }
  }

  /** A hash the record knows, still open, and without a receipt. */
  ghost predicate OpenHash(node: Node, rec: Record, h: Hash, observed: nat) {
    Mentions(rec, h) && !HashDone(node, rec, h, observed)
  }

  /** Of the open hashes without a receipt, those that the plan lists and its own operation sent. */
  ghost predicate AreDroppable(node: Node, rec: Record, observed: nat, droppable: seq<Hash>) {
    forall h :: h in droppable <==>
          && OpenHash(node, rec, h, observed) && SeenOf(node, h).Missing?
          && rec.plan.Some? && h in rec.plan.value.wal.hashes
          && exists a :: a in rec.start.attempts && a.hash == h && Some(a.op) == rec.plan.value.op
  }

  lemma OpenHashIff(node: Node, rec: Record, h: Hash, observed: nat)
    ensures OpenHash(node, rec, h, observed)
       <==> h in KnownHashes(rec) && !Resolves(node, SavedAttempts(rec), h, observed)
  {
    MentionsIff(rec, h);
    HashDoneIff(node, rec, h, observed);
  }

  lemma DroppableIff(node: Node, rec: Record, observed: nat)
    ensures AreDroppable(node, rec, observed,
                         Replaceables(rec, MissingHashes(node, SavedAttempts(rec), KnownHashes(rec), observed)))
  {
    var missing := MissingHashes(node, SavedAttempts(rec), KnownHashes(rec), observed);
    ReplaceablesIff(rec, missing);
    OpenMembers(node, SavedAttempts(rec), KnownHashes(rec), observed);
    forall h ensures OpenHash(node, rec, h, observed)
                <==> h in KnownHashes(rec) && !Resolves(node, SavedAttempts(rec), h, observed) {
      OpenHashIff(node, rec, h, observed);
    }
  }

  /** The pass over one record: which hashes and claims it checks, and the patch it sends. A
      clean pass resolves the start; otherwise an active note stays submitted, and is marked
      for replacement exactly when there are open hashes and none of them has a receipt. */
  method ReconcileRecord(node: Node, rec: Record, replaced: seq<Claim>, observed: nat, status: ChainStatus,
                         block: nat, unset: bool)
    returns (patch: Option<Patch>)
    ensures patch.Some? && patch.value.StartResolved? <==>
            Clean(node, rec, replaced, observed) && Followed(rec, replaced) && Stale(rec, replaced, status, unset)
    ensures patch.Some? && patch.value.StartUnresolved? <==>
            !Clean(node, rec, replaced, observed) && status.ChainActive?
    ensures patch.Some? ==> patch.value.StartResolved? || patch.value.StartUnresolved?
    ensures patch.Some? && patch.value.StartResolved? ==>
              && patch.value.status == status && patch.value.block == block
              && ClaimsResolved(node, rec, replaced, observed, patch.value.claims)
    ensures patch.Some? && patch.value.StartUnresolved? ==>
              && (patch.value.allMissing <==>
                  && (exists h :: OpenHash(node, rec, h, observed))
                  && (forall h :: OpenHash(node, rec, h, observed) ==> SeenOf(node, h).Missing?))
              && AreDroppable(node, rec, observed, patch.value.droppable)
  {
    var open, missing, memo := ReconcileHashes(node, SavedAttempts(rec), KnownHashes(rec), observed);
    var clear, all := ReconcileClaims(node, LiveClaims(rec, replaced), rec.start.resolved, observed, memo);
    CleanIff(node, rec, replaced, observed);
    FollowedIff(rec, replaced, status, unset);
    assert Clean(node, rec, replaced, observed) <==> open == 0 && clear;
    if open == 0 && clear {
      if !Tracked(rec, replaced) || !Outdated(rec, replaced, status, unset) { return None; }
      ClaimsAreResolved(node, rec, replaced, observed, all);
      return Some(StartResolved(status, all, block));
    }
    if !status.ChainActive? { return None; }
    DroppableIff(node, rec, observed);
    forall h ensures OpenHash(node, rec, h, observed)
                <==> h in KnownHashes(rec) && !Resolves(node, SavedAttempts(rec), h, observed) {
      OpenHashIff(node, rec, h, observed);
    }
    return Some(StartUnresolved(open > 0 && |missing| == open, Replaceables(rec, missing)));
  }

  /** The missing hashes that the plan's own operation sent. */
  function Replaceables(rec: Record, missing: seq<Hash>): seq<Hash> {
    if missing == [] || rec.plan.None? then []
    else
      var h := missing[|missing| - 1];
      Replaceables(rec, missing[..|missing| - 1])
      + if h in rec.plan.value.wal.hashes
          && (exists a :: a in rec.start.attempts && a.hash == h && Some(a.op) == rec.plan.value.op)
        then [h] else []
  }

  lemma {:induction false} ReplaceablesIff(rec: Record, missing: seq<Hash>)
    ensures forall h :: h in Replaceables(rec, missing) <==>
                && h in missing && rec.plan.Some? && h in rec.plan.value.wal.hashes
                && exists a :: a in rec.start.attempts && a.hash == h && Some(a.op) == rec.plan.value.op
  {
    if missing != [] && rec.plan.Some? {
      ReplaceablesIff(rec, missing[..|missing| - 1]);
      assert missing == missing[..|missing| - 1] + [missing[|missing| - 1]];
    }
  }

  // --- What a clean pass means ------------------------------------------------------------

  /** The pass saw the truth, at views between t and now. */
  ghost predicate Honest(node: Node, views: seq<View>, n: NoteId, observed: nat, t: nat, now: nat) {
    && (forall s :: s in node.replies ==> Truthful(node.replies[s], views, s.from, n, observed, t, now))
    && (forall h :: h in node.rechecks ==> TrueRecheck(views, h, node.rechecks[h], t, now))
  }

  /** Tags and second receipt are those of views in that time. */
  ghost predicate TrueRecheck(views: seq<View>, h: Hash, r: Recheck, t: nat, now: nat) {
    && t <= now < |views|
    && (r.finalized.Some? ==> exists i :: 0 <= i <= t && views[i].finalized == r.finalized)
    && (r.latest.Some? ==> exists i :: 0 <= i <= t && |views[i].chain| == r.latest.value + 1)
    && (r.again.Some? ==> exists i :: t <= i <= now && HasReceipt(views[i], h, r.again.value))
  }

  /** Saved attempts name the sender and nonce of their transaction. */
  ghost predicate Names(rec: Record, txs: seq<Tx>) {
    forall t, a :: t in txs && Attempted(rec, a) && a.hash == t.hash && a.sender.Some? ==>
          a.sender == Some(Sender(t.from, t.nonce))
  }

  /** The transaction at position p stands at or before a block at which the note is active. */
  ghost predicate Outlived(v: View, p: nat, n: NoteId) {
    exists b: nat :: b < |v.chain| && p < |Flat(v.chain[..b + 1])| && StatusAt(v, b, n, Active)
  }

  lemma RetiredIsOutlived(node: Node, views: seq<View>, n: NoteId, observed: nat, t: nat, now: nat, v: nat, s: Sender,
                          p: nat)
    requires Stable(views) && Honest(node, views, n, observed, t, now) && now <= v < |views|
    requires Retired(node, Some(s), observed)
    requires p < |Flat(views[v].chain)| && Flat(views[v].chain)[p].from == s.from
    requires Flat(views[v].chain)[p].nonce == s.nonce
    ensures Outlived(views[v], p, n)
  {
    ConsumedIsFinal(node.replies[s], views, s, n, {Active}, observed, t, now, v);
  }

  lemma RevertedHasFailed(node: Node, views: seq<View>, n: NoteId, observed: nat, t: nat, now: nat, v: nat, tx: Tx)
    requires Stable(views) && Honest(node, views, n, observed, t, now) && now <= v < |views|
    requires Reverted(node, tx.hash) && tx in Flat(views[v].chain)
    ensures !tx.ok
  {
    var r := node.rechecks[tx.hash];
    var i :| t <= i <= now && HasReceipt(views[i], tx.hash, r.again.value);
    RevertIsFinal(views, tx.hash, SeenOf(node, tx.hash).receipt, r.finalized, r.latest, t, i, v, tx);
  }

  lemma SentAsNamed(rec: Record, txs: seq<Tx>, tx: Tx, s: Sender)
    requires tx in txs && Names(rec, txs) && SentAs(rec, tx.hash, Some(s))
    ensures s == Sender(tx.from, tx.nonce)
  {
    var a: Attempt :| Attempted(rec, a) && a.hash == tx.hash && a.sender == Some(s);
  }

  /** A hash that is done: its transaction has failed or is outlived. */
  lemma DoneHashIsOutlived(node: Node, views: seq<View>, rec: Record, observed: nat, t: nat, now: nat, v: nat, p: nat)
    requires Stable(views) && Honest(node, views, rec.note, observed, t, now) && now <= v < |views|
    requires p < |Flat(views[v].chain)| && Names(rec, Flat(views[v].chain))
    requires HashDone(node, rec, Flat(views[v].chain)[p].hash, observed)
    ensures var tx := Flat(views[v].chain)[p];
            SeenOf(node, tx.hash).Matching? || !tx.ok || Outlived(views[v], p, rec.note)
  {
    var tx := Flat(views[v].chain)[p];
    assert tx in Flat(views[v].chain);
    match SeenOf(node, tx.hash)
    case Matching =>
    case Failed(_) => RevertedHasFailed(node, views, rec.note, observed, t, now, v, tx);
    case _ =>
      var s :| SentAs(rec, tx.hash, Some(s)) && Retired(node, Some(s), observed);
      SentAsNamed(rec, Flat(views[v].chain), tx, s);
      RetiredIsOutlived(node, views, rec.note, observed, t, now, v, s, p);
  }

  /** The patch of a clean pass leaves no open start claim and keeps every hash. */
  lemma ResolvedRecord(rec: Record, status: ChainStatus, claims: seq<Claim>, block: nat, expected: Option<nat>)
    requires DoUpdate(rec, StartResolved(status, claims, block), expected).Some?
    ensures var next := DoUpdate(rec, StartResolved(status, claims, block), expected).value;
            && !next.start.pending && next.start.sub.None? && next.start.retry.None? && next.start.resolved == claims
            && forall h :: Mentions(next, h) <==> Mentions(rec, h)
  {
  }

  /** A clean pass over a record is sound, in every later canonical chain. Each transaction that
      the record or its plan knows, and that no receipt confirms, has failed or stands before a
      settled block at which the note is still active. Each claim the record answers for has an
      identity, and a transaction of that identity stands before such a block. None of them can
      move the note any more, and the patch sent for it closes the start and keeps every hash. */
  lemma CleanPassIsSound(node: Node, views: seq<View>, rec: Record, replaced: seq<Claim>, status: ChainStatus,
                         claims: seq<Claim>, block: nat, expected: Option<nat>,
                         observed: nat, t: nat, now: nat, v: nat, p: nat)
    requires Stable(views) && Honest(node, views, rec.note, observed, t, now) && now <= v < |views|
    requires p < |Flat(views[v].chain)| && Names(rec, Flat(views[v].chain))
    requires Clean(node, rec, replaced, observed)
    requires DoUpdate(rec, StartResolved(status, claims, block), expected).Some?
    ensures var tx := Flat(views[v].chain)[p];
            && (Mentions(rec, tx.hash) ==>
                SeenOf(node, tx.hash).Matching? || !tx.ok || Outlived(views[v], p, rec.note))
            && (forall c :: Answers(rec, replaced, c) ==>
                  exists s :: CheckedAs(rec, replaced, c, s)
                              && (s == Sender(tx.from, tx.nonce) ==> Outlived(views[v], p, rec.note)))
    ensures var next := DoUpdate(rec, StartResolved(status, claims, block), expected).value;
            !next.start.pending && next.start.sub.None? && forall h :: Mentions(next, h) <==> Mentions(rec, h)
  {
    var tx := Flat(views[v].chain)[p];
    if Mentions(rec, tx.hash) { DoneHashIsOutlived(node, views, rec, observed, t, now, v, p); }
    forall c | Answers(rec, replaced, c)
      ensures exists s :: CheckedAs(rec, replaced, c, s)
                          && (s == Sender(tx.from, tx.nonce) ==> Outlived(views[v], p, rec.note))
    {
      var s :| CheckedAs(rec, replaced, c, s) && Retired(node, Some(s), observed);
      if s == Sender(tx.from, tx.nonce) { RetiredIsOutlived(node, views, rec.note, observed, t, now, v, s, p); }
    }
    ResolvedRecord(rec, status, claims, block, expected);
  }
}
