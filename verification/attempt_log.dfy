/** Hash lists and late-attempt histories, and what trimming them keeps. */
module AttemptLog {
  import opened WalletTypes

  const TERMINAL_LIMIT := 32
  const CLAIM_LIMIT := 8

  predicate IsTerminal(status: LateStatus) {
    !status.SubmittedLate? && !status.Unconfirmed?
  }

  /** The last k elements, as `slice(-k)`. */
  function Last<T>(s: seq<T>, k: nat): seq<T> {
    if |s| <= k then s else s[|s| - k..]
  }

  ghost predicate NoDup(s: seq<Hash>) {
    forall i, j :: 0 <= i < j < |s| ==> s[i] != s[j]
  }

  /** Keeps the first occurrence of every element, as `[...new Set(s)]`. */
  function Distinct(s: seq<Hash>): (r: seq<Hash>)
    ensures forall h :: h in r <==> h in s
    ensures NoDup(r)
  {
    if s == [] then []
    else
      var front := Distinct(s[..|s| - 1]);
      var h := s[|s| - 1];
      assert s == s[..|s| - 1] + [h];
      if h in front then front else front + [h]
  }

  function Without(s: seq<Hash>, h: Hash): (r: seq<Hash>)
    ensures forall x :: x in r <==> x in s && x != h
    ensures NoDup(s) ==> NoDup(r)
  {
    if s == [] then []
    else
      assert s == s[..|s| - 1] + [s[|s| - 1]];
      var front := Without(s[..|s| - 1], h);
      assert NoDup(s) ==> s[|s| - 1] !in s[..|s| - 1];
      if s[|s| - 1] == h then front else front + [s[|s| - 1]]
  }

  function WithoutAttempt(s: seq<Attempt>, h: Hash): (r: seq<Attempt>)
    ensures forall a :: a in r <==> a in s && a.hash != h
  {
    if s == [] then []
    else
      assert s == s[..|s| - 1] + [s[|s| - 1]];
      var front := WithoutAttempt(s[..|s| - 1], h);
      if s[|s| - 1].hash == h then front else front + [s[|s| - 1]]
  }

  ghost predicate HasHash(s: seq<Attempt>, h: Hash) {
    exists a :: a in s && a.hash == h
  }

  /** Overwrites the entry with the same hash in place, or appends. */
  function PutAttempt(s: seq<Attempt>, a: Attempt): (r: seq<Attempt>)
    ensures forall b :: b in r <==> b == a || (b in s && b.hash != a.hash)
    requires forall i, j :: 0 <= i < j < |s| ==> s[i].hash != s[j].hash
    ensures forall i, j :: 0 <= i < j < |r| ==> r[i].hash != r[j].hash
  {
    if s == [] then [a]
    else if s[0].hash == a.hash then
      assert forall b :: b in s[1..] ==> b in s && b.hash != a.hash;
      [a] + s[1..]
    else
      var rest := PutAttempt(s[1..], a);
      assert forall b :: b in rest ==> b.hash != s[0].hash;
      [s[0]] + rest
  }

  /** `[...new Map(entries by hash).values()]`: the last entry of a hash wins and
      stands where the hash first appeared. */
  function MergeAttempts(s: seq<Attempt>): (r: seq<Attempt>)
    ensures forall a :: a in r ==> a in s
    ensures forall a :: a in s ==> HasHash(r, a.hash)
    ensures forall i, j :: 0 <= i < j < |r| ==> r[i].hash != r[j].hash
  {
    if s == [] then []
    else
      assert s == s[..|s| - 1] + [s[|s| - 1]];
      PutAttempt(MergeAttempts(s[..|s| - 1]), s[|s| - 1])
  }

  /** The last entry of a hash. */
  ghost function LastOf(s: seq<Attempt>, h: Hash): Option<Attempt> {
    if s == [] then None else if s[|s| - 1].hash == h then Some(s[|s| - 1]) else LastOf(s[..|s| - 1], h)
  }

  lemma MergedLast(s: seq<Attempt>, b: Attempt)
    requires b in MergeAttempts(s)
    ensures s != [] && (b == s[|s| - 1] || (b in MergeAttempts(s[..|s| - 1]) && b.hash != s[|s| - 1].hash))
  {
  }

  /** Of several entries with one hash, the last is kept. */
  lemma {:induction false} LastEntryWins(s: seq<Attempt>, b: Attempt)
    requires b in MergeAttempts(s)
    ensures LastOf(s, b.hash) == Some(b)
  {
    MergedLast(s, b);
    if b != s[|s| - 1] { LastEntryWins(s[..|s| - 1], b); }
  }

  function Unresolved(s: seq<Late>): seq<Late> {
    if s == [] then []
    else Unresolved(s[..|s| - 1]) + if IsTerminal(s[|s| - 1].status) then [] else [s[|s| - 1]]
  }

  function Terminal(s: seq<Late>): seq<Late> {
    if s == [] then []
    else Terminal(s[..|s| - 1]) + if IsTerminal(s[|s| - 1].status) then [s[|s| - 1]] else []
  }

  /** retainAttemptHistory */
  function Retain(s: seq<Late>): (r: seq<Late>) {
    Last(Terminal(s), TERMINAL_LIMIT) + Unresolved(s)
  }

  lemma {:induction false} Members(s: seq<Late>)
    ensures forall e :: e in Unresolved(s) <==> e in s && !IsTerminal(e.status)
    ensures forall e :: e in Terminal(s) <==> e in s && IsTerminal(e.status)
  {
    if s != [] {
      Members(s[..|s| - 1]);
      assert s == s[..|s| - 1] + [s[|s| - 1]];
    }
  }

  lemma UnresolvedSnoc(s: seq<Late>, e: Late)
    ensures Unresolved(s + [e]) == if IsTerminal(e.status) then Unresolved(s) else Unresolved(s) + [e]
  {
    assert (s + [e])[..|s|] == s;
  }

  lemma {:induction false} UnresolvedConcat(a: seq<Late>, b: seq<Late>)
    ensures Unresolved(a + b) == Unresolved(a) + Unresolved(b)
  {
    if b == [] {
      assert a + b == a;
    } else {
      assert (a + b)[..|a + b| - 1] == a + b[..|b| - 1];
      UnresolvedConcat(a, b[..|b| - 1]);
    }
  }

  lemma {:induction false} UnresolvedOfTerminal(s: seq<Late>)
    requires forall e :: e in s ==> IsTerminal(e.status)
    ensures Unresolved(s) == []
  {
    if s != [] {
      assert s[|s| - 1] in s;
      UnresolvedOfTerminal(s[..|s| - 1]);
    }
  }

  lemma {:induction false} UnresolvedTwice(s: seq<Late>)
    ensures Unresolved(Unresolved(s)) == Unresolved(s)
  {
    if s != [] {
      UnresolvedTwice(s[..|s| - 1]);
      UnresolvedSnoc(Unresolved(s[..|s| - 1]), s[|s| - 1]);
    }
  }

  /** Trimming never evicts an unresolved attempt: the unresolved attempts of the
      trimmed history are exactly those of the original, in order, and only
      terminal entries are cut, to the newest 32. */
  lemma RetainKeepsUnresolved(s: seq<Late>)
    ensures Unresolved(Retain(s)) == Unresolved(s)
    ensures |Retain(s)| <= |Unresolved(s)| + TERMINAL_LIMIT
    ensures forall e :: e in Retain(s) ==> e in s
  {
    var t := Last(Terminal(s), TERMINAL_LIMIT);
    Members(s);
    assert forall e :: e in t ==> e in Terminal(s);
    UnresolvedConcat(t, Unresolved(s));
    UnresolvedOfTerminal(t);
    UnresolvedTwice(s);
  }

  /** The first attempt of operation `op` with this hash, at or after position i. */
  function FindLate(s: seq<Late>, op: OpId, hash: Hash, i: nat := 0): (r: Option<nat>)
    requires i <= |s|
    ensures r.Some? ==> i <= r.value < |s| && s[r.value].op == op && s[r.value].hash == hash
    ensures r.None? ==> forall k :: i <= k < |s| ==> s[k].op != op || s[k].hash != hash
    decreases |s| - i
  {
    if i == |s| then None
    else if s[i].op == op && s[i].hash == hash then Some(i)
    else FindLate(s, op, hash, i + 1)
  }

  function WithoutLate(s: seq<Late>, op: OpId, hash: Hash): (r: seq<Late>)
    ensures forall e :: e in r <==> e in s && !(e.op == op && e.hash == hash)
  {
    if s == [] then []
    else
      assert s == s[..|s| - 1] + [s[|s| - 1]];
      WithoutLate(s[..|s| - 1], op, hash)
        + if s[|s| - 1].op == op && s[|s| - 1].hash == hash then [] else [s[|s| - 1]]
  }

  /** Settles attempt k with `status` and retires every other unresolved attempt of its note. */
  function Settle(s: seq<Late>, k: nat, status: LateStatus, others: LateStatus): (r: seq<Late>)
    requires k < |s|
    ensures |r| == |s|
  {
    seq(|s|, i requires 0 <= i < |s| =>
      if i == k then s[i].(status := status)
      else if s[i].note == s[k].note && !IsTerminal(s[i].status) then s[i].(status := others)
      else s[i])
  }

  predicate HasUnresolved(s: seq<Late>, n: NoteId) {
    exists e :: e in s && e.note == n && !IsTerminal(e.status)
  }

  lemma {:induction false} TerminalConcat(a: seq<Late>, b: seq<Late>)
    ensures Terminal(a + b) == Terminal(a) + Terminal(b)
  {
    if b == [] {
      assert a + b == a;
    } else {
      assert (a + b)[..|a + b| - 1] == a + b[..|b| - 1];
      TerminalConcat(a, b[..|b| - 1]);
    }
  }

  lemma {:induction false} TerminalOfOneKind(s: seq<Late>, terminal: bool)
    requires forall e :: e in s ==> IsTerminal(e.status) == terminal
    ensures Terminal(s) == if terminal then s else []
  {
    if s != [] {
      assert s == s[..|s| - 1] + [s[|s| - 1]] && s[|s| - 1] in s;
      TerminalOfOneKind(s[..|s| - 1], terminal);
    }
  }

  lemma TerminalOfParts(t: seq<Late>, u: seq<Late>)
    requires (forall e :: e in t ==> IsTerminal(e.status)) && forall e :: e in u ==> !IsTerminal(e.status)
    ensures Terminal(t + u) == t
  {
    TerminalConcat(t, u);
    TerminalOfOneKind(t, true);
    TerminalOfOneKind(u, false);
  }

  /** Trimming keeps the last 32 ended attempts, or all if there are no more, in order. */
  lemma RetainKeepsTerminal(s: seq<Late>)
    ensures |Terminal(s)| <= 32 ==> Terminal(Retain(s)) == Terminal(s)
    ensures |Terminal(s)| > 32 ==> Terminal(Retain(s)) == Terminal(s)[|Terminal(s)| - 32..]
  {
    Members(s);
    TerminalOfParts(Last(Terminal(s), TERMINAL_LIMIT), Unresolved(s));
  }
}
