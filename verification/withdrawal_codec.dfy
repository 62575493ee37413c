/** The calldata of a withdrawal: the encoder of the wallet, and a decoder written from the
    Solidity ABI specification ("Formal Specification of the Encoding"). */
module WithdrawalCodec {
  import opened WalletTypes
  import opened Numerals

  const WORD := 64
  const FIELDS := 14
  const DEPTH := 32
  const PROOF_BYTES := 256
  const MUTUAL_CLOSE := "7fca9c82"
  const INITIATE_ESCAPE := "9073639b"

  /** A JavaScript value handed to the encoder: a string, or an integer of any size. */
  datatype JsValue = Text(text: string) | Integer(n: int)

  function WithoutPrefix(s: string): string {
    if |s| >= 2 && s[0] == '0' && s[1] == 'x' then s[2..] else s
  }

  function HexOf(v: JsValue): string {
    match v
    case Text(t) => WithoutPrefix(t)
    case Integer(n) => if n < 0 then "-" + Numeral(16, -n) else Numeral(16, n)
  }

  /** The number a value stands for, if it fits a word. */
  function Meaning(v: JsValue): Option<nat> {
    var h := HexOf(v);
    if h == "" || !AllHex(h) || |h| > WORD then None else Some(Value(16, h))
  }

  /** abiWord */
  function AbiWord(v: JsValue): Option<string> {
    var h := HexOf(v);
    if h == "" || !AllHex(h) || |h| > WORD then None else Some(PadStart(h, WORD))
  }

  /** Words for all values, or nothing. */
  function AbiWords(vs: seq<JsValue>): Option<seq<string>> {
    if vs == [] then Some([])
    else
      var front, last := AbiWords(vs[..|vs| - 1]), AbiWord(vs[|vs| - 1]);
      if front.None? || last.None? then None else Some(front.value + [last.value])
  }

  type Byte = b: int | 0 <= b < 256

  /** The two hex digits of each byte. */
  function BytesHex(bytes: seq<Byte>): (s: string)
    ensures |s| == 2 * |bytes|
  {
    if bytes == [] then "" else BytesHex(bytes[..|bytes| - 1]) + PairOf(bytes[|bytes| - 1])
  }

  function PairOf(b: Byte): (s: string)
    ensures |s| == 2
  {
    [Digit(b / 16), Digit(b % 16)]
  }

  /** words.join("") */
  function Join(words: seq<string>): string {
    if words == [] then "" else Join(words[..|words| - 1]) + words[|words| - 1]
  }

  predicate AllWords(words: seq<string>) {
    forall i :: 0 <= i < |words| ==> |words[i]| == WORD
  }

  // --- The encoder -----------------------------------------------------------------------------

  datatype Destination = Address(text: string) | Octets(octets: seq<int>)

  function Lower(s: string): string {
    seq(|s|, i requires 0 <= i < |s| => if 'A' <= s[i] <= 'Z' then s[i] - 'A' + 'a' else s[i])
  }

  predicate IsAddress(s: string) {
    |s| == 42 && s[0] == '0' && s[1] == 'x' && AllHex(s[2..])
  }

  predicate AllOctets(octets: seq<int>) {
    forall i :: 0 <= i < |octets| ==> 0 <= octets[i] < 256
  }

  function DestinationHex(d: Destination): Option<string> {
    match d
    case Address(t) => if IsAddress(t) then Some(Lower(t)) else None
    case Octets(o) => if |o| == 20 && AllOctets(o) then Some("0x" + BytesHex(o)) else None
  }

  datatype Inputs = Inputs(version: JsValue, chain: JsValue, contract: string, root: JsValue,
                           stateX: JsValue, stateY: JsValue, clearanceX: JsValue, clearanceY: JsValue,
                           note: JsValue, balance: JsValue, destination: Destination,
                           nullifier: JsValue, hasClearance: bool, tag: JsValue)

  /** The daemon's answer; `proof` is the decoded base64, if it decodes. */
  datatype Answer = Answer(mode: Mode, supportedBackend: bool, siblings: seq<JsValue>, inputs: Inputs,
                           proof: Option<seq<Byte>>)

  function FieldsOf(i: Inputs, destination: string): seq<JsValue> {
    [i.version, i.chain, Text(i.contract), i.root, i.stateX, i.stateY, i.clearanceX, i.clearanceY, i.note, i.balance,
     Text(destination), i.nullifier, Integer(if i.hasClearance then 1 else 0), i.tag]
  }

  function ProofWords(proof: seq<Byte>): seq<string>
    requires |proof| == PROOF_BYTES
  {
    seq(8, i requires 0 <= i < 8 => BytesHex(proof[32 * i..32 * (i + 1)]))
  }

  function SelectorOf(m: Mode): string {
    if m.Mutual? then MUTUAL_CLOSE else INITIATE_ESCAPE
  }

  /** What is checked before anything is encoded. */
  predicate Admissible(a: Answer, mode: Mode, expectedDestination: string, expectedVault: Option<string>) {
    && a.mode == mode && a.supportedBackend && |a.siblings| == DEPTH
    && DestinationHex(a.inputs.destination).Some?
    && DestinationHex(a.inputs.destination).value == Lower(expectedDestination)
    && (expectedVault.Some? ==> Lower(a.inputs.contract) == Lower(expectedVault.value))
    && a.inputs.hasClearance == mode.Mutual?
    && a.proof.Some? && |a.proof.value| == PROOF_BYTES
  }

  /** encodeWithdrawal */
  function Encode(a: Answer, mode: Mode, expectedDestination: string, expectedVault: Option<string>): Option<string> {
    if !Admissible(a, mode, expectedDestination, expectedVault) then None
    else
      var fields := AbiWords(FieldsOf(a.inputs, DestinationHex(a.inputs.destination).value));
      var offset, path := AbiWord(Integer(47 * 32)), AbiWords(a.siblings);
      var length := AbiWord(Integer(|a.proof.value|));
      if fields.None? || offset.None? || path.None? || length.None? then None
      else Some("0x" + SelectorOf(mode)
                + Join(fields.value + [offset.value] + path.value + [length.value] + ProofWords(a.proof.value)))
  }

  // --- The decoder -------------------------------------------------------------------------------

  /** The k-th word of the arguments. */
  function WordAt(args: string, k: nat): Option<nat> {
    if WORD * (k + 1) > |args| || !AllHex(args[WORD * k..WORD * (k + 1)]) then None
    else Some(Value(16, args[WORD * k..WORD * (k + 1)]))
  }

  function WordsAt(args: string, k: nat, count: nat): Option<seq<nat>> {
    if count == 0 then Some([])
    else
      var front, last := WordsAt(args, k, count - 1), WordAt(args, k + count - 1);
      if front.None? || last.None? then None else Some(front.value + [last.value])
  }

  function Unhex(s: string): Option<seq<Byte>> {
    if s == "" then Some([])
    else if |s| < 2 || !IsHex(s[|s| - 2]) || !IsHex(s[|s| - 1]) then None
    else
      var front := Unhex(s[..|s| - 2]);
      if front.None? then None else Some(front.value + [16 * DigitValue(s[|s| - 2]) + DigitValue(s[|s| - 1])])
  }

  /** A dynamic byte string: its head holds the byte offset of a length word, and the
      bytes follow that word. */
  function DynamicAt(args: string, head: nat): Option<seq<Byte>> {
    var offset := WordAt(args, head);
    if offset.None? || offset.value % 32 != 0 then None
    else
      var k := offset.value / 32;
      var length := WordAt(args, k);
      if length.None? || WORD * (k + 1) + 2 * length.value > |args| then None
      else Unhex(args[WORD * (k + 1)..WORD * (k + 1) + 2 * length.value])
  }

  datatype Call = Call(selector: string, fields: seq<nat>, siblings: seq<nat>, proof: seq<Byte>)

  /** Decodes a call with a static tuple of 14 words, a byte string and a static array of 32. */
  function Decode(data: string): Option<Call> {
    if |data| < 10 || data[..2] != "0x" then None
    else
      var args := data[10..];
      var fields, proof, path := WordsAt(args, 0, FIELDS), DynamicAt(args, FIELDS), WordsAt(args, FIELDS + 1, DEPTH);
      if fields.None? || proof.None? || path.None? then None
      else Some(Call(data[2..10], fields.value, path.value, proof.value))
  }

  // --- Words -----------------------------------------------------------------------------------------

  /** A word exists exactly for values that fit 256 bits, and it means that value. */
  lemma WordMeans(v: JsValue)
    ensures AbiWord(v).Some? <==> Meaning(v).Some?
    ensures AbiWord(v).Some? ==> |AbiWord(v).value| == WORD && AllHex(AbiWord(v).value)
                                 && Value(16, AbiWord(v).value) == Meaning(v).value
  {
    if AbiWord(v).Some? {
      PaddedValue(16, HexOf(v), WORD);
      assert AllHex(AbiWord(v).value);
    }
  }

  /** An integer is encodable exactly when it is an unsigned 256-bit number. */
  lemma IntegerFits(n: int)
    ensures Meaning(Integer(n)) == if 0 <= n < Pow(16, WORD) then Some(n) else None
  {
    if n >= 0 {
      HexDigits(n);
      NumeralValue(16, n);
      NumeralLength(16, n, WORD);
    } else {
      assert HexOf(Integer(n))[0] == '-';
    }
  }

  function Meanings(vs: seq<JsValue>): Option<seq<nat>> {
    if vs == [] then Some([])
    else
      var front, last := Meanings(vs[..|vs| - 1]), Meaning(vs[|vs| - 1]);
      if front.None? || last.None? then None else Some(front.value + [last.value])
  }

  predicate WordsMean(words: seq<string>, ns: seq<nat>) {
    |words| == |ns| && forall i :: 0 <= i < |words| ==>
          |words[i]| == WORD && AllHex(words[i]) && Value(16, words[i]) == ns[i]
  }

  lemma {:induction false} WordsMeanings(vs: seq<JsValue>)
    ensures AbiWords(vs).Some? <==> Meanings(vs).Some?
    ensures AbiWords(vs).Some? ==> |AbiWords(vs).value| == |vs| && WordsMean(AbiWords(vs).value, Meanings(vs).value)
  {
    if vs != [] {
      WordsMeanings(vs[..|vs| - 1]);
      WordMeans(vs[|vs| - 1]);
    }
  }

  lemma {:induction false} JoinLength(words: seq<string>)
    requires AllWords(words)
    ensures |Join(words)| == WORD * |words|
  {
    if words != [] { JoinLength(words[..|words| - 1]); }
  }

  lemma {:induction false} JoinSlice(words: seq<string>, k: nat)
    requires AllWords(words) && k < |words|
    ensures |Join(words)| == WORD * |words| && Join(words)[WORD * k..WORD * (k + 1)] == words[k]
  {
    var front := words[..|words| - 1];
    JoinLength(words);
    JoinLength(front);
    assert Join(words) == Join(front) + words[|words| - 1];
    if k < |front| {
      JoinSlice(front, k);
      assert Join(words)[WORD * k..WORD * (k + 1)] == Join(front)[WORD * k..WORD * (k + 1)];
    }
  }

  lemma {:induction false} JoinConcat(a: seq<string>, b: seq<string>)
    ensures Join(a + b) == Join(a) + Join(b)
  {
    if b == [] {
      assert a + b == a;
    } else {
      assert (a + b)[..|a + b| - 1] == a + b[..|b| - 1];
      JoinConcat(a, b[..|b| - 1]);
    }
  }

  /** Reading words back: a run of words inside a joined text. */
  lemma {:induction false} ReadWords(words: seq<string>, ns: seq<nat>, k: nat, count: nat)
    requires AllWords(words) && k + count <= |words| && WordsMean(words[k..k + count], ns)
    ensures WordsAt(Join(words), k, count) == Some(ns)
  {
    if count > 0 {
      var last := k + count - 1;
      assert words[k..k + count][..count - 1] == words[k..last];
      ReadWords(words, ns[..count - 1], k, count - 1);
      JoinSlice(words, last);
      assert words[k..k + count][count - 1] == words[last];
      assert ns == ns[..count - 1] + [ns[count - 1]];
    }
  }

  // --- Bytes -------------------------------------------------------------------------------------------

  lemma PairMeans(b: Byte)
    ensures IsHex(PairOf(b)[0]) && IsHex(PairOf(b)[1]) && 16 * DigitValue(PairOf(b)[0]) + DigitValue(PairOf(b)[1]) == b
  {
    DigitRoundTrip(b / 16);
    DigitRoundTrip(b % 16);
    DigitIsDigit(b / 16);
    DigitIsDigit(b % 16);
  }

  lemma UnhexPair(s: string, front: seq<Byte>, b: Byte)
    requires Unhex(s) == Some(front)
    ensures Unhex(s + PairOf(b)) == Some(front + [b])
  {
    PairMeans(b);
    var t := s + PairOf(b);
    assert t[..|t| - 2] == s && t[|t| - 2] == PairOf(b)[0] && t[|t| - 1] == PairOf(b)[1];
  }

  predicate HexRoundTrips(bytes: seq<Byte>) {
    Unhex(BytesHex(bytes)) == Some(bytes)
  }

  lemma UnhexSnoc(bytes: seq<Byte>, front: seq<Byte>, b: Byte)
    requires bytes == front + [b] && HexRoundTrips(front)
    ensures HexRoundTrips(bytes)
  {
    assert bytes[..|bytes| - 1] == front;
    UnhexPair(BytesHex(front), front, b);
  }

  lemma {:induction false} UnhexBytes(bytes: seq<Byte>)
    ensures HexRoundTrips(bytes)
  {
    if bytes != [] {
      UnhexBytes(bytes[..|bytes| - 1]);
      UnhexSnoc(bytes, bytes[..|bytes| - 1], bytes[|bytes| - 1]);
    }
  }

  lemma {:induction false} HexConcat(a: seq<Byte>, b: seq<Byte>)
    ensures BytesHex(a + b) == BytesHex(a) + BytesHex(b)
  {
    if b == [] {
      assert a + b == a;
    } else {
      assert (a + b)[..|a + b| - 1] == a + b[..|b| - 1];
      HexConcat(a, b[..|b| - 1]);
    }
  }

  /** Eight slices of 32 bytes, joined, are all the bytes. */
  lemma {:induction false} JoinedSlices(proof: seq<Byte>, words: seq<string>, n: nat)
    requires |proof| == PROOF_BYTES && words == ProofWords(proof) && n <= 8
    ensures Join(words[..n]) == BytesHex(proof[..32 * n])
  {
    if n > 0 {
      JoinedSlices(proof, words, n - 1);
      assert words[..n][..n - 1] == words[..n - 1];
      assert proof[..32 * n] == proof[..32 * (n - 1)] + proof[32 * (n - 1)..32 * n];
      HexConcat(proof[..32 * (n - 1)], proof[32 * (n - 1)..32 * n]);
    }
  }

  // --- The round trip ------------------------------------------------------------------------------------

  /** Small numbers fit a word. */
  lemma SmallWord(n: nat)
    requires n < 65536
    ensures Meaning(Integer(n)) == Some(n)
  {
    HexDigits(n);
    NumeralValue(16, n);
    NumeralLength(16, n, 4);
    assert Pow(16, 4) == 65536;
  }

  /** All words of a call, in order. */
  ghost predicate Layout(words: seq<string>, fields: seq<string>, offset: string, path: seq<string>, length: string,
                         proof: seq<Byte>) {
    && |fields| == FIELDS && |path| == DEPTH && |proof| == PROOF_BYTES
    && words == fields + [offset] + path + [length] + ProofWords(proof)
  }

  lemma LayoutSlices(words: seq<string>, fields: seq<string>, offset: string, path: seq<string>, length: string,
                     proof: seq<Byte>)
    requires Layout(words, fields, offset, path, length, proof)
    ensures |words| == 56 && words[0..FIELDS] == fields && words[FIELDS..FIELDS + 1] == [offset]
    ensures words[FIELDS + 1..FIELDS + 1 + DEPTH] == path
    ensures words[47..48] == [length] && words[48..] == ProofWords(proof) && words == words[..48] + words[48..]
  {
  }

  lemma OneWord(words: seq<string>, k: nat, n: nat)
    requires AllWords(words) && k < |words| && WordsMean(words[k..k + 1], [n])
    ensures WordAt(Join(words), k) == Some(n)
  {
    JoinSlice(words, k);
    assert words[k..k + 1][0] == words[k];
  }

  lemma ReadProof(words: seq<string>, fields: seq<string>, offset: string, path: seq<string>, length: string,
                  proof: seq<Byte>)
    requires Layout(words, fields, offset, path, length, proof) && AllWords(words)
    requires WordsMean([offset], [47 * 32]) && WordsMean([length], [PROOF_BYTES])
    ensures DynamicAt(Join(words), FIELDS) == Some(proof)
  {
    LayoutSlices(words, fields, offset, path, length, proof);
    OneWord(words, FIELDS, 47 * 32);
    OneWord(words, 47, PROOF_BYTES);
    JoinConcat(words[..48], words[48..]);
    JoinLength(words);
    JoinLength(words[..48]);
    var tail := ProofWords(proof);
    JoinedSlices(proof, tail, 8);
    assert tail[..8] == tail && proof[..256] == proof;
    assert Join(words)[WORD * 48..WORD * 48 + 2 * PROOF_BYTES] == BytesHex(proof);
    UnhexBytes(proof);
  }

  lemma ReadCall(selector: string, words: seq<string>, fields: seq<string>, offset: string, path: seq<string>,
                 length: string, proof: seq<Byte>, fieldValues: seq<nat>, pathValues: seq<nat>)
    requires |selector| == 8 && Layout(words, fields, offset, path, length, proof) && AllWords(words)
    requires WordsMean(fields, fieldValues) && WordsMean(path, pathValues)
    requires WordsMean([offset], [47 * 32]) && WordsMean([length], [PROOF_BYTES])
    ensures Decode("0x" + selector + Join(words)) == Some(Call(selector, fieldValues, pathValues, proof))
  {
    LayoutSlices(words, fields, offset, path, length, proof);
    ReadWords(words, fieldValues, 0, FIELDS);
    ReadWords(words, pathValues, FIELDS + 1, DEPTH);
    ReadProof(words, fields, offset, path, length, proof);
    var data := "0x" + selector + Join(words);
    assert data[..2] == "0x" && data[2..10] == selector && data[10..] == Join(words);
  }

  /** The account a destination stands for: 40 hex digits, or 20 octets. */
  function Account(d: Destination): nat {
    match d
    case Address(t) => if |t| < 2 then 0 else Value(16, t[2..])
    case Octets(o) => if AllOctets(o) then BigEndian(o) else 0
  }

  function BigEndian(bytes: seq<Byte>): nat {
    if bytes == [] then 0 else 256 * BigEndian(bytes[..|bytes| - 1]) + bytes[|bytes| - 1]
  }

  lemma PairValue(s: string, b: Byte)
    ensures Value(16, s + PairOf(b)) == 256 * Value(16, s) + b
  {
    PairMeans(b);
    var p := PairOf(b);
    assert s + p == (s + [p[0]]) + [p[1]];
    ValueSnoc(16, s, p[0]);
    ValueSnoc(16, s + [p[0]], p[1]);
  }

  lemma {:induction false} BytesAreBigEndian(bytes: seq<Byte>)
    ensures Value(16, BytesHex(bytes)) == BigEndian(bytes) && AllHex(BytesHex(bytes))
  {
    if bytes != [] {
      BytesAreBigEndian(bytes[..|bytes| - 1]);
      PairValue(BytesHex(bytes[..|bytes| - 1]), bytes[|bytes| - 1]);
      PairMeans(bytes[|bytes| - 1]);
    }
  }

  lemma LowerAt(s: string, i: nat)
    requires i < |s|
    ensures DigitValue(Lower(s)[i]) == DigitValue(s[i]) || !IsHex(s[i])
    ensures IsHex(Lower(s)[i]) <==> IsHex(s[i])
  {
  }

  /** Letter case does not change a hexadecimal number. */
  lemma {:induction false} CaseIsIgnored(s: string)
    ensures AllHex(Lower(s)) <==> AllHex(s)
    ensures AllHex(s) ==> Value(16, Lower(s)) == Value(16, s)
  {
    forall i | 0 <= i < |s| ensures IsHex(Lower(s)[i]) <==> IsHex(s[i]) { LowerAt(s, i); }
    if s != "" {
      CaseIsIgnored(s[..|s| - 1]);
      LowerAt(s, |s| - 1);
      assert Lower(s)[..|s| - 1] == Lower(s[..|s| - 1]);
    }
  }

  lemma DestinationMeans(d: Destination)
    requires DestinationHex(d).Some?
    ensures Meaning(Text(DestinationHex(d).value)) == Some(Account(d))
  {
    var h := DestinationHex(d).value;
    match d
    case Address(t) =>
      CaseIsIgnored(t[2..]);
      assert h[2..] == Lower(t[2..]) && |h[2..]| == 40;
    case Octets(o) =>
      BytesAreBigEndian(o);
      assert h[2..] == BytesHex(o);
  }

  lemma TextMeans(t: string)
    ensures Meaning(Text("0x" + t)) == if t == "" || !AllHex(t) || |t| > 64 then None else Some(Value(16, t))
  {
    assert ("0x" + t)[2..] == t;
  }

  /** A text means its hexadecimal number, with or without the prefix, whatever the case of its
      letters. */
  lemma CaseOfTextIsIgnored(t: string)
    ensures Meaning(Text("0x" + Lower(t))) == Meaning(Text("0x" + t))
  {
    TextMeans(t);
    TextMeans(Lower(t));
    CaseIsIgnored(t);
  }

  /** The encoder answers only for the mode, account and vault that were asked for, with a
      clearance exactly in a mutual close and a proof of 256 bytes. */
  predicate AsAsked(a: Answer, mode: Mode, expectedDestination: string, expectedVault: Option<string>) {
    && a.mode == mode && a.supportedBackend && |a.siblings| == 32
    && (match a.inputs.destination
        case Address(t) => IsAddress(t) && Lower(t) == Lower(expectedDestination)
        case Octets(o) => |o| == 20 && AllOctets(o) && "0x" + BytesHex(o) == Lower(expectedDestination))
    && (expectedVault.Some? ==> Lower(a.inputs.contract) == Lower(expectedVault.value))
    && (a.inputs.hasClearance <==> mode.Mutual?)
    && a.proof.Some? && |a.proof.value| == 256
  }

  /** What each of the 14 words must tell, in this order. */
  function Expected(i: Inputs): seq<Option<nat>> {
    [Meaning(i.version), Meaning(i.chain), Meaning(Text(i.contract)), Meaning(i.root),
     Meaning(i.stateX), Meaning(i.stateY), Meaning(i.clearanceX), Meaning(i.clearanceY),
     Meaning(i.note), Meaning(i.balance), Some(Account(i.destination)),
     Meaning(i.nullifier), Some(if i.hasClearance then 1 else 0), Meaning(i.tag)]
  }

  predicate AllFit(i: Inputs) {
    forall k :: 0 <= k < 14 ==> Expected(i)[k].Some?
  }

  predicate Tells(fields: seq<nat>, i: Inputs) {
    |fields| == 14 && forall k :: 0 <= k < 14 ==> Some(fields[k]) == Expected(i)[k]
  }

  lemma {:induction false} MeaningsAt(vs: seq<JsValue>, k: nat)
    requires Meanings(vs).Some? && k < |vs|
    ensures |Meanings(vs).value| == |vs| && Meaning(vs[k]) == Some(Meanings(vs).value[k])
  {
    if k < |vs| - 1 {
      MeaningsAt(vs[..|vs| - 1], k);
    } else if |vs| > 1 {
      MeaningsAt(vs[..|vs| - 1], 0);
    }
  }

  lemma {:induction false} MeaningsExist(vs: seq<JsValue>)
    requires forall k :: 0 <= k < |vs| ==> Meaning(vs[k]).Some?
    ensures Meanings(vs).Some?
  {
    if vs != [] { MeaningsExist(vs[..|vs| - 1]); }
  }

  lemma MeaningsIff(vs: seq<JsValue>)
    ensures Meanings(vs).Some? <==> forall k :: 0 <= k < |vs| ==> Meaning(vs[k]).Some?
    ensures Meanings(vs).Some? ==>
              && |Meanings(vs).value| == |vs|
              && forall k :: 0 <= k < |vs| ==> Meaning(vs[k]) == Some(Meanings(vs).value[k])
  {
    if Meanings(vs).Some? {
      forall k | 0 <= k < |vs|
        ensures |Meanings(vs).value| == |vs| && Meaning(vs[k]) == Some(Meanings(vs).value[k])
      {
        MeaningsAt(vs, k);
      }
    } else if forall k :: 0 <= k < |vs| ==> Meaning(vs[k]).Some? {
      MeaningsExist(vs);
    }
  }

  /** The same list under any reading of the values. */
  function Listed(m: JsValue -> Option<nat>, i: Inputs, account: Option<nat>, clearance: Option<nat>)
    : seq<Option<nat>>
  {
    [m(i.version), m(i.chain), m(Text(i.contract)), m(i.root), m(i.stateX), m(i.stateY), m(i.clearanceX),
     m(i.clearanceY), m(i.note), m(i.balance), account, m(i.nullifier), clearance, m(i.tag)]
  }

  lemma FieldIsListed(m: JsValue -> Option<nat>, i: Inputs, destination: string, k: nat)
    requires k < 14
    ensures |FieldsOf(i, destination)| == 14
    ensures m(FieldsOf(i, destination)[k])
         == Listed(m, i, m(Text(destination)), m(Integer(if i.hasClearance then 1 else 0)))[k]
  {
  }

  lemma FieldMeans(i: Inputs, destination: string, k: nat)
    requires Meaning(Text(destination)) == Some(Account(i.destination)) && k < 14
    ensures |FieldsOf(i, destination)| == 14 && Meaning(FieldsOf(i, destination)[k]) == Expected(i)[k]
  {
    SmallWord(0);
    SmallWord(1);
    FieldIsListed(v => Meaning(v), i, destination, k);
    assert Listed(v => Meaning(v), i, Meaning(Text(destination)), Meaning(Integer(if i.hasClearance then 1 else 0)))
        == Expected(i);
  }

  lemma FieldsTell(i: Inputs, destination: string)
    requires Meaning(Text(destination)) == Some(Account(i.destination))
    ensures Meanings(FieldsOf(i, destination)).Some? <==> AllFit(i)
    ensures AllFit(i) ==> Tells(Meanings(FieldsOf(i, destination)).value, i)
  {
    forall k | 0 <= k < 14
      ensures |FieldsOf(i, destination)| == 14 && Meaning(FieldsOf(i, destination)[k]) == Expected(i)[k]
    {
      FieldMeans(i, destination, k);
    }
    SameMeanings(FieldsOf(i, destination), i);
  }

  lemma SameMeanings(vs: seq<JsValue>, i: Inputs)
    requires |vs| == 14 && forall k :: 0 <= k < 14 ==> Meaning(vs[k]) == Expected(i)[k]
    ensures Meanings(vs).Some? <==> AllFit(i)
    ensures AllFit(i) ==> Tells(Meanings(vs).value, i)
  {
    MeaningsIff(vs);
    if Meanings(vs).Some? {
      forall k | 0 <= k < 14 ensures Expected(i)[k] == Some(Meanings(vs).value[k]) {
        assert Meaning(vs[k]) == Some(Meanings(vs).value[k]);
      }
    } else {
      var k :| 0 <= k < 14 && Meaning(vs[k]).None?;
      assert Expected(i)[k].None?;
    }
  }

  lemma AsAskedIff(a: Answer, mode: Mode, expectedDestination: string, expectedVault: Option<string>)
    ensures Admissible(a, mode, expectedDestination, expectedVault)
       <==> AsAsked(a, mode, expectedDestination, expectedVault)
  {
  }

  /** Encoding succeeds exactly when the answer is what was asked for and every value and
      sibling fits a word. */
  lemma EncodesIff(a: Answer, mode: Mode, expectedDestination: string, expectedVault: Option<string>)
    ensures Encode(a, mode, expectedDestination, expectedVault).Some? <==>
            && AsAsked(a, mode, expectedDestination, expectedVault) && AllFit(a.inputs)
            && forall k :: 0 <= k < |a.siblings| ==> Meaning(a.siblings[k]).Some?
  {
    AsAskedIff(a, mode, expectedDestination, expectedVault);
    if Admissible(a, mode, expectedDestination, expectedVault) {
      var fields := FieldsOf(a.inputs, DestinationHex(a.inputs.destination).value);
      WordsMeanings(fields);
      WordsMeanings(a.siblings);
      DestinationMeans(a.inputs.destination);
      FieldsTell(a.inputs, DestinationHex(a.inputs.destination).value);
      MeaningsIff(a.siblings);
      SmallWord(47 * 32);
      SmallWord(PROOF_BYTES);
      WordMeans(Integer(47 * 32));
      WordMeans(Integer(PROOF_BYTES));
    }
  }

  lemma ProofWordsFit(proof: seq<Byte>)
    requires |proof| == PROOF_BYTES
    ensures AllWords(ProofWords(proof))
  {
  }

  lemma SmallWordMeans(n: nat)
    requires n < 65536
    ensures AbiWord(Integer(n)).Some? && WordsMean([AbiWord(Integer(n)).value], [n])
  {
    SmallWord(n);
    WordMeans(Integer(n));
  }

  lemma LayoutIsWords(words: seq<string>, fields: seq<string>, offset: string, path: seq<string>, length: string,
                      proof: seq<Byte>, fieldValues: seq<nat>, pathValues: seq<nat>)
    requires Layout(words, fields, offset, path, length, proof)
    requires WordsMean(fields, fieldValues) && WordsMean(path, pathValues)
    requires WordsMean([offset], [47 * 32]) && WordsMean([length], [PROOF_BYTES])
    ensures AllWords(words)
  {
    ProofWordsFit(proof);
    assert |[offset][0]| == WORD && |[length][0]| == WORD;
  }

  lemma EncodedWords(a: Answer, mode: Mode, expectedDestination: string, expectedVault: Option<string>,
                         fields: seq<JsValue>, call: Call)
    requires Encode(a, mode, expectedDestination, expectedVault).Some?
    requires fields == FieldsOf(a.inputs, DestinationHex(a.inputs.destination).value)
    requires Meanings(fields).Some? && Meanings(a.siblings).Some?
    requires call == Call(SelectorOf(mode), Meanings(fields).value, Meanings(a.siblings).value, a.proof.value)
    ensures Decode(Encode(a, mode, expectedDestination, expectedVault).value) == Some(call)
  {
    WordsMeanings(fields);
    WordsMeanings(a.siblings);
    SmallWordMeans(47 * 32);
    SmallWordMeans(PROOF_BYTES);
    var f, path := AbiWords(fields).value, AbiWords(a.siblings).value;
    var offset, length := AbiWord(Integer(47 * 32)).value, AbiWord(Integer(PROOF_BYTES)).value;
    var words := f + [offset] + path + [length] + ProofWords(a.proof.value);
    LayoutIsWords(words, f, offset, path, length, a.proof.value, call.fields, call.siblings);
    ReadCall(SelectorOf(mode), words, f, offset, path, length, a.proof.value, call.fields, call.siblings);
  }

  /** Decoding any encoded withdrawal gives the selector of its mode; in the 14 words, in this
      order, version, chain, contract, root, the four key coordinates, note, balance, account,
      nullifier, clearance and tag; the siblings; and, through the offset word, the proof. */
  lemma EncodeThenDecode(a: Answer, mode: Mode, expectedDestination: string, expectedVault: Option<string>)
    returns (call: Call)
    requires Encode(a, mode, expectedDestination, expectedVault).Some?
    ensures Decode(Encode(a, mode, expectedDestination, expectedVault).value) == Some(call)
    ensures call.selector == if mode.Mutual? then "7fca9c82" else "9073639b"
    ensures Tells(call.fields, a.inputs) && Some(call.proof) == a.proof
    ensures |call.siblings| == 32 && forall k :: 0 <= k < 32 ==> Some(call.siblings[k]) == Meaning(a.siblings[k])
  {
    EncodesIff(a, mode, expectedDestination, expectedVault);
    AsAskedIff(a, mode, expectedDestination, expectedVault);
    var fields := FieldsOf(a.inputs, DestinationHex(a.inputs.destination).value);
    DestinationMeans(a.inputs.destination);
    FieldsTell(a.inputs, DestinationHex(a.inputs.destination).value);
    MeaningsIff(a.siblings);
    call := Call(SelectorOf(mode), Meanings(fields).value, Meanings(a.siblings).value, a.proof.value);
    EncodedWords(a, mode, expectedDestination, expectedVault, fields, call);
  }

  lemma TextAccount(t: string)
    requires IsAddress(t)
    ensures IsAddress(Lower(t)) && Value(16, t[2..]) == Value(16, Lower(t)[2..])
  {
    CaseIsIgnored(t[2..]);
    assert Lower(t)[2..] == Lower(t[2..]);
  }

  /** What the vault is told to pay to is the account that was asked for. */
  lemma PaysTheAccount(a: Answer, mode: Mode, account: string, expectedVault: Option<string>)
    requires Encode(a, mode, account, expectedVault).Some?
    ensures IsAddress(Lower(account)) && Account(a.inputs.destination) == Value(16, Lower(account)[2..])
  {
    EncodesIff(a, mode, account, expectedVault);
    match a.inputs.destination
    case Address(t) => TextAccount(t);
    case Octets(o) =>
      BytesAreBigEndian(o);
      assert Lower(account)[2..] == BytesHex(o);
  }
}
