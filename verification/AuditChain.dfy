/** The signed, hash-linked log as a value (src/core/audit.ts): what an entry commits to,
 *  when a chain verifies, and what a verified head hash pins down. */
module AuditChain {
  import opened Prelude
  import opened CanonicalJson
  import opened CanonicalLaws

  datatype EventType =
    | MandateGranted | MandateRevoked | MandateAmended | GateDecided
    | PaymentSettled | PaymentVerified | PaymentFailed | PaymentRefunded | PaymentHalted
    | EarningQuoted | EarningReceived | EarningRejected

  function TypeName(t: EventType): string {
    match t
    case MandateGranted => "mandate.granted"
    case MandateRevoked => "mandate.revoked"
    case MandateAmended => "mandate.amended"
    case GateDecided => "gate.decision"
    case PaymentSettled => "payment.settled"
    case PaymentVerified => "payment.verified"
    case PaymentFailed => "payment.failed"
    case PaymentRefunded => "payment.refunded"
    case PaymentHalted => "payment.halted"
    case EarningQuoted => "earning.quoted"
    case EarningReceived => "earning.received"
    case EarningRejected => "earning.rejected"
  }

  datatype AuditEntry = AuditEntry(
    no: nat,
    ts: string,
    kind: EventType,
    payload: Json,
    prevHash: string,
    digest: string,
    sig: string,
    keyVersion: Option<string>)

  /** SHA-256 as hex, and HMAC-SHA256 as hex of key and message. */
  datatype Crypto = Crypto(hash: string -> string, mac: (string, string) -> string)

  function Zeros(n: nat): (s: string)
    ensures |s| == n && forall i :: 0 <= i < n ==> s[i] == '0'
  {
    if n == 0 then "" else Zeros(n - 1) + "0"
  }

  const GENESIS: string := Zeros(64)

  /** What the claims about tampering take for granted of the hash. */
  ghost predicate Ideal(c: Crypto) {
    && (forall x, y :: c.hash(x) == c.hash(y) ==> x == y)
    && (forall x :: c.hash(x) != GENESIS && '\n' !in c.hash(x))
  }

  function Preimage(no: nat, ts: string, kind: EventType, payload: Json, prevHash: string): string {
    Digits(no) + "\n" + (ts + "\n" + TypeName(kind) + "\n" + Canonicalize(payload) + "\n" + prevHash)
  }

  function HashOf(c: Crypto, e: AuditEntry): string {
    c.hash(Preimage(e.no, e.ts, e.kind, e.payload, e.prevHash))
  }

  function LinkBefore(entries: seq<AuditEntry>, i: nat): string
    requires i <= |entries|
  {
    if i == 0 then GENESIS else entries[i - 1].digest
  }

  // --- verification ---

  /** Key material by version, when it can be had. */
  type Resolver = Option<string> -> Option<string>

  datatype Why = BrokenLink | ContentMismatch | KeyResolutionFailed | SignatureMismatch

  function Fault(c: Crypto, keys: Resolver, prev: string, e: AuditEntry): Option<Why> {
    if e.prevHash != prev then Some(BrokenLink)
    else if HashOf(c, e) != e.digest then Some(ContentMismatch)
    else
      match keys(e.keyVersion)
      case None => Some(KeyResolutionFailed)
      case Some(key) => if c.mac(key, e.digest) != e.sig then Some(SignatureMismatch) else None
  }

  predicate SoundAt(c: Crypto, keys: Resolver, entries: seq<AuditEntry>, i: nat)
    requires i < |entries|
  {
    Fault(c, keys, LinkBefore(entries, i), entries[i]).None?
  }

  predicate Verifies(c: Crypto, keys: Resolver, entries: seq<AuditEntry>) {
    forall i :: 0 <= i < |entries| ==> SoundAt(c, keys, entries, i)
  }

  // --- framing ---

  lemma FirstLineNotLonger(a: string, b: string, x: string, y: string)
    requires '\n' !in b && a + "\n" + x == b + "\n" + y
    ensures |b| <= |a|
  {
    assert (a + "\n" + x)[|a|] == '\n';
    assert forall i :: 0 <= i < |b| ==> (b + "\n" + y)[i] == b[i];
  }

  /** A text splits in one way after its first line. */
  lemma FirstLineCut(a: string, b: string, x: string, y: string)
    requires '\n' !in a && '\n' !in b && a + "\n" + x == b + "\n" + y
    ensures a == b && x == y
  {
    FirstLineNotLonger(a, b, x, y);
    FirstLineNotLonger(b, a, y, x);
    assert a == (a + "\n" + x)[..|a|] && b == (b + "\n" + y)[..|b|];
    assert x == (a + "\n" + x)[|a| + 1..] && y == (b + "\n" + y)[|b| + 1..];
  }

  lemma LastLineNotLonger(x: string, y: string, a: string, b: string)
    requires '\n' !in b && x + "\n" + a == y + "\n" + b
    ensures |b| <= |a|
  {
    assert (x + "\n" + a)[|x|] == '\n';
    assert forall i :: |y| < i < |y| + 1 + |b| ==> (y + "\n" + b)[i] == b[i - |y| - 1];
  }

  /** A text splits in one way before its last line. */
  lemma LastLineCut(x: string, y: string, a: string, b: string)
    requires '\n' !in a && '\n' !in b && x + "\n" + a == y + "\n" + b
    ensures x == y && a == b
  {
    LastLineNotLonger(x, y, a, b);
    LastLineNotLonger(y, x, b, a);
    assert x == (x + "\n" + a)[..|x|] && y == (y + "\n" + b)[..|y|];
    assert a == (x + "\n" + a)[|x| + 1..] && b == (y + "\n" + b)[|y| + 1..];
  }

  lemma TypeNamesDiffer(s: EventType, t: EventType)
    ensures TypeName(s) == TypeName(t) ==> s == t
    ensures '\n' !in TypeName(s)
  {
  }

  /** The framing is unambiguous, even for a timestamp that holds line breaks. */
  lemma PreimageIsInjective(d: AuditEntry, e: AuditEntry)
    requires '\n' !in d.prevHash && '\n' !in e.prevHash
    requires Preimage(d.no, d.ts, d.kind, d.payload, d.prevHash) == Preimage(e.no, e.ts, e.kind, e.payload, e.prevHash)
    ensures d.no == e.no && d.ts == e.ts && d.kind == e.kind && d.prevHash == e.prevHash
    ensures Canonicalize(d.payload) == Canonicalize(e.payload)
  {
    hide Canonicalize, TypeName, Digits;
    TypeNamesDiffer(d.kind, e.kind);
    TypeNamesDiffer(e.kind, d.kind);
    TextIsOneLine(d.payload);
    TextIsOneLine(e.payload);
    DigitsLine(d.no);
    DigitsLine(e.no);
    var t, u := d.ts + "\n" + TypeName(d.kind), e.ts + "\n" + TypeName(e.kind);
    FirstLineCut(Digits(d.no), Digits(e.no),
                 t + "\n" + Canonicalize(d.payload) + "\n" + d.prevHash,
                 u + "\n" + Canonicalize(e.payload) + "\n" + e.prevHash);
    DigitsAreInjective(d.no, e.no);
    LastLineCut(t + "\n" + Canonicalize(d.payload), u + "\n" + Canonicalize(e.payload), d.prevHash, e.prevHash);
    LastLineCut(t, u, Canonicalize(d.payload), Canonicalize(e.payload));
    LastLineCut(d.ts, e.ts, TypeName(d.kind), TypeName(e.kind));
  }

  // --- what a head hash pins down ---

  /** Two entries say the same, whoever signed them. */
  predicate SayTheSame(d: AuditEntry, e: AuditEntry) {
    && d.no == e.no && d.ts == e.ts && d.kind == e.kind
    && Meaning(d.payload) == Meaning(e.payload)
    && d.prevHash == e.prevHash && d.digest == e.digest
  }

  lemma LinksAreLines(c: Crypto, keys: Resolver, entries: seq<AuditEntry>, i: nat)
    requires Ideal(c) && Verifies(c, keys, entries) && i <= |entries|
    ensures '\n' !in LinkBefore(entries, i)
    ensures LinkBefore(entries, i) == GENESIS <==> i == 0
  {
    if i > 0 {
      assert SoundAt(c, keys, entries, i - 1);
      var e := entries[i - 1];
      var text := Preimage(e.no, e.ts, e.kind, e.payload, e.prevHash);
      assert e.digest == c.hash(text);
    }
  }

  /** Equal digests, at whatever positions, carry equal entries. */
  lemma DigestFixesEntry(c: Crypto, f: Resolver, g: Resolver, xs: seq<AuditEntry>, i: nat, ys: seq<AuditEntry>, j: nat)
    requires Ideal(c) && Verifies(c, f, xs) && Verifies(c, g, ys)
    requires i < |xs| && j < |ys| && xs[i].digest == ys[j].digest
    requires Wf(xs[i].payload) && Wf(ys[j].payload)
    ensures SayTheSame(xs[i], ys[j])
    ensures LinkBefore(xs, i) == LinkBefore(ys, j)
  {
    hide Preimage, Canonicalize, Meaning;
    assert SoundAt(c, f, xs, i) && SoundAt(c, g, ys, j);
    LinksAreLines(c, f, xs, i);
    LinksAreLines(c, g, ys, j);
    assert c.hash(Preimage(xs[i].no, xs[i].ts, xs[i].kind, xs[i].payload, xs[i].prevHash))
        == c.hash(Preimage(ys[j].no, ys[j].ts, ys[j].kind, ys[j].payload, ys[j].prevHash));
    PreimageIsInjective(xs[i], ys[j]);
    SameTextIffSameMeaning(xs[i].payload, ys[j].payload);
  }

  ghost predicate WellFormedPayloads(entries: seq<AuditEntry>) {
    forall i :: 0 <= i < |entries| ==> Wf(entries[i].payload)
  }

  /** Two logs that verify and share a head hash are the same log: as long, and entry for
   *  entry with the same number, time, type, payload, link and hash. */
  lemma {:induction false} HeadFixesLog(c: Crypto, f: Resolver, g: Resolver, xs: seq<AuditEntry>, ys: seq<AuditEntry>)
    requires Ideal(c) && Verifies(c, f, xs) && Verifies(c, g, ys)
    requires WellFormedPayloads(xs) && WellFormedPayloads(ys)
    requires LinkBefore(xs, |xs|) == LinkBefore(ys, |ys|)
    ensures |xs| == |ys|
    ensures forall i :: 0 <= i < |xs| ==> SayTheSame(xs[i], ys[i])
    decreases |xs|
  {
    hide Ideal, SayTheSame, Fault;
    LinksAreLines(c, f, xs, |xs|);
    LinksAreLines(c, g, ys, |ys|);
    if xs != [] {
      var m, n := |xs| - 1, |ys| - 1;
      DigestFixesEntry(c, f, g, xs, m, ys, n);
      PrefixVerifies(c, f, xs, m);
      PrefixVerifies(c, g, ys, n);
      assert LinkBefore(xs[..m], m) == LinkBefore(xs, m);
      assert LinkBefore(ys[..n], n) == LinkBefore(ys, n);
      HeadFixesLog(c, f, g, xs[..m], ys[..n]);
      forall i | 0 <= i < |xs|
        ensures SayTheSame(xs[i], ys[i])
      {
        if i < m {
          assert xs[..m][i] == xs[i] && ys[..n][i] == ys[i];
        }
      }
    }
  }

  /** The same, field by field. */
  lemma HeadFixesFields(c: Crypto, f: Resolver, g: Resolver, xs: seq<AuditEntry>, ys: seq<AuditEntry>, i: nat)
    requires Ideal(c) && Verifies(c, f, xs) && Verifies(c, g, ys)
    requires WellFormedPayloads(xs) && WellFormedPayloads(ys)
    requires LinkBefore(xs, |xs|) == LinkBefore(ys, |ys|) && i < |xs|
    ensures |ys| == |xs|
    ensures xs[i].no == ys[i].no && xs[i].ts == ys[i].ts && xs[i].kind == ys[i].kind
    ensures Meaning(xs[i].payload) == Meaning(ys[i].payload)
    ensures xs[i].prevHash == ys[i].prevHash && xs[i].digest == ys[i].digest
  {
    HeadFixesLog(c, f, g, xs, ys);
    hide Ideal, Verifies, WellFormedPayloads, LinkBefore, Meaning;
    assert SayTheSame(xs[i], ys[i]);
  }

  /** Cutting a log short leaves a log that verifies: without the head hash, verification
   *  alone cannot notice missing entries at the end. */
  lemma PrefixVerifies(c: Crypto, keys: Resolver, entries: seq<AuditEntry>, n: nat)
    requires n <= |entries| && Verifies(c, keys, entries)
    ensures Verifies(c, keys, entries[..n])
  {
    forall i | 0 <= i < n
      ensures SoundAt(c, keys, entries[..n], i)
    {
      assert SoundAt(c, keys, entries, i);
      assert LinkBefore(entries[..n], i) == LinkBefore(entries, i);
    }
  }
}
