/** When an entry of the log is genuine, in terms of its own fields, the entry before it, the
 *  hash, and the key of its version (src/core/audit.ts:64-77, 169-200). */
module AuditMeaning {
  import opened Prelude
  import opened CanonicalJson
  import opened AuditChain

  /** The number a line of digits stands for. */
  function Value(digits: string): int {
    if digits == "" then 0
    else 10 * Value(digits[..|digits| - 1]) + (digits[|digits| - 1] as int - '0' as int)
  }

  predicate IsDecimal(digits: string, n: nat) {
    && digits != "" && Value(digits) == n
    && (forall i :: 0 <= i < |digits| ==> '0' <= digits[i] <= '9')
    && (digits[0] == '0' ==> digits == "0")
  }

  lemma {:induction false} DigitsMean(n: nat)
    ensures IsDecimal(Digits(n), n)
  {
    if n >= 10 {
      DigitsMean(n / 10);
      assert Digits(n)[..|Digits(n)| - 1] == Digits(n / 10);
    }
  }

  /** The event a name in the log stands for. */
  function Named(name: string): Option<EventType> {
    if name == "mandate.granted" then Some(MandateGranted)
    else if name == "mandate.revoked" then Some(MandateRevoked)
    else if name == "mandate.amended" then Some(MandateAmended)
    else if name == "gate.decision" then Some(GateDecided)
    else if name == "payment.settled" then Some(PaymentSettled)
    else if name == "payment.verified" then Some(PaymentVerified)
    else if name == "payment.failed" then Some(PaymentFailed)
    else if name == "payment.refunded" then Some(PaymentRefunded)
    else if name == "payment.halted" then Some(PaymentHalted)
    else if name == "earning.quoted" then Some(EarningQuoted)
    else if name == "earning.received" then Some(EarningReceived)
    else if name == "earning.rejected" then Some(EarningRejected)
    else None
  }

  /** Every event has its own name. */
  lemma NamesMean(kind: EventType)
    ensures Named(TypeName(kind)) == Some(kind)
  {
  }

  /** What an entry commits to: five lines, its number, time, event, payload and link. */
  function Statement(e: AuditEntry): string {
    Digits(e.no) + "\n" + e.ts + "\n" + TypeName(e.kind) + "\n" + Canonicalize(e.payload) + "\n" + e.prevHash
  }

  /** Sixty-four zeros before the first entry, the digest of the entry before after that. */
  predicate IsLinked(entries: seq<AuditEntry>, i: nat)
    requires i < |entries|
  {
    if i == 0 then |entries[0].prevHash| == 64 && forall k :: 0 <= k < 64 ==> entries[0].prevHash[k] == '0'
    else entries[i].prevHash == entries[i - 1].digest
  }

  predicate IsHashed(c: Crypto, e: AuditEntry) {
    e.digest == c.hash(Statement(e))
  }

  /** There is a key of the entry's version, and it made the signature. */
  predicate IsSigned(c: Crypto, keys: Resolver, e: AuditEntry) {
    keys(e.keyVersion).Some? && e.sig == c.mac(keys(e.keyVersion).value, e.digest)
  }

  predicate IsGenuine(c: Crypto, keys: Resolver, entries: seq<AuditEntry>, i: nat)
    requires i < |entries|
  {
    IsLinked(entries, i) && IsHashed(c, entries[i]) && IsSigned(c, keys, entries[i])
  }

  predicate AllGenuine(c: Crypto, keys: Resolver, entries: seq<AuditEntry>, n: nat)
    requires n <= |entries|
  {
    forall i :: 0 <= i < n ==> IsGenuine(c, keys, entries, i)
  }

  /** The first test the entry fails, in the order link, digest, key, signature. */
  predicate FailsFor(c: Crypto, keys: Resolver, entries: seq<AuditEntry>, i: nat, why: Why)
    requires i < |entries|
  {
    var e := entries[i];
    match why
    case BrokenLink => !IsLinked(entries, i)
    case ContentMismatch => IsLinked(entries, i) && !IsHashed(c, e)
    case KeyResolutionFailed => IsLinked(entries, i) && IsHashed(c, e) && keys(e.keyVersion).None?
    case SignatureMismatch =>
      IsLinked(entries, i) && IsHashed(c, e) && keys(e.keyVersion).Some? && e.sig != c.mac(keys(e.keyVersion).value, e.digest)
  }

  lemma PreimageMeans(e: AuditEntry)
    ensures Preimage(e.no, e.ts, e.kind, e.payload, e.prevHash) == Statement(e)
  {
    hide Canonicalize, TypeName, Digits;
    var a, b, d, f := Digits(e.no), TypeName(e.kind), Canonicalize(e.payload), e.prevHash;
    assert a + "\n" + (e.ts + "\n" + b + "\n" + d + "\n" + f) == a + "\n" + e.ts + "\n" + b + "\n" + d + "\n" + f;
  }

  lemma LinkMeans(entries: seq<AuditEntry>, i: nat)
    requires i < |entries|
    ensures IsLinked(entries, i) <==> entries[i].prevHash == LinkBefore(entries, i)
  {
    if i == 0 && IsLinked(entries, 0) {
      assert entries[0].prevHash == Zeros(64);
    }
  }

  /** An entry's fault is the first test it fails, and it has none when it is genuine. */
  lemma FaultMeans(c: Crypto, keys: Resolver, entries: seq<AuditEntry>, i: nat)
    requires i < |entries|
    ensures Fault(c, keys, LinkBefore(entries, i), entries[i]).None? <==> IsGenuine(c, keys, entries, i)
    ensures forall why :: Fault(c, keys, LinkBefore(entries, i), entries[i]) == Some(why) <==> FailsFor(c, keys, entries, i, why)
  {
    hide IsLinked, Statement, Preimage, LinkBefore;
    LinkMeans(entries, i);
    PreimageMeans(entries[i]);
  }

  /** A chain verifies exactly when every entry of it is genuine. */
  lemma VerifiesMeans(c: Crypto, keys: Resolver, entries: seq<AuditEntry>)
    ensures Verifies(c, keys, entries) <==> AllGenuine(c, keys, entries, |entries|)
  {
    hide IsGenuine, Fault;
    forall i | 0 <= i < |entries|
      ensures SoundAt(c, keys, entries, i) <==> IsGenuine(c, keys, entries, i)
    {
      FaultMeans(c, keys, entries, i);
    }
  }
}
