/** The audit log in operation: appending, rotating the key, restarting from the stored
 *  entries, and verifying (src/core/audit.ts, src/core/keyCustody.ts). */
module AuditLog {
  import opened Prelude
  import opened CanonicalJson
  import opened AuditChain
  import opened KeyCustody
  import opened AuditMeaning

  /** How a log signs: one key for everything, or versioned keys from custody, with the old
   *  single key kept for entries that carry no version. */
  datatype Custody =
    | OneKey(key: string)
    | Versioned(cache: map<string, string>, current: string, legacy: Option<string>)

  datatype LogState = LogState(entries: seq<AuditEntry>, custody: Custody)

  /** The key an entry is checked with, while the KMS answers. */
  function KeyFor(issued: Issued, custody: Custody, version: Option<string>): Option<string> {
    match custody
    case OneKey(key) => Some(key)
    case Versioned(cache, _, legacy) =>
      match version
      case None => if legacy.Some? && legacy.value != "" then legacy else None
      case Some(v) => if v in cache then Some(cache[v]) else Usable(issued, v)
  }

  function Keys(issued: Issued, custody: Custody): Resolver {
    (version: Option<string>) => KeyFor(issued, custody, version)
  }

  function NewEntry(c: Crypto, entries: seq<AuditEntry>, key: string, version: Option<string>,
                    kind: EventType, payload: Json, ts: string): AuditEntry {
    var no := |entries|;
    var prev := LinkBefore(entries, no);
    var digest := c.hash(Preimage(no, ts, kind, payload, prev));
    AuditEntry(no, ts, kind, payload, prev, digest, c.mac(key, digest), version)
  }

  predicate Sane(issued: Issued, custody: Custody) {
    match custody
    case OneKey(_) => true
    case Versioned(cache, current, _) =>
      current in cache && forall v :: v in cache ==> Usable(issued, v) == Some(cache[v])
  }

  function Appended(c: Crypto, s: LogState, kind: EventType, payload: Json, ts: string): LogState
    requires s.custody.Versioned? ==> s.custody.current in s.custody.cache
  {
    match s.custody
    case OneKey(key) => s.(entries := s.entries + [NewEntry(c, s.entries, key, None, kind, payload, ts)])
    case Versioned(cache, current, _) =>
      s.(entries := s.entries + [NewEntry(c, s.entries, cache[current], Some(current), kind, payload, ts)])
  }

  /** A restart keeps the entries and may change custody: a fresh provider over the same
   *  KMS, or the move from one key to versioned keys. */
  datatype Step =
    | Append(kind: EventType, payload: Json, ts: string)
    | RotateTo(version: string)
    | Restart(custody: Custody)

  /** Custody a log may be reopened with: sane, and with the base key at hand if any entry
   *  was signed with it. One key alone cannot read a log that has versioned entries. */
  predicate Fits(issued: Issued, base: string, entries: seq<AuditEntry>, custody: Custody) {
    && Sane(issued, custody)
    && (custody.OneKey? ==> custody.key == base && forall i :: 0 <= i < |entries| ==> entries[i].keyVersion.None?)
    && (custody.Versioned? && custody.legacy != Some(base) ==> forall i :: 0 <= i < |entries| ==> entries[i].keyVersion.Some?)
  }

  predicate Enabled(issued: Issued, base: string, s: LogState, step: Step) {
    match step
    case Append(_, _, _) => true
    case RotateTo(v) => s.custody.Versioned? && Usable(issued, v).Some?
    case Restart(custody) => Fits(issued, base, s.entries, custody)
  }

  function Next(c: Crypto, issued: Issued, base: string, s: LogState, step: Step): LogState
    requires Sane(issued, s.custody) && Enabled(issued, base, s, step)
  {
    match step
    case Append(kind, payload, ts) => Appended(c, s, kind, payload, ts)
    case RotateTo(v) =>
      s.(custody := s.custody.(cache := s.custody.cache[v := Usable(issued, v).value], current := v))
    case Restart(custody) => s.(custody := custody)
  }

  ghost predicate Behaviour(c: Crypto, issued: Issued, base: string, states: seq<LogState>, steps: seq<Step>) {
    && |states| == |steps| + 1
    && forall i :: 0 <= i < |steps| ==>
         && Sane(issued, states[i].custody)
         && Enabled(issued, base, states[i], steps[i])
         && states[i + 1] == Next(c, issued, base, states[i], steps[i])
  }

  /** Every entry is signed for good: by its version's key, or by the base key. */
  function Forever(issued: Issued, base: string): Resolver {
    (version: Option<string>) => match version { case None => Some(base) case Some(v) => Usable(issued, v) }
  }

  ghost predicate Inv(c: Crypto, issued: Issued, base: string, s: LogState) {
    && base != ""
    && Verifies(c, Forever(issued, base), s.entries)
    && Fits(issued, base, s.entries, s.custody)
  }

  lemma AppendVerifies(c: Crypto, keys: Resolver, entries: seq<AuditEntry>, key: string, version: Option<string>,
                       kind: EventType, payload: Json, ts: string)
    requires Verifies(c, keys, entries) && keys(version) == Some(key)
    ensures Verifies(c, keys, entries + [NewEntry(c, entries, key, version, kind, payload, ts)])
  {
    hide Preimage;
    var longer := entries + [NewEntry(c, entries, key, version, kind, payload, ts)];
    forall i | 0 <= i < |longer|
      ensures SoundAt(c, keys, longer, i)
    {
      assert LinkBefore(longer, i) == LinkBefore(entries, i);
      if i < |entries| {
        assert SoundAt(c, keys, entries, i);
      }
    }
  }

  lemma NextKeepsInv(c: Crypto, issued: Issued, base: string, s: LogState, step: Step)
    requires Inv(c, issued, base, s) && Enabled(issued, base, s, step)
    ensures Inv(c, issued, base, Next(c, issued, base, s, step))
  {
    match step {
      case Append(kind, payload, ts) =>
        hide Verifies;
        match s.custody {
          case OneKey(key) => AppendVerifies(c, Forever(issued, base), s.entries, key, None, kind, payload, ts);
          case Versioned(cache, current, _) =>
            AppendVerifies(c, Forever(issued, base), s.entries, cache[current], Some(current), kind, payload, ts);
        }
      case _ =>
    }
  }

  /** A log that is sound for good verifies under any custody that fits it. */
  lemma FittingCustodyVerifies(c: Crypto, issued: Issued, base: string, s: LogState)
    requires Inv(c, issued, base, s)
    ensures Verifies(c, Keys(issued, s.custody), s.entries)
  {
    forall i | 0 <= i < |s.entries|
      ensures SoundAt(c, Keys(issued, s.custody), s.entries, i)
    {
      assert SoundAt(c, Forever(issued, base), s.entries, i);
      var version := s.entries[i].keyVersion;
      assert KeyFor(issued, s.custody, version) == Forever(issued, base)(version);
    }
  }

  /** Every interleaving of appends, rotations and restarts, from an empty log, verifies at
   *  every moment. */
  lemma {:induction false} EveryInterleavingVerifies(c: Crypto, issued: Issued, base: string,
                                                     states: seq<LogState>, steps: seq<Step>, i: nat)
    requires Behaviour(c, issued, base, states, steps) && i < |states|
    requires base != "" && states[0].entries == [] && Fits(issued, base, [], states[0].custody)
    ensures Inv(c, issued, base, states[i])
    ensures Verifies(c, Keys(issued, states[i].custody), states[i].entries)
  {
    if i > 0 {
      EveryInterleavingVerifies(c, issued, base, states, steps, i - 1);
      NextKeepsInv(c, issued, base, states[i - 1], steps[i - 1]);
    }
    FittingCustodyVerifies(c, issued, base, states[i]);
  }

  /** What the steps of a log in service do: an append adds one genuine entry, signed with the
   *  key in use; a rotation puts another version's key in use and forgets none; a restart
   *  changes custody alone. */
  lemma StepMeans(c: Crypto, issued: Issued, base: string, s: LogState, step: Step)
    requires Sane(issued, s.custody) && Enabled(issued, base, s, step)
    ensures var s' := Next(c, issued, base, s, step);
            match step {
              case Append(kind, payload, ts) =>
                && s'.custody == s.custody
                && |s'.entries| == |s.entries| + 1 && s'.entries[..|s.entries|] == s.entries
                && var e := s'.entries[|s.entries|];
                   && e.no == |s.entries| && e.kind == kind && e.payload == payload && e.ts == ts
                   && IsLinked(s'.entries, |s.entries|) && IsHashed(c, e)
                   && match s.custody {
                        case OneKey(key) => e.keyVersion == None && e.sig == c.mac(key, e.digest)
                        case Versioned(cache, current, _) => e.keyVersion == Some(current) && e.sig == c.mac(cache[current], e.digest)
                      }
              case RotateTo(v) =>
                && s'.entries == s.entries && s.custody.Versioned? && s'.custody.Versioned?
                && s'.custody.current == v && s'.custody.legacy == s.custody.legacy
                && v in s'.custody.cache && Usable(issued, v) == Some(s'.custody.cache[v])
                && forall u :: u in s.custody.cache ==> u in s'.custody.cache && s'.custody.cache[u] == s.custody.cache[u]
              case Restart(custody) => s' == LogState(s.entries, custody)
            }
  {
    match step {
      case Append(_, _, _) =>
        var entries := Next(c, issued, base, s, step).entries;
        LinkMeans(entries, |s.entries|);
        PreimageMeans(entries[|s.entries|]);
        hide Preimage, Statement, IsLinked;
      case _ =>
    }
  }

  /** An append is always possible, a rotation to any version the KMS gives usable bytes for. */
  lemma OpenSteps(issued: Issued, base: string, s: LogState, kind: EventType, payload: Json, ts: string, v: string)
    ensures Enabled(issued, base, s, Append(kind, payload, ts))
    ensures s.custody.Versioned? ==> (Enabled(issued, base, s, RotateTo(v)) <==> issued(v).Some? && issued(v).value != "")
  {
  }

  /** The ways a log can be opened again: with the one key it always had; with versioned keys
   *  and that key for the entries before them; or with versioned keys alone if it has no such
   *  entries. */
  lemma WaysToReopen(issued: Issued, base: string, entries: seq<AuditEntry>, cache: map<string, string>, current: string)
    ensures (forall i :: 0 <= i < |entries| ==> entries[i].keyVersion.None?) ==> Fits(issued, base, entries, OneKey(base))
    ensures current in cache && (forall v :: v in cache ==> Usable(issued, v) == Some(cache[v])) ==>
              && Fits(issued, base, entries, Versioned(cache, current, Some(base)))
              && ((forall i :: 0 <= i < |entries| ==> entries[i].keyVersion.Some?) ==>
                    forall legacy :: Fits(issued, base, entries, Versioned(cache, current, legacy)))
  {
  }

  // --- the log as a program ---

  datatype VerifyResult = Intact | Broken(at: nat, why: Why)

  /** Everything before entry i is sound and entry i is not, for the reason given. */
  ghost predicate BreaksAt(c: Crypto, keys: Resolver, entries: seq<AuditEntry>, i: nat, r: VerifyResult) {
    && i < |entries|
    && (forall j :: 0 <= j < i ==> SoundAt(c, keys, entries, j))
    && r.Broken? && r.at == entries[i].no
    && Fault(c, keys, LinkBefore(entries, i), entries[i]) == Some(r.why)
  }

  /** The break that is reported, in terms of the entry's own fields. */
  lemma BreakMeans(c: Crypto, keys: Resolver, entries: seq<AuditEntry>, i: nat, r: VerifyResult)
    requires BreaksAt(c, keys, entries, i, r)
    ensures !AllGenuine(c, keys, entries, |entries|)
    ensures forall j, why :: 0 <= j < |entries| && AllGenuine(c, keys, entries, j) && FailsFor(c, keys, entries, j, why)
              ==> r == Broken(entries[j].no, why)
  {
    hide Fault, IsGenuine, FailsFor;
    FaultMeans(c, keys, entries, i);
    assert !IsGenuine(c, keys, entries, i);
    forall j | 0 <= j <= i
      ensures SoundAt(c, keys, entries, j) <==> IsGenuine(c, keys, entries, j)
    {
      FaultMeans(c, keys, entries, j);
    }
    forall j, why | 0 <= j < |entries| && AllGenuine(c, keys, entries, j) && FailsFor(c, keys, entries, j, why)
      ensures r == Broken(entries[j].no, why)
    {
      FaultMeans(c, keys, entries, j);
    }
  }

  ghost predicate SoundSoFar(c: Crypto, keys: Resolver, entries: seq<AuditEntry>, n: nat)
    requires n <= |entries|
  {
    forall j :: 0 <= j < n ==> SoundAt(c, keys, entries, j)
  }

  lemma NothingChecked(c: Crypto, keys: Resolver, entries: seq<AuditEntry>)
    ensures SoundSoFar(c, keys, entries, 0)
  {
  }

  lemma OneMoreSound(c: Crypto, keys: Resolver, entries: seq<AuditEntry>, i: nat)
    requires i < |entries| && SoundSoFar(c, keys, entries, i)
    requires Fault(c, keys, LinkBefore(entries, i), entries[i]).None?
    ensures SoundSoFar(c, keys, entries, i + 1)
  {
    hide Fault;
    assert SoundAt(c, keys, entries, i);
  }

  lemma AllSound(c: Crypto, keys: Resolver, entries: seq<AuditEntry>)
    requires SoundSoFar(c, keys, entries, |entries|)
    ensures Verifies(c, keys, entries)
  {
    hide SoundAt;
  }

  /** The first entry with a fault is the one that is reported. */
  lemma FirstBreak(c: Crypto, keys: Resolver, entries: seq<AuditEntry>, i: nat, r: VerifyResult)
    requires i < |entries| && SoundSoFar(c, keys, entries, i) && r.Broken? && r.at == entries[i].no
    requires Fault(c, keys, LinkBefore(entries, i), entries[i]) == Some(r.why)
    ensures BreaksAt(c, keys, entries, i, r) && !Verifies(c, keys, entries) && !AllGenuine(c, keys, entries, |entries|)
    ensures forall j, why :: 0 <= j < |entries| && AllGenuine(c, keys, entries, j) && FailsFor(c, keys, entries, j, why)
              ==> r == Broken(entries[j].no, why)
  {
    hide Fault, AllGenuine, FailsFor;
    BreakMeans(c, keys, entries, i, r);
    VerifiesMeans(c, keys, entries);
  }

  lemma IntactMeans(c: Crypto, keys: Resolver, entries: seq<AuditEntry>)
    requires Verifies(c, keys, entries)
    ensures forall j, why :: 0 <= j < |entries| ==> !FailsFor(c, keys, entries, j, why)
  {
    hide Fault, FailsFor;
    forall j, why | 0 <= j < |entries|
      ensures !FailsFor(c, keys, entries, j, why)
    {
      FaultMeans(c, keys, entries, j);
      assert SoundAt(c, keys, entries, j);
    }
  }

  class Log {
    const crypto: Crypto
    const key: string
    const provider: KmsKeyProvider?
    const legacy: Option<string>
    var entries: seq<AuditEntry>

    /** One operator key when there is no provider. */
    constructor (crypto: Crypto, key: string, provider: KmsKeyProvider?, legacy: Option<string>, seed: seq<AuditEntry>)
      requires provider == null ==> key != ""
      requires provider != null ==> provider.Valid()
      ensures this.crypto == crypto && this.key == key && this.provider == provider && this.legacy == legacy
      ensures Valid() && entries == seed
    {
      this.crypto, this.key, this.provider, this.legacy := crypto, key, provider, legacy;
      entries := seed;
    }

    ghost predicate Valid()
      reads this, provider
    {
      provider != null ==> provider.Valid()
    }

    function CustodyNow(): Custody
      reads this, provider
    {
      if provider == null then OneKey(key) else Versioned(provider.cache, provider.currentVersion, legacy)
    }

    /** What the log resolves a version to at this moment. */
    function KeyNow(version: Option<string>): Option<string>
      reads this, provider, if provider == null then {} else {provider.client}
    {
      if provider == null then Some(key)
      else
        match version
        case None => if legacy.Some? && legacy.value != "" then legacy else None
        case Some(v) => provider.Answer(v)
    }

    /** The resolver agrees with what the log would answer now. */
    ghost predicate AnswersLike(keys: Resolver)
      reads this, provider, if provider == null then {} else {provider.client}
    {
      forall version :: keys(version) == KeyNow(version)
    }

    /** The keys behind the log are the ones issued, and the KMS answers. */
    ghost predicate InTouch(issued: Issued)
      reads this, provider, if provider == null then {} else {provider.client}
    {
      provider == null || (provider.client.issued == issued && provider.client.reachable)
    }

    /** While the KMS answers, the log resolves as its custody says. */
    lemma AnswersLikeCustody(issued: Issued)
      requires InTouch(issued)
      ensures AnswersLike(Keys(issued, CustodyNow()))
    {
    }

    method AppendEntry(kind: EventType, payload: Json, ts: string) returns (entry: AuditEntry)
      requires Valid()
      modifies this`entries
      ensures Valid()
      ensures LogState(entries, CustodyNow()) == Appended(crypto, LogState(old(entries), CustodyNow()), kind, payload, ts)
      ensures entries == old(entries) + [entry]
      ensures entry.no == |old(entries)| && entry.ts == ts && entry.kind == kind && entry.payload == payload
      ensures IsLinked(entries, |old(entries)|) && IsHashed(crypto, entry)
      ensures entry.keyVersion == (if provider == null then None else Some(provider.currentVersion))
      ensures entry.sig == crypto.mac(if provider == null then key else provider.cache[provider.currentVersion], entry.digest)
    {
      var no := |entries|;
      var prev := if no == 0 then GENESIS else entries[no - 1].digest;
      var digest := crypto.hash(Preimage(no, ts, kind, payload, prev));
      var material, version := key, None;
      if provider != null {
        var current := provider.Current();
        material, version := current.material, Some(current.version);
      }
      entry := AuditEntry(no, ts, kind, payload, prev, digest, crypto.mac(material, digest), version);
      entries := entries + [entry];
      LinkMeans(entries, no);
      PreimageMeans(entry);
    }

    /** The key to check one entry with; None when resolution throws. */
    method ResolveKey(version: Option<string>, ghost keys: Resolver) returns (material: Option<string>)
      requires Valid() && AnswersLike(keys)
      modifies if provider == null then {} else {provider}`cache
      ensures Valid() && AnswersLike(keys)
      ensures material == keys(version)
    {
      assert keys(version) == KeyNow(version);
      if provider == null {
        return Some(key);
      }
      match version {
        case None =>
          return if legacy.Some? && legacy.value != "" then legacy else None;
        case Some(v) =>
          var found := provider.Resolve(v);
          return match found { case None => None case Some(k) => Some(k.material) };
      }
    }

    method Check(e: AuditEntry, prevHash: string, ghost keys: Resolver) returns (why: Option<Why>)
      requires Valid() && AnswersLike(keys)
      modifies if provider == null then {} else {provider}`cache
      ensures Valid() && AnswersLike(keys)
      ensures why == Fault(crypto, keys, prevHash, e)
    {
      if e.prevHash != prevHash {
        return Some(BrokenLink);
      }
      if HashOf(crypto, e) != e.digest {
        return Some(ContentMismatch);
      }
      var found := ResolveKey(e.keyVersion, keys);
      if found.None? {
        return Some(KeyResolutionFailed);
      }
      if crypto.mac(found.value, e.digest) != e.sig {
        return Some(SignatureMismatch);
      }
      return None;
    }

    /** Recompute the whole chain. It is intact exactly when every entry is genuine: linked to the
     *  one before, hashed and signed. Otherwise the first entry that is not is reported, with
     *  the first test it fails. */
    method Verify(ghost keys: Resolver) returns (r: VerifyResult)
      requires Valid() && AnswersLike(keys)
      modifies if provider == null then {} else {provider}`cache
      ensures Valid() && AnswersLike(keys) && entries == old(entries)
      ensures r == Intact <==> Verifies(crypto, keys, entries)
      ensures r == Intact <==> AllGenuine(crypto, keys, entries, |entries|)
      ensures r.Broken? ==> exists i :: BreaksAt(crypto, keys, entries, i, r)
      ensures forall i, why :: 0 <= i < |entries| && AllGenuine(crypto, keys, entries, i) && FailsFor(crypto, keys, entries, i, why)
                ==> r == Broken(entries[i].no, why)
    {
      hide Fault, Log.AnswersLike, AllGenuine, FailsFor, BreaksAt, Verifies, SoundSoFar;
      VerifiesMeans(crypto, keys, entries);
      NothingChecked(crypto, keys, entries);
      var prevHash := GENESIS;
      for i := 0 to |entries|
        invariant Valid() && AnswersLike(keys) && entries == old(entries)
        invariant prevHash == LinkBefore(entries, i)
        invariant SoundSoFar(crypto, keys, entries, i)
      {
        var e := entries[i];
        var why := Check(e, prevHash, keys);
        if why.Some? {
          r := Broken(e.no, why.value);
          FirstBreak(crypto, keys, entries, i, r);
          return;
        }
        OneMoreSound(crypto, keys, entries, i);
        prevHash := e.digest;
      }
      r := Intact;
      AllSound(crypto, keys, entries);
      IntactMeans(crypto, keys, entries);
    }

    /** `verify` on a log in service: what a session of appends, rotations and restarts leaves
     *  behind is found intact as long as the KMS answers. */
    method VerifyInService(ghost issued: Issued, ghost base: string) returns (r: VerifyResult)
      requires Valid() && InTouch(issued)
      requires Inv(crypto, issued, base, LogState(entries, CustodyNow()))
      modifies if provider == null then {} else {provider}`cache
      ensures Valid() && entries == old(entries)
      ensures r == Intact
    {
      hide Inv, Verifies, Keys;
      FittingCustodyVerifies(crypto, issued, base, LogState(entries, CustodyNow()));
      AnswersLikeCustody(issued);
      ghost var keys := Keys(issued, CustodyNow());
      r := Verify(keys);
    }
  }
}
