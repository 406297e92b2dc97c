/** The parser undoes the printer exactly when no line before the fields can be taken for
 *  one of them. */
module SiwaLaws {
  import opened Prelude
  import opened Siwa

  // --- lines survive joining and splitting ---

  lemma {:induction false} SplitLine(line: string, rest: string)
    requires '\n' !in line
    ensures Split(line + "\n" + rest) == [line] + Split(rest)
  {
    var text := line + "\n" + rest;
    if line == "" {
      assert text[0] == '\n' && text[1..] == rest;
    } else {
      assert text[0] == line[0];
      assert text[1..] == line[1..] + "\n" + rest;
      SplitLine(line[1..], rest);
      assert [line[0]] + line[1..] == line;
    }
  }

  lemma {:induction false} SplitOne(line: string)
    requires '\n' !in line
    ensures Split(line) == [line]
  {
    if line != "" {
      SplitOne(line[1..]);
      assert [line[0]] + line[1..] == line;
    }
  }

  lemma {:induction false} SplitUndoesJoin(lines: seq<string>)
    requires lines != [] && forall i :: 0 <= i < |lines| ==> '\n' !in lines[i]
    ensures Split(JoinLines(lines)) == lines
  {
    if |lines| == 1 {
      SplitOne(lines[0]);
    } else {
      SplitUndoesJoin(lines[1..]);
      SplitLine(lines[0], JoinLines(lines[1..]));
    }
  }

  // --- which field a line carries ---

  /** Any two prefixes differ in their first, third or seventh character. */
  lemma PrefixMarks(j: Key, k: Key)
    requires j != k
    ensures |Prefix(j)| > 4 && |Prefix(k)| > 4
    ensures || Prefix(j)[0] != Prefix(k)[0]
            || Prefix(j)[2] != Prefix(k)[2]
            || (|Prefix(j)| > 6 && |Prefix(k)| > 6 && Prefix(j)[6] != Prefix(k)[6])
  {
  }

  lemma PrefixesDiffer(j: Key, k: Key, text: string)
    requires j != k
    ensures !StartsWith(Prefix(j) + text, Prefix(k))
  {
    PrefixMarks(j, k);
    hide Prefix;
    var p, q, line := Prefix(j), Prefix(k), Prefix(j) + text;
    assert forall i :: 0 <= i < |p| ==> line[i] == p[i];
    var taken := if |q| <= |line| then line[..|q|] else "";
    assert forall i :: 0 <= i < |taken| ==> taken[i] == line[i];
  }

  lemma OwnPrefix(k: Key, text: string)
    ensures StartsWith(Prefix(k) + text, Prefix(k)) && (Prefix(k) + text)[|Prefix(k)|..] == text
  {
  }

  /** The first entry with the key. */
  function Lookup(lines: seq<Line>, k: Key): Option<string> {
    if lines == [] then None else if lines[0].key == k then Some(lines[0].text) else Lookup(lines[1..], k)
  }

  /** Among printed fields, reading a key finds its first entry. */
  lemma {:induction false} FieldIsLookup(lines: seq<Line>, k: Key)
    ensures Field(Texts(lines), k) == Lookup(lines, k)
  {
    if lines != [] {
      hide Prefix, StartsWith;
      FieldIsLookup(lines[1..], k);
      if lines[0].key == k {
        OwnPrefix(k, lines[0].text);
      } else {
        PrefixesDiffer(lines[0].key, k, lines[0].text);
      }
      assert Texts(lines)[1..] == Texts(lines[1..]);
    }
  }

  lemma {:induction false} LookupConcat(xs: seq<Line>, ys: seq<Line>, k: Key)
    ensures Lookup(xs + ys, k) == if Lookup(xs, k).Some? then Lookup(xs, k) else Lookup(ys, k)
  {
    if xs == [] {
      assert xs + ys == ys;
    } else {
      LookupConcat(xs[1..], ys, k);
      assert (xs + ys)[1..] == xs[1..] + ys;
    }
  }

  lemma {:induction false} FieldConcat(xs: seq<string>, ys: seq<string>, k: Key)
    ensures Field(xs + ys, k) == if Field(xs, k).Some? then Field(xs, k) else Field(ys, k)
  {
    if xs == [] {
      assert xs + ys == ys;
    } else {
      FieldConcat(xs[1..], ys, k);
      assert (xs + ys)[1..] == xs[1..] + ys;
    }
  }

  /** The text a message gives to a field. */
  function Given(m: SiwaMessage, k: Key): Option<string> {
    match k
    case UriKey => Some(m.uri)
    case VersionKey => Some("1")
    case AgentIdKey => Some(m.agentId)
    case AgentRegistryKey => Some(m.agentRegistry)
    case ChainIdKey => Some(ChainText(m.chainId))
    case NonceKey => Some(m.nonce)
    case IssuedAtKey => Some(m.issuedAt)
    case ExpirationKey => m.expirationTime
    case NotBeforeKey => m.notBefore
    case RequestIdKey => m.requestId
  }

  lemma {:induction false} LookupAt(lines: seq<Line>, i: nat)
    requires i < |lines| && forall j :: 0 <= j < i ==> lines[j].key != lines[i].key
    ensures Lookup(lines, lines[i].key) == Some(lines[i].text)
  {
    if i > 0 {
      LookupAt(lines[1..], i - 1);
    }
  }

  lemma {:induction false} LookupNone(lines: seq<Line>, k: Key)
    requires forall j :: 0 <= j < |lines| ==> lines[j].key != k
    ensures Lookup(lines, k) == None
  {
    if lines != [] {
      LookupNone(lines[1..], k);
    }
  }

  predicate IsOptional(k: Key) {
    k.ExpirationKey? || k.NotBeforeKey? || k.RequestIdKey?
  }

  lemma RequiredGives(m: SiwaMessage, k: Key)
    ensures Lookup(RequiredLines(m), k) == if IsOptional(k) then None else Given(m, k)
  {
    var lines := RequiredLines(m);
    assert |lines| == 7;
    assert lines[0] == Line(UriKey, m.uri) && lines[1] == Line(VersionKey, "1");
    assert lines[2] == Line(AgentIdKey, m.agentId) && lines[3] == Line(AgentRegistryKey, m.agentRegistry);
    assert lines[4] == Line(ChainIdKey, ChainText(m.chainId)) && lines[5] == Line(NonceKey, m.nonce);
    assert lines[6] == Line(IssuedAtKey, m.issuedAt);
    hide RequiredLines, Lookup, ChainText;
    match k {
      case UriKey => LookupAt(lines, 0);
      case VersionKey => LookupAt(lines, 1);
      case AgentIdKey => LookupAt(lines, 2);
      case AgentRegistryKey => LookupAt(lines, 3);
      case ChainIdKey => LookupAt(lines, 4);
      case NonceKey => LookupAt(lines, 5);
      case IssuedAtKey => LookupAt(lines, 6);
      case _ => LookupNone(lines, k);
    }
  }

  lemma OptionalGives(m: SiwaMessage, k: Key)
    ensures Lookup(OptionalLines(m), k) == if IsOptional(k) then Given(m, k) else None
  {
    var a, b, c := OptionalLine(ExpirationKey, m.expirationTime), OptionalLine(NotBeforeKey, m.notBefore),
                   OptionalLine(RequestIdKey, m.requestId);
    LookupConcat(a + b, c, k);
    LookupConcat(a, b, k);
  }

  /** The fields of a printed message give back what was put in. */
  lemma BodyGives(m: SiwaMessage, k: Key)
    ensures Field(Texts(RequiredLines(m) + OptionalLines(m)), k) == Given(m, k)
  {
    hide RequiredLines, OptionalLines;
    FieldIsLookup(RequiredLines(m) + OptionalLines(m), k);
    LookupConcat(RequiredLines(m), OptionalLines(m), k);
    RequiredGives(m, k);
    OptionalGives(m, k);
  }

  // --- numbers ---

  lemma DigitReads(d: nat)
    requires d < 10
    ensures '0' <= "0123456789"[d] <= '9' && "0123456789"[d] as int - '0' as int == d
  {
  }

  lemma ValueAppend(s: string, c: char)
    requires AllDigits(s) && '0' <= c <= '9'
    ensures AllDigits(s + [c]) && Value(s + [c]) == 10 * Value(s) + (c as int - '0' as int)
  {
    assert (s + [c])[..|s|] == s;
  }

  lemma {:induction false} DigitsRead(n: nat)
    ensures Digits(n) != "" && AllDigits(Digits(n)) && Value(Digits(n)) == n
  {
    DigitReads(n % 10);
    if n >= 10 {
      DigitsRead(n / 10);
      ValueAppend(Digits(n / 10), "0123456789"[n % 10]);
    } else {
      ValueAppend("", "0123456789"[n]);
      assert "" + ["0123456789"[n]] == Digits(n);
    }
  }

  // --- the round trip ---

  /** What the field lines need: nothing in the message breaks a line. */
  predicate OnOneLineEach(m: SiwaMessage) {
    && OneLine(m.domain) && OneLine(m.address) && OneLine(m.uri) && OneLine(m.agentId) && OneLine(m.agentRegistry)
    && OneLine(m.nonce) && OneLine(m.issuedAt)
    && OneLine(m.expirationTime.GetOr("")) && OneLine(m.notBefore.GetOr("")) && OneLine(m.requestId.GetOr(""))
    && OneLine(m.statement.GetOr(""))
  }

  predicate Complete(m: SiwaMessage) {
    m.address != "" && m.uri != "" && m.agentId != "" && m.agentRegistry != "" && m.nonce != "" && m.issuedAt != ""
  }

  /** Reading `text` for a field gives the message's own value. */
  predicate Agrees(m: SiwaMessage, k: Key, text: string) {
    if k == ChainIdKey then text != "" && ToChainId(text) == m.chainId else Given(m, k) == Some(text)
  }

  /** No line before the fields is taken for a field, unless it happens to say the same; and
   *  the statement does not pass for the URI line. */
  ghost predicate Unshadowed(m: SiwaMessage) {
    && (forall k :: k != VersionKey && Field(Head(m), k).Some? ==> Agrees(m, k, Field(Head(m), k).value))
    && (m.statement.Some? ==> !StartsWith(m.statement.value, Prefix(UriKey)))
  }

  lemma HeaderReads(domain: string)
    requires OneLine(domain)
    ensures HeaderDomain(domain + HEADER) == Some(domain)
  {
    var header := domain + HEADER;
    assert header[|header| - |HEADER|..] == HEADER;
    assert header[..|header| - |HEADER|] == domain;
  }

  lemma FieldOfMessage(m: SiwaMessage, k: Key)
    ensures Field(Lines(m), k) == if Field(Head(m), k).Some? then Field(Head(m), k) else Given(m, k)
  {
    hide Head, RequiredLines, OptionalLines;
    FieldConcat(Head(m), Texts(RequiredLines(m) + OptionalLines(m)), k);
    BodyGives(m, k);
  }

  lemma FourthLine(m: SiwaMessage)
    ensures |Lines(m)| > 3 && Lines(m)[0] == m.domain + HEADER && Lines(m)[1] == m.address
    ensures m.statement.Some? ==> Lines(m)[3] == m.statement.value
    ensures m.statement.None? ==> StartsWith(Lines(m)[3], Prefix(UriKey))
  {
    var lines := RequiredLines(m) + OptionalLines(m);
    assert lines[0] == Line(UriKey, m.uri);
    assert Texts(lines)[0] == Prefix(UriKey) + m.uri;
    OwnPrefix(UriKey, m.uri);
  }

  lemma HeaderIsOneLine()
    ensures '\n' !in HEADER
  {
    assert '\n' !in "wants you to " && '\n' !in "sign in with your" && '\n' !in " Agent account:";
  }

  lemma PrefixIsOneLine(k: Key)
    ensures '\n' !in Prefix(k)
  {
  }

  lemma {:induction false} TextsOnOneLine(lines: seq<Line>)
    requires forall i :: 0 <= i < |lines| ==> '\n' !in lines[i].text
    ensures forall i :: 0 <= i < |Texts(lines)| ==> '\n' !in Texts(lines)[i]
  {
    if lines != [] {
      hide Prefix;
      TextsOnOneLine(lines[1..]);
      PrefixIsOneLine(lines[0].key);
    }
  }

  lemma LinesSurvive(m: SiwaMessage)
    requires OnOneLineEach(m) && m.chainId.Whole?
    ensures Split(JoinLines(Lines(m))) == Lines(m)
  {
    DigitsLine(m.chainId.n);
    var a, b, c := OptionalLine(ExpirationKey, m.expirationTime), OptionalLine(NotBeforeKey, m.notBefore),
                   OptionalLine(RequestIdKey, m.requestId);
    assert OptionalLines(m) == a + b + c;
    TextsOnOneLine(RequiredLines(m) + OptionalLines(m));
    HeaderIsOneLine();
    SplitUndoesJoin(Lines(m));
  }

  /** The field, as the parser reads it from the printed message. */
  lemma ReadsAgree(m: SiwaMessage, k: Key)
    requires Unshadowed(m) && k != VersionKey
    ensures k != ChainIdKey ==> Field(Lines(m), k) == Given(m, k)
    ensures k == ChainIdKey && m.chainId.Whole? ==>
              Field(Lines(m), k).GetOr("") != "" && ToChainId(Field(Lines(m), k).value) == m.chainId
  {
    FieldOfMessage(m, k);
    if k == ChainIdKey && m.chainId.Whole? {
      DigitsRead(m.chainId.n);
    }
  }

  lemma GoodMessageReturns(m: SiwaMessage)
    requires OnOneLineEach(m) && m.chainId.Whole? && Complete(m) && Unshadowed(m)
    ensures ParseLines(Lines(m)) == Ok(m)
  {
    hide Lines, Field, Head, HeaderDomain, StartsWith, ToChainId, Unshadowed, OnOneLineEach;
    OneLineDomain(m);
    HeaderReads(m.domain);
    FourthLine(m);
    StatementIsPlain(m);
    ReadsAgree(m, UriKey);
    ReadsAgree(m, AgentIdKey);
    ReadsAgree(m, AgentRegistryKey);
    ReadsAgree(m, ChainIdKey);
    ReadsAgree(m, NonceKey);
    ReadsAgree(m, IssuedAtKey);
    ReadsAgree(m, ExpirationKey);
    ReadsAgree(m, NotBeforeKey);
    ReadsAgree(m, RequestIdKey);
  }

  lemma OneLineDomain(m: SiwaMessage)
    requires OnOneLineEach(m)
    ensures OneLine(m.domain)
  {
  }

  lemma StatementIsPlain(m: SiwaMessage)
    requires Unshadowed(m)
    ensures m.statement.Some? ==> !StartsWith(m.statement.value, Prefix(UriKey))
  {
  }

  lemma ReturnedMessageIsGood(m: SiwaMessage)
    requires OnOneLineEach(m) && m.chainId.Whole? && ParseLines(Lines(m)) == Ok(m)
    ensures Complete(m) && Unshadowed(m)
  {
    hide Lines, Field, Head, HeaderDomain, StartsWith, ToChainId, OnOneLineEach;
    FourthLine(m);
    forall k | k != VersionKey && Field(Head(m), k).Some?
      ensures Agrees(m, k, Field(Head(m), k).value)
    {
      FieldOfMessage(m, k);
    }
  }

  /** Parsing undoes formatting exactly for the messages that are complete and unshadowed:
   *  for every combination of optional lines, and for all text without line breaks. */
  lemma RoundTripIff(m: SiwaMessage)
    requires OnOneLineEach(m) && m.chainId.Whole?
    ensures ParseText(JoinLines(Lines(m))) == Ok(m) <==> Complete(m) && Unshadowed(m)
  {
    LinesSurvive(m);
    if Complete(m) && Unshadowed(m) {
      GoodMessageReturns(m);
    }
    if ParseLines(Lines(m)) == Ok(m) {
      ReturnedMessageIsGood(m);
    }
  }

  /** No first line, address or statement that starts like a field: enough for anyone. */
  predicate PlainHead(m: SiwaMessage) {
    forall i, k :: 0 <= i < |Head(m)| && k != VersionKey ==> !StartsWith(Head(m)[i], Prefix(k))
  }

  lemma {:induction false} NoPrefixNoField(lines: seq<string>, k: Key)
    requires forall i :: 0 <= i < |lines| ==> !StartsWith(lines[i], Prefix(k))
    ensures Field(lines, k) == None
  {
    if lines != [] {
      NoPrefixNoField(lines[1..], k);
    }
  }

  lemma PlainMessagesReturn(m: SiwaMessage)
    requires OnOneLineEach(m) && m.chainId.Whole? && Complete(m) && PlainHead(m)
    ensures ParseText(JoinLines(Lines(m))) == Ok(m)
  {
    forall k | k != VersionKey
      ensures Field(Head(m), k) == None
    {
      NoPrefixNoField(Head(m), k);
    }
    if m.statement.Some? {
      assert Head(m)[3] == m.statement.value;
    }
    RoundTripIff(m);
  }

  /** A domain need not start with a whole prefix to be read as a field: the header line
   *  supplies the space. The domain "URI:" makes the parser report another URI. */
  lemma DomainCompletesPrefix(m: SiwaMessage)
    requires m.domain == "URI:" && OnOneLineEach(m) && m.chainId.Whole?
    requires m.uri != ASKS
    ensures !StartsWith(m.domain, Prefix(UriKey))
    ensures ParseText(JoinLines(Lines(m))) != Ok(m)
  {
    assert "URI:" + " " == Prefix(UriKey);
    assert m.domain + (" " + ASKS) == (m.domain + " ") + ASKS;
    OwnPrefix(UriKey, ASKS);
    HeadField(m, UriKey, ASKS);
    RoundTripIff(m);
  }

  lemma HeadField(m: SiwaMessage, k: Key, text: string)
    requires m.domain + HEADER == Prefix(k) + text
    ensures Field(Head(m), k) == Some(text)
  {
    hide Prefix;
    OwnPrefix(k, text);
    assert Head(m)[0] == Prefix(k) + text;
  }
}
