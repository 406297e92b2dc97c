/** Sign-In-With-Agent messages (src/identity/siwa.ts): the signing text and its parser. */
module Siwa {
  import opened Prelude

  /** A chain id as a number, or the text of anything else the parser is handed. */
  datatype ChainId = Whole(n: nat) | Other(text: string)

  datatype SiwaMessage = SiwaMessage(
    domain: string,
    address: string,
    uri: string,
    agentId: string,
    agentRegistry: string,
    chainId: ChainId,
    nonce: string,
    issuedAt: string,
    expirationTime: Option<string>,
    notBefore: Option<string>,
    requestId: Option<string>,
    statement: Option<string>)

  datatype Parsed = Ok(message: SiwaMessage) | MalformedHeader | MissingAddress | MissingField

  // --- lines ---

  function Split(text: string): (lines: seq<string>)
    ensures lines != []
  {
    if text == "" then [""]
    else
      var rest := Split(text[1..]);
      if text[0] == '\n' then [""] + rest else [[text[0]] + rest[0]] + rest[1..]
  }

  function JoinLines(lines: seq<string>): string {
    if lines == [] then "" else if |lines| == 1 then lines[0] else lines[0] + "\n" + JoinLines(lines[1..])
  }

  predicate StartsWith(line: string, prefix: string) {
    |prefix| <= |line| && line[..|prefix|] == prefix
  }

  // --- fields ---

  datatype Key =
    | UriKey | VersionKey | AgentIdKey | AgentRegistryKey | ChainIdKey
    | NonceKey | IssuedAtKey | ExpirationKey | NotBeforeKey | RequestIdKey

  function Prefix(k: Key): string {
    match k
    case UriKey => "URI: "
    case VersionKey => "Version: "
    case AgentIdKey => "Agent ID: "
    case AgentRegistryKey => "Agent Registry: "
    case ChainIdKey => "Chain ID: "
    case NonceKey => "Nonce: "
    case IssuedAtKey => "Issued At: "
    case ExpirationKey => "Expiration Time: "
    case NotBeforeKey => "Not Before: "
    case RequestIdKey => "Request ID: "
  }

  /** What follows the prefix on the first line that has it. */
  function Field(lines: seq<string>, k: Key): Option<string> {
    if lines == [] then None
    else if StartsWith(lines[0], Prefix(k)) then Some(lines[0][|Prefix(k)|..])
    else Field(lines[1..], k)
  }

  // --- numbers ---

  predicate AllDigits(s: string) {
    forall i :: 0 <= i < |s| ==> '0' <= s[i] <= '9'
  }

  function Value(s: string): nat
    requires AllDigits(s)
  {
    if s == "" then 0 else 10 * Value(s[..|s| - 1]) + (s[|s| - 1] as int - '0' as int)
  }

  function ToChainId(s: string): ChainId {
    if s != "" && AllDigits(s) then Whole(Value(s)) else Other(s)
  }

  function ChainText(c: ChainId): string {
    match c
    case Whole(n) => Digits(n)
    case Other(text) => text
  }

  // --- the message ---

  const ASKS: string := "wants you to sign in with your Agent account:"

  const HEADER: string := " " + ASKS

  datatype Line = Line(key: Key, text: string)

  function OptionalLine(k: Key, text: Option<string>): seq<Line> {
    match text
    case None => []
    case Some(t) => [Line(k, t)]
  }

  function RequiredLines(m: SiwaMessage): seq<Line> {
    [Line(UriKey, m.uri), Line(VersionKey, "1"), Line(AgentIdKey, m.agentId), Line(AgentRegistryKey, m.agentRegistry),
     Line(ChainIdKey, ChainText(m.chainId)), Line(NonceKey, m.nonce), Line(IssuedAtKey, m.issuedAt)]
  }

  function OptionalLines(m: SiwaMessage): seq<Line> {
    OptionalLine(ExpirationKey, m.expirationTime) + OptionalLine(NotBeforeKey, m.notBefore)
    + OptionalLine(RequestIdKey, m.requestId)
  }

  function Texts(lines: seq<Line>): seq<string> {
    if lines == [] then [] else [Prefix(lines[0].key) + lines[0].text] + Texts(lines[1..])
  }

  /** The lines before the fields. */
  function Head(m: SiwaMessage): seq<string> {
    [m.domain + HEADER, m.address, ""] + (if m.statement.Some? then [m.statement.value, ""] else [])
  }

  function Lines(m: SiwaMessage): seq<string> {
    Head(m) + Texts(RequiredLines(m) + OptionalLines(m))
  }

  /** The first group of /^(.*) wants you...:$/, whose dot stops at line terminators. */
  function HeaderDomain(header: string): Option<string> {
    if |header| < |HEADER| || header[|header| - |HEADER|..] != HEADER then None
    else
      var domain := header[..|header| - |HEADER|];
      if OneLine(domain) then Some(domain) else None
  }

  predicate OneLine(s: string) {
    '\n' !in s && '\r' !in s && '\U{2028}' !in s && '\U{2029}' !in s
  }

  function ParseLines(lines: seq<string>): Parsed
    requires lines != []
  {
    var domain := HeaderDomain(lines[0]);
    if domain.None? then MalformedHeader
    else if |lines| < 2 || lines[1] == "" then MissingAddress
    else
      var statement := if |lines| > 3 && !StartsWith(lines[3], Prefix(UriKey)) then Some(lines[3]) else None;
      var uri, agentId, agentRegistry := Field(lines, UriKey), Field(lines, AgentIdKey), Field(lines, AgentRegistryKey);
      var chainId, nonce, issuedAt := Field(lines, ChainIdKey), Field(lines, NonceKey), Field(lines, IssuedAtKey);
      if uri.GetOr("") == "" || agentId.GetOr("") == "" || agentRegistry.GetOr("") == "" || chainId.GetOr("") == ""
         || nonce.GetOr("") == "" || issuedAt.GetOr("") == ""
      then MissingField
      else
        Ok(SiwaMessage(domain.value, lines[1], uri.value, agentId.value, agentRegistry.value, ToChainId(chainId.value),
                       nonce.value, issuedAt.value, Field(lines, ExpirationKey), Field(lines, NotBeforeKey),
                       Field(lines, RequestIdKey), statement))
  }

  function ParseText(text: string): Parsed {
    ParseLines(Split(text))
  }

  // --- the program ---

  lemma RequiredTexts(m: SiwaMessage)
    ensures Texts(RequiredLines(m))
         == ["URI: " + m.uri, "Version: 1", "Agent ID: " + m.agentId, "Agent Registry: " + m.agentRegistry,
             "Chain ID: " + ChainText(m.chainId), "Nonce: " + m.nonce, "Issued At: " + m.issuedAt]
  {
    var lines := RequiredLines(m);
    assert |lines| == 7 && lines[0..] == lines;
    hide Texts;
    TextsFrom(lines, 0);
    TextsFrom(lines, 1);
    TextsFrom(lines, 2);
    TextsFrom(lines, 3);
    TextsFrom(lines, 4);
    TextsFrom(lines, 5);
    TextsFrom(lines, 6);
    TextsEnd(lines[7..]);
    assert "Version: " + "1" == "Version: 1";
  }

  lemma TextsEnd(lines: seq<Line>)
    requires lines == []
    ensures Texts(lines) == []
  {
  }

  lemma TextsFrom(lines: seq<Line>, i: nat)
    requires i < |lines|
    ensures Texts(lines[i..]) == [Prefix(lines[i].key) + lines[i].text] + Texts(lines[i + 1..])
  {
    assert lines[i..][1..] == lines[i + 1..];
  }

  method PushOptional(lines: seq<string>, k: Key, text: Option<string>, ghost before: seq<string>, ghost entries: seq<Line>)
    returns (more: seq<string>)
    requires lines == before + Texts(entries)
    ensures more == before + Texts(entries + OptionalLine(k, text))
  {
    more := lines;
    if text.Some? {
      TextsAppend(entries, Line(k, text.value));
      more := more + [Prefix(k) + text.value];
    } else {
      assert entries + [] == entries;
    }
  }

  method FormatSiwaMessage(m: SiwaMessage) returns (text: string)
    ensures text == JoinLines(Lines(m))
  {
    var lines := [m.domain + HEADER];
    lines := lines + [m.address];
    lines := lines + [""];
    if m.statement.Some? {
      lines := lines + [m.statement.value];
      lines := lines + [""];
    }
    assert lines == Head(m);
    ghost var before, entries := Head(m), RequiredLines(m);
    hide Head, RequiredLines, Texts, Prefix, OptionalLine;
    RequiredTexts(m);
    lines := lines + ["URI: " + m.uri];
    lines := lines + ["Version: 1"];
    lines := lines + ["Agent ID: " + m.agentId];
    lines := lines + ["Agent Registry: " + m.agentRegistry];
    lines := lines + ["Chain ID: " + ChainText(m.chainId)];
    lines := lines + ["Nonce: " + m.nonce];
    lines := lines + ["Issued At: " + m.issuedAt];
    assert lines == before + Texts(entries);
    lines := PushOptional(lines, ExpirationKey, m.expirationTime, before, entries);
    entries := entries + OptionalLine(ExpirationKey, m.expirationTime);
    lines := PushOptional(lines, NotBeforeKey, m.notBefore, before, entries);
    entries := entries + OptionalLine(NotBeforeKey, m.notBefore);
    lines := PushOptional(lines, RequestIdKey, m.requestId, before, entries);
    entries := entries + OptionalLine(RequestIdKey, m.requestId);
    assert entries == RequiredLines(m) + OptionalLines(m);
    text := JoinLines(lines);
  }

  lemma {:induction false} TextsAppend(lines: seq<Line>, l: Line)
    ensures Texts(lines + [l]) == Texts(lines) + [Prefix(l.key) + l.text]
  {
    if lines != [] {
      TextsAppend(lines[1..], l);
      assert (lines + [l])[1..] == lines[1..] + [l];
    }
  }

  /** The first line with the prefix wins. */
  method FindField(lines: seq<string>, k: Key) returns (found: Option<string>)
    ensures found == Field(lines, k)
  {
    for i := 0 to |lines|
      invariant Field(lines, k) == Field(lines[i..], k)
    {
      if StartsWith(lines[i], Prefix(k)) {
        return Some(lines[i][|Prefix(k)|..]);
      }
    }
    found := None;
  }

  method ParseSiwaMessage(text: string) returns (r: Parsed)
    ensures r == ParseText(text)
  {
    hide Field;
    var lines := Split(text);
    var domain := HeaderDomain(lines[0]);
    if domain.None? {
      return MalformedHeader;
    }
    var address := if |lines| > 1 then lines[1] else "";
    if address == "" {
      return MissingAddress;
    }
    var statement: Option<string> := None;
    if |lines| > 3 && !StartsWith(lines[3], "URI: ") {
      statement := Some(lines[3]);
    }
    var uri := FindField(lines, UriKey);
    var agentId := FindField(lines, AgentIdKey);
    var agentRegistry := FindField(lines, AgentRegistryKey);
    var chainId := FindField(lines, ChainIdKey);
    var nonce := FindField(lines, NonceKey);
    var issuedAt := FindField(lines, IssuedAtKey);
    if uri.GetOr("") == "" || agentId.GetOr("") == "" || agentRegistry.GetOr("") == "" || chainId.GetOr("") == ""
       || nonce.GetOr("") == "" || issuedAt.GetOr("") == "" {
      return MissingField;
    }
    var expirationTime := FindField(lines, ExpirationKey);
    var notBefore := FindField(lines, NotBeforeKey);
    var requestId := FindField(lines, RequestIdKey);
    r := Ok(SiwaMessage(domain.value, address, uri.value, agentId.value, agentRegistry.value, ToChainId(chainId.value),
                        nonce.value, issuedAt.value, expirationTime, notBefore, requestId, statement));
  }
}
