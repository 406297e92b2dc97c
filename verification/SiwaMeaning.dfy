/** The signing text line by line, and what the parser makes of any text
 *  (src/identity/siwa.ts:32-105). */
module SiwaMeaning {
  import opened Prelude
  import opened Siwa

  // --- the text ---

  function LineFor(name: string, text: Option<string>): seq<string> {
    if text.Some? then [name + text.value] else []
  }

  lemma {:induction false} TextsConcat(xs: seq<Line>, ys: seq<Line>)
    ensures Texts(xs + ys) == Texts(xs) + Texts(ys)
  {
    hide Prefix;
    if xs == [] {
      assert xs + ys == ys;
    } else {
      TextsConcat(xs[1..], ys);
      assert (xs + ys)[1..] == xs[1..] + ys;
      assert Texts(xs + ys) == [Prefix(xs[0].key) + xs[0].text] + Texts(xs[1..] + ys);
    }
  }

  lemma OneText(k: Key, text: Option<string>)
    ensures Texts(OptionalLine(k, text)) == LineFor(Prefix(k), text)
  {
  }

  lemma OptionalTexts(m: SiwaMessage)
    ensures Texts(OptionalLines(m)) ==
            LineFor("Expiration Time: ", m.expirationTime) + LineFor("Not Before: ", m.notBefore) + LineFor("Request ID: ", m.requestId)
  {
    OneText(ExpirationKey, m.expirationTime);
    OneText(NotBeforeKey, m.notBefore);
    OneText(RequestIdKey, m.requestId);
    hide Texts, OptionalLine;
    var a, b := OptionalLine(ExpirationKey, m.expirationTime), OptionalLine(NotBeforeKey, m.notBefore);
    TextsConcat(a, b);
    TextsConcat(a + b, OptionalLine(RequestIdKey, m.requestId));
  }

  const TITLE: string := " " + "wants you to sign in with your Agent account:"

  lemma HeaderIsTitle()
    ensures HEADER == TITLE
  {
  }

  /** The signing text, line by line. */
  lemma LinesMean(m: SiwaMessage)
    ensures Lines(m) ==
            [m.domain + TITLE, m.address, ""]
            + (if m.statement.Some? then [m.statement.value, ""] else [])
            + ["URI: " + m.uri, "Version: 1", "Agent ID: " + m.agentId, "Agent Registry: " + m.agentRegistry,
               "Chain ID: " + ChainText(m.chainId), "Nonce: " + m.nonce, "Issued At: " + m.issuedAt]
            + LineFor("Expiration Time: ", m.expirationTime) + LineFor("Not Before: ", m.notBefore) + LineFor("Request ID: ", m.requestId)
  {
    HeaderIsTitle();
    RequiredTexts(m);
    OptionalTexts(m);
    TextsConcat(RequiredLines(m), OptionalLines(m));
    hide Texts, RequiredLines, OptionalLines, ChainText, LineFor;
  }

  /** Lines are joined by line breaks. */
  lemma JoinMeans(a: string, b: string, rest: seq<string>)
    ensures JoinLines([a]) == a && JoinLines([a, b] + rest) == a + "\n" + JoinLines([b] + rest)
  {
    assert ([a, b] + rest)[1..] == [b] + rest;
  }

  // --- the parser ---

  /** Not one of the characters that end a line for a regular expression. */
  predicate InOneLine(s: string) {
    forall i :: 0 <= i < |s| ==> s[i] != '\n' && s[i] != '\r' && s[i] != '\U{2028}' && s[i] != '\U{2029}'
  }

  lemma TitleMeans(line: string, domain: string)
    ensures HeaderDomain(line) == Some(domain) <==> line == domain + TITLE && InOneLine(domain)
  {
    HeaderIsTitle();
    hide HEADER;
    if line == domain + TITLE {
      assert |line| - |TITLE| == |domain|;
      assert line[|domain|..] == TITLE && line[..|domain|] == domain;
    }
    if |line| >= |TITLE| && line[|line| - |TITLE|..] == TITLE {
      assert line == line[..|line| - |TITLE|] + TITLE;
    }
  }

  /** The first line that starts with the name. */
  predicate IsFirst(lines: seq<string>, name: string, i: nat) {
    && i < |lines| && name <= lines[i]
    && forall j :: 0 <= j < i ==> !(name <= lines[j])
  }

  lemma {:induction false} FieldMeans(lines: seq<string>, k: Key)
    ensures Field(lines, k).None? <==> forall i :: 0 <= i < |lines| ==> !(Prefix(k) <= lines[i])
    ensures forall i: nat :: IsFirst(lines, Prefix(k), i) ==> Field(lines, k) == Some(lines[i][|Prefix(k)|..])
  {
    hide Prefix;
    if lines != [] && !StartsWith(lines[0], Prefix(k)) {
      FieldMeans(lines[1..], k);
      forall i: nat | IsFirst(lines, Prefix(k), i)
        ensures i > 0 && IsFirst(lines[1..], Prefix(k), i - 1) && lines[1..][i - 1] == lines[i]
      {
      }
    }
  }

  predicate IsMissing(field: Option<string>) {
    field.None? || field.value == ""
  }

  predicate LacksField(lines: seq<string>) {
    || IsMissing(Field(lines, UriKey)) || IsMissing(Field(lines, AgentIdKey)) || IsMissing(Field(lines, AgentRegistryKey))
    || IsMissing(Field(lines, ChainIdKey)) || IsMissing(Field(lines, NonceKey)) || IsMissing(Field(lines, IssuedAtKey))
  }

  predicate HasTitle(line: string) {
    exists n :: 0 <= n <= |line| && line[n..] == TITLE && InOneLine(line[..n])
  }

  lemma TitleFound(line: string)
    ensures HeaderDomain(line).Some? <==> HasTitle(line)
  {
    if HeaderDomain(line).Some? {
      TitleMeans(line, HeaderDomain(line).value);
      var n := |HeaderDomain(line).value|;
      assert line[n..] == TITLE && line[..n] == HeaderDomain(line).value;
    }
    if n :| 0 <= n <= |line| && line[n..] == TITLE && InOneLine(line[..n]) {
      assert line == line[..n] + line[n..];
      TitleMeans(line, line[..n]);
    }
  }

  /** What is read from a text with everything in place. */
  predicate IsRead(lines: seq<string>, m: SiwaMessage)
    requires |lines| > 1
  {
    && lines[0] == m.domain + TITLE && lines[1] == m.address
    && Field(lines, UriKey) == Some(m.uri) && Field(lines, AgentIdKey) == Some(m.agentId)
    && Field(lines, AgentRegistryKey) == Some(m.agentRegistry) && Field(lines, NonceKey) == Some(m.nonce)
    && Field(lines, IssuedAtKey) == Some(m.issuedAt)
    && Field(lines, ChainIdKey).Some? && m.chainId == ToChainId(Field(lines, ChainIdKey).value)
    && m.expirationTime == Field(lines, ExpirationKey) && m.notBefore == Field(lines, NotBeforeKey)
    && m.requestId == Field(lines, RequestIdKey)
    && m.statement == (if |lines| >= 4 && !("URI: " <= lines[3]) then Some(lines[3]) else None)
  }

  lemma ErrorsMean(lines: seq<string>)
    requires lines != []
    ensures ParseLines(lines) == MalformedHeader <==> HeaderDomain(lines[0]).None?
    ensures ParseLines(lines) == MissingAddress <==> HeaderDomain(lines[0]).Some? && (|lines| == 1 || lines[1] == "")
    ensures ParseLines(lines) == MissingField <==> HeaderDomain(lines[0]).Some? && |lines| > 1 && lines[1] != "" && LacksField(lines)
  {
    hide HeaderDomain, Field, Prefix, ToChainId, StartsWith;
  }

  lemma MessageMeans(lines: seq<string>)
    requires lines != [] && ParseLines(lines).Ok?
    ensures |lines| > 1 && IsRead(lines, ParseLines(lines).message)
  {
    TitleMeans(lines[0], HeaderDomain(lines[0]).value);
    assert Prefix(UriKey) == "URI: ";
    hide HeaderDomain, Field, Prefix, ToChainId, InOneLine;
  }

  /** THE PARSER: the title line, then the address, then the required fields, in that order; and
   *  from a text with all of them the fields' first lines, with the fourth line for a statement
   *  unless it is the URI's. */
  lemma ParseMeans(lines: seq<string>)
    requires lines != []
    ensures ParseLines(lines) == MalformedHeader <==> !HasTitle(lines[0])
    ensures ParseLines(lines) == MissingAddress <==> HasTitle(lines[0]) && (|lines| == 1 || lines[1] == "")
    ensures ParseLines(lines) == MissingField <==> HasTitle(lines[0]) && |lines| > 1 && lines[1] != "" && LacksField(lines)
    ensures HasTitle(lines[0]) && |lines| > 1 && lines[1] != "" && !LacksField(lines) ==>
              ParseLines(lines).Ok? && IsRead(lines, ParseLines(lines).message)
  {
    TitleFound(lines[0]);
    ErrorsMean(lines);
    if ParseLines(lines).Ok? {
      MessageMeans(lines);
    }
    hide ParseLines, HasTitle, LacksField, IsRead;
  }

  /** A chain id is a number when it is one or more decimal digits, and kept as text otherwise. */
  lemma ChainIdMeans(text: string, n: nat)
    requires text != ""
    ensures ToChainId(text) == Whole(n) ==> forall i :: 0 <= i < |text| ==> '0' <= text[i] <= '9'
    ensures (exists i :: 0 <= i < |text| && !('0' <= text[i] <= '9')) ==> ToChainId(text) == Other(text)
    ensures (forall i :: 0 <= i < |text| ==> '0' <= text[i] <= '9') ==> ToChainId(text) == Whole(Value(text))
  {
  }
}
