/** Canonical JSON: the text an audit entry's payload is hashed as (src/core/audit.ts).
 *
 *  A value is a tree whose objects list their members in some order, with distinct keys.
 *  Its meaning forgets the order and what JSON cannot carry; two values get the same
 *  text exactly when they mean the same. */
module CanonicalJson {
  import opened Prelude

  predicate NumeralChar(c: char) {
    '0' <= c <= '9' || c == '-' || c == '+' || c == '.' || c == 'e'
  }

  predicate IsNumeral(s: string) {
    s != "" && (s[0] == '-' || '0' <= s[0] <= '9') && forall i :: 0 <= i < |s| ==> NumeralChar(s[i])
  }

  /** The text of a finite number. */
  type Numeral = s: string | IsNumeral(s) witness "0"

  datatype Entry<T> = Entry(key: string, value: T)

  /** `Absent` stands for undefined, functions and symbols; `NotFinite` for the numbers
   *  without a JSON text. */
  datatype Json =
    | Null
    | Bool(bit: bool)
    | Num(numeral: Numeral)
    | NotFinite
    | Str(text: string)
    | Arr(items: seq<Json>)
    | Obj(members: seq<Entry<Json>>)
    | Absent

  // --- text ---

  function HexDigit(n: nat): char
    requires n < 16
  {
    "0123456789abcdef"[n]
  }

  function Escaped(c: char): string {
    if c == '\"' then "\\\""
    else if c == '\\' then "\\\\"
    else if c == '\n' then "\\n"
    else if c == '\r' then "\\r"
    else if c == '\t' then "\\t"
    else if c as int == 8 then "\\b"
    else if c as int == 12 then "\\f"
    else if (c as int) < 32 then ['\\', 'u', '0', '0', HexDigit(c as int / 16), HexDigit(c as int % 16)]
    else [c]
  }

  function Body(s: string): string {
    if s == "" then "" else Escaped(s[0]) + Body(s[1..])
  }

  function Quote(s: string): string {
    "\"" + Body(s) + "\""
  }

  function Join(parts: seq<string>): string {
    if parts == [] then ""
    else if |parts| == 1 then parts[0]
    else parts[0] + "," + Join(parts[1..])
  }

  function Pairs(es: seq<Entry<string>>): seq<string> {
    if es == [] then [] else [Quote(es[0].key) + ":" + es[0].value] + Pairs(es[1..])
  }

  // --- sorting members by key ---

  function Insert<T>(x: Entry<T>, sorted: seq<Entry<T>>): seq<Entry<T>> {
    if sorted == [] || !StringLess(sorted[0].key, x.key) then [x] + sorted
    else [sorted[0]] + Insert(x, sorted[1..])
  }

  function Sort<T>(es: seq<Entry<T>>): seq<Entry<T>> {
    if es == [] then [] else Insert(es[0], Sort(es[1..]))
  }

  // --- the canonical text ---

  function Canonicalize(v: Json): string
    decreases v
  {
    match v
    case Null => "null"
    case Bool(b) => if b then "true" else "false"
    case Num(t) => t
    case NotFinite => "null"
    case Absent => "null"
    case Str(s) => Quote(s)
    case Arr(items) => "[" + Join(Texts(items)) + "]"
    case Obj(members) => "{" + Join(Pairs(Sort(MemberTexts(members)))) + "}"
  }

  function Texts(items: seq<Json>): seq<string>
    decreases items
  {
    if items == [] then [] else [Canonicalize(items[0])] + Texts(items[1..])
  }

  function MemberTexts(members: seq<Entry<Json>>): seq<Entry<string>>
    decreases members
  {
    if members == [] then []
    else
      var m := members[0];
      (if m.value.Absent? then [] else [Entry(m.key, Canonicalize(m.value))]) + MemberTexts(members[1..])
  }

  // --- the meaning ---

  datatype Tree =
    | NullTree
    | BoolTree(bit: bool)
    | NumTree(numeral: Numeral)
    | StrTree(text: string)
    | ArrTree(items: seq<Tree>)
    | ObjTree(members: map<string, Tree>)

  function Meaning(v: Json): Tree
    decreases v
  {
    match v
    case Null => NullTree
    case Bool(b) => BoolTree(b)
    case Num(t) => NumTree(t)
    case NotFinite => NullTree
    case Absent => NullTree
    case Str(s) => StrTree(s)
    case Arr(items) => ArrTree(Meanings(items))
    case Obj(members) => ObjTree(Fields(members))
  }

  function Meanings(items: seq<Json>): seq<Tree>
    decreases items
  {
    if items == [] then [] else [Meaning(items[0])] + Meanings(items[1..])
  }

  function Fields(members: seq<Entry<Json>>): map<string, Tree>
    decreases members
  {
    if members == [] then map[]
    else if members[0].value.Absent? then Fields(members[1..])
    else Fields(members[1..])[members[0].key := Meaning(members[0].value)]
  }

  predicate FreshKey<T>(key: string, es: seq<Entry<T>>) {
    forall i :: 0 <= i < |es| ==> es[i].key != key
  }

  /** Objects have distinct keys, all the way down. */
  predicate Wf(v: Json)
    decreases v
  {
    match v
    case Arr(items) => AllWf(items)
    case Obj(members) => MembersWf(members)
    case _ => true
  }

  predicate AllWf(items: seq<Json>)
    decreases items
  {
    items == [] || (Wf(items[0]) && AllWf(items[1..]))
  }

  predicate MembersWf(members: seq<Entry<Json>>)
    decreases members
  {
    members == []
    || (FreshKey(members[0].key, members[1..]) && Wf(members[0].value) && MembersWf(members[1..]))
  }
}
