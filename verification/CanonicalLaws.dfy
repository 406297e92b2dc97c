/** The canonical text determines the value up to meaning, and nothing more. */
module CanonicalLaws {
  import opened Prelude
  import opened CanonicalJson

  // --- normal forms ---

  /** What persistence leaves of a value, with members sorted by key. */
  function Norm(v: Json): Json
    decreases v
  {
    match v
    case NotFinite => Null
    case Absent => Null
    case Arr(items) => Arr(Norms(items))
    case Obj(members) => Obj(Sort(Kept(members)))
    case _ => v
  }

  function Norms(items: seq<Json>): seq<Json>
    decreases items
  {
    if items == [] then [] else [Norm(items[0])] + Norms(items[1..])
  }

  function Kept(members: seq<Entry<Json>>): seq<Entry<Json>>
    decreases members
  {
    if members == [] then []
    else
      var m := members[0];
      (if m.value.Absent? then [] else [Entry(m.key, Norm(m.value))]) + Kept(members[1..])
  }

  /** Keys strictly increase. */
  predicate Ascending<T>(es: seq<Entry<T>>) {
    forall i, j :: 0 <= i < j < |es| ==> StringLess(es[i].key, es[j].key)
  }

  predicate IsNormal(v: Json)
    decreases v
  {
    match v
    case NotFinite => false
    case Absent => false
    case Arr(items) => AllNormal(items)
    case Obj(members) => Ascending(members) && MembersNormal(members)
    case _ => true
  }

  predicate AllNormal(items: seq<Json>)
    decreases items
  {
    items == [] || (IsNormal(items[0]) && AllNormal(items[1..]))
  }

  predicate MembersNormal(members: seq<Entry<Json>>)
    decreases members
  {
    members == [] || (IsNormal(members[0].value) && MembersNormal(members[1..]))
  }

  /** A normal form, printed as it stands. */
  function Print(v: Json): string
    decreases v
  {
    match v
    case Null => "null"
    case Bool(b) => if b then "true" else "false"
    case Num(t) => t
    case NotFinite => "null"
    case Absent => "null"
    case Str(s) => Quote(s)
    case Arr(items) => "[" + Join(Prints(items)) + "]"
    case Obj(members) => "{" + Join(Pairs(MemberPrints(members))) + "}"
  }

  function Prints(items: seq<Json>): seq<string>
    decreases items
  {
    if items == [] then [] else [Print(items[0])] + Prints(items[1..])
  }

  function MemberPrints(members: seq<Entry<Json>>): seq<Entry<string>>
    decreases members
  {
    if members == [] then [] else [Entry(members[0].key, Print(members[0].value))] + MemberPrints(members[1..])
  }

  // --- canonicalizing is normalizing, then printing ---

  lemma {:induction false} InsertPrints(x: Entry<Json>, sorted: seq<Entry<Json>>)
    ensures MemberPrints(Insert(x, sorted)) == Insert(Entry(x.key, Print(x.value)), MemberPrints(sorted))
    decreases |sorted|
  {
    if sorted != [] && StringLess(sorted[0].key, x.key) {
      InsertPrints(x, sorted[1..]);
      assert Insert(x, sorted)[1..] == Insert(x, sorted[1..]);
    } else {
      assert ([x] + sorted)[1..] == sorted;
    }
  }

  lemma {:induction false} SortPrints(es: seq<Entry<Json>>)
    ensures MemberPrints(Sort(es)) == Sort(MemberPrints(es))
    decreases |es|
  {
    if es != [] {
      SortPrints(es[1..]);
      InsertPrints(es[0], Sort(es[1..]));
      assert MemberPrints(es)[1..] == MemberPrints(es[1..]);
    }
  }

  lemma {:induction false} CanonicalizePrintsNorm(v: Json)
    ensures Canonicalize(v) == Print(Norm(v))
    decreases v
  {
    match v {
      case Arr(items) => TextsPrintNorms(items);
      case Obj(members) =>
        MembersPrintKept(members);
        SortPrints(Kept(members));
      case _ =>
    }
  }

  lemma {:induction false} TextsPrintNorms(items: seq<Json>)
    ensures Texts(items) == Prints(Norms(items))
    decreases items
  {
    if items != [] {
      CanonicalizePrintsNorm(items[0]);
      TextsPrintNorms(items[1..]);
      assert Norms(items)[1..] == Norms(items[1..]);
    }
  }

  lemma {:induction false} MembersPrintKept(members: seq<Entry<Json>>)
    ensures MemberTexts(members) == MemberPrints(Kept(members))
    decreases members
  {
    if members != [] {
      MembersPrintKept(members[1..]);
      if !members[0].value.Absent? {
        CanonicalizePrintsNorm(members[0].value);
        assert Kept(members)[1..] == Kept(members[1..]);
      } else {
        assert [] + Kept(members[1..]) == Kept(members[1..]);
      }
    }
  }

  // --- printing, with what follows passed along ---

  function ShowBody(s: string, rest: string): string {
    if s == "" then "\"" + rest else Escaped(s[0]) + ShowBody(s[1..], rest)
  }

  function ShowQuoted(s: string, rest: string): string {
    "\"" + ShowBody(s, rest)
  }

  function Show(v: Json, rest: string): string
    decreases v
  {
    match v
    case Null => "null" + rest
    case Bool(b) => (if b then "true" else "false") + rest
    case Num(t) => t + rest
    case NotFinite => "null" + rest
    case Absent => "null" + rest
    case Str(s) => ShowQuoted(s, rest)
    case Arr(items) => "[" + ShowItems(items, "]" + rest)
    case Obj(members) => "{" + ShowMembers(members, "}" + rest)
  }

  function ShowItems(items: seq<Json>, rest: string): string
    decreases items
  {
    if items == [] then rest else Show(items[0], ShowLater(items[1..], rest))
  }

  function ShowLater(items: seq<Json>, rest: string): string
    decreases items
  {
    if items == [] then rest else "," + Show(items[0], ShowLater(items[1..], rest))
  }

  function ShowMembers(members: seq<Entry<Json>>, rest: string): string
    decreases members
  {
    if members == [] then rest
    else ShowQuoted(members[0].key, ":" + Show(members[0].value, ShowLaterMembers(members[1..], rest)))
  }

  function ShowLaterMembers(members: seq<Entry<Json>>, rest: string): string
    decreases members
  {
    if members == [] then rest
    else "," + ShowQuoted(members[0].key, ":" + Show(members[0].value, ShowLaterMembers(members[1..], rest)))
  }

  lemma Assoc(a: string, b: string, c: string)
    ensures a + b + c == a + (b + c)
  {
  }

  lemma {:induction false} BodyShows(s: string, rest: string)
    ensures Body(s) + "\"" + rest == ShowBody(s, rest)
  {
    if s == "" {
      assert "" + "\"" + rest == "\"" + rest;
    } else {
      BodyShows(s[1..], rest);
      Assoc(Escaped(s[0]), Body(s[1..]), "\"");
      Assoc(Escaped(s[0]), Body(s[1..]) + "\"", rest);
    }
  }

  lemma QuoteShows(s: string, rest: string)
    ensures Quote(s) + rest == ShowQuoted(s, rest)
  {
    BodyShows(s, rest);
    Assoc("\"", Body(s), "\"");
    Assoc("\"", Body(s) + "\"", rest);
  }

  /** Every part after the first, with its comma. */
  function Commas(parts: seq<string>): string {
    if parts == [] then "" else "," + parts[0] + Commas(parts[1..])
  }

  lemma {:induction false} JoinCommas(parts: seq<string>)
    requires parts != []
    ensures Join(parts) == parts[0] + Commas(parts[1..])
  {
    if |parts| > 1 {
      JoinCommas(parts[1..]);
      Assoc(parts[0], ",", Join(parts[1..]));
      Assoc(",", parts[1], Commas(parts[1..][1..]));
    } else {
      assert parts[0] + "" == parts[0];
    }
  }

  lemma {:induction false} PrintShows(v: Json, rest: string)
    ensures Print(v) + rest == Show(v, rest)
    decreases v
  {
    match v {
      case Str(s) => QuoteShows(s, rest);
      case Arr(items) =>
        ItemsShow(items, "]" + rest);
        Assoc("[", Join(Prints(items)), "]");
        Assoc("[" , Join(Prints(items)) + "]", rest);
        Assoc(Join(Prints(items)), "]", rest);
      case Obj(members) =>
        MembersShow(members, "}" + rest);
        Assoc("{", Join(Pairs(MemberPrints(members))), "}");
        Assoc("{" , Join(Pairs(MemberPrints(members))) + "}", rest);
        Assoc(Join(Pairs(MemberPrints(members))), "}", rest);
      case _ =>
    }
  }

  lemma {:induction false} ItemsShow(items: seq<Json>, rest: string)
    ensures Join(Prints(items)) + rest == ShowItems(items, rest)
    ensures Commas(Prints(items)) + rest == ShowLater(items, rest)
    decreases items
  {
    if items == [] {
      assert "" + rest == rest;
    } else {
      var later := Commas(Prints(items[1..]));
      JoinCommas(Prints(items));
      ItemsShow(items[1..], rest);
      PrintShows(items[0], later + rest);
      Assoc(Print(items[0]), later, rest);
      Assoc(",", Print(items[0]), later);
      Assoc(",", Print(items[0]) + later, rest);
    }
  }

  lemma {:induction false} MembersShow(members: seq<Entry<Json>>, rest: string)
    ensures Join(Pairs(MemberPrints(members))) + rest == ShowMembers(members, rest)
    ensures Commas(Pairs(MemberPrints(members))) + rest == ShowLaterMembers(members, rest)
    decreases members
  {
    if members == [] {
      assert "" + rest == rest;
    } else {
      var m := members[0];
      var later := Commas(Pairs(MemberPrints(members[1..])));
      var pair := Quote(m.key) + ":" + Print(m.value);
      JoinCommas(Pairs(MemberPrints(members)));
      MembersShow(members[1..], rest);
      PrintShows(m.value, later + rest);
      QuoteShows(m.key, ":" + (Print(m.value) + (later + rest)));
      Assoc(Quote(m.key), ":", Print(m.value));
      Assoc(Quote(m.key), ":" + Print(m.value), later + rest);
      Assoc(":", Print(m.value), later + rest);
      Assoc(pair, later, rest);
      Assoc(",", pair, later);
      Assoc(",", pair + later, rest);
    }
  }

  // --- printing is injective ---

  /** What may follow a value inside a text. */
  predicate Ends(x: string) {
    x == "" || x[0] == ',' || x[0] == ']' || x[0] == '}'
  }

  lemma DropHead(head: char, x: string, y: string)
    requires [head] + x == [head] + y
    ensures x == y
  {
    assert x == ([head] + x)[1..] && y == ([head] + y)[1..];
  }

  lemma DropSame(head: string, x: string, y: string)
    requires head + x == head + y
    ensures x == y
  {
    assert x == (head + x)[|head|..] && y == (head + y)[|head|..];
  }

  lemma NumeralStops(a: string, b: string, x: string, y: string)
    requires forall i :: 0 <= i < |b| ==> NumeralChar(b[i])
    requires Ends(x) && a + x == b + y
    ensures |b| <= |a|
  {
    assert forall i :: 0 <= i < |b| ==> (b + y)[i] == b[i];
    if x != "" {
      assert (a + x)[|a|] == x[0];
    }
  }

  lemma NumeralCut(a: string, b: string, x: string, y: string)
    requires forall i :: 0 <= i < |a| ==> NumeralChar(a[i])
    requires forall i :: 0 <= i < |b| ==> NumeralChar(b[i])
    requires Ends(x) && Ends(y) && a + x == b + y
    ensures a == b && x == y
  {
    NumeralStops(a, b, x, y);
    NumeralStops(b, a, y, x);
    assert a == (a + x)[..|a|] && b == (b + y)[..|b|];
    DropSame(a, x, y);
  }

  function HexValue(c: char): int {
    if '0' <= c <= '9' then c as int - '0' as int else c as int - 'a' as int + 10
  }

  /** Where an escape ends, and the character it stands for. */
  function EscapeLength(text: string): nat
    requires |text| > 0
  {
    if text[0] != '\\' || |text| < 2 then 1 else if text[1] == 'u' then 6 else 2
  }

  function Unescaped(e: string): int
    requires |e| == 1 || |e| == 2 || |e| == 6
  {
    if |e| == 1 then e[0] as int
    else if |e| == 6 then 16 * HexValue(e[4]) + HexValue(e[5])
    else
      match e[1]
      case 'n' => 10
      case 'r' => 13
      case 't' => 9
      case 'b' => 8
      case 'f' => 12
      case other => other as int
  }

  lemma EscapeInverts(c: char, x: string)
    ensures |Escaped(c)| in {1, 2, 6} && Unescaped(Escaped(c)) == c as int
    ensures EscapeLength(Escaped(c) + x) == |Escaped(c)|
  {
    var e := Escaped(c);
    assert |e| == 1 || |e| == 2 || |e| == 6;
    assert e[0] == '\\' <==> |e| > 1;
    assert |e| > 1 ==> (e[1] == 'u' <==> |e| == 6);
    assert |e| == 6 ==> 16 * HexValue(e[4]) + HexValue(e[5]) == c as int;
    assert Unescaped(e) == c as int;
    hide Escaped, HexValue, Unescaped;
    assert |e + x| >= |e| && (e + x)[0] == e[0] && (|e| > 1 ==> (e + x)[1] == e[1]);
  }

  lemma EscapedCut(c: char, d: char, x: string, y: string)
    requires Escaped(c) + x == Escaped(d) + y
    ensures c == d && x == y
  {
    EscapeInverts(c, x);
    EscapeInverts(d, y);
    hide Escaped, Unescaped, EscapeLength;
    var e, f := Escaped(c), Escaped(d);
    assert e == (e + x)[..|e|] && f == (f + y)[..|f|];
    DropSame(e, x, y);
  }

  lemma EscapedIsNotQuote(c: char, x: string)
    ensures Escaped(c) + x != "" && (Escaped(c) + x)[0] != '\"'
  {
  }

  lemma {:induction false} BodyCut(s: string, t: string, x: string, y: string)
    requires ShowBody(s, x) == ShowBody(t, y)
    ensures s == t && x == y
  {
    hide Escaped;
    if s != "" {
      EscapedIsNotQuote(s[0], ShowBody(s[1..], x));
    }
    if t != "" {
      EscapedIsNotQuote(t[0], ShowBody(t[1..], y));
    }
    if s == "" && t == "" {
      DropHead('\"', x, y);
    } else if s != "" && t != "" {
      EscapedCut(s[0], t[0], ShowBody(s[1..], x), ShowBody(t[1..], y));
      BodyCut(s[1..], t[1..], x, y);
      assert s == [s[0]] + s[1..] && t == [t[0]] + t[1..];
    }
  }

  lemma QuoteCut(s: string, t: string, x: string, y: string)
    requires ShowQuoted(s, x) == ShowQuoted(t, y)
    ensures s == t && x == y
  {
    DropHead('\"', ShowBody(s, x), ShowBody(t, y));
    BodyCut(s, t, x, y);
  }

  /** The first character tells the kind of a value. */
  function Tag(v: Json): char
    requires IsNormal(v)
  {
    match v
    case Null => 'n'
    case Bool(b) => if b then 't' else 'f'
    case Num(t) => t[0]
    case Str(_) => '\"'
    case Arr(_) => '['
    case Obj(_) => '{'
  }

  lemma ShowTag(v: Json, rest: string)
    requires IsNormal(v)
    ensures Show(v, rest) != "" && Show(v, rest)[0] == Tag(v)
  {
  }

  /** Two texts that start with a value each, and are equal, start with the same value and
   *  go on alike. */
  lemma {:induction false} ShowCut(a: Json, b: Json, x: string, y: string)
    requires IsNormal(a) && IsNormal(b) && Ends(x) && Ends(y)
    requires Show(a, x) == Show(b, y)
    ensures a == b && x == y
    decreases a
  {
    ShowTag(a, x);
    ShowTag(b, y);
    match a {
      case Null => DropSame("null", x, y);
      case Bool(bit) => DropSame(if bit then "true" else "false", x, y);
      case Num(t) => NumeralCut(t, b.numeral, x, y);
      case Str(s) => QuoteCut(s, b.text, x, y);
      case Arr(items) =>
        DropHead('[', ShowItems(items, "]" + x), ShowItems(b.items, "]" + y));
        ItemsCut(items, b.items, x, y);
      case Obj(members) =>
        DropHead('{', ShowMembers(members, "}" + x), ShowMembers(b.members, "}" + y));
        MembersCut(members, b.members, x, y);
    }
  }

  lemma LaterEnds(items: seq<Json>, rest: string)
    requires Ends(rest)
    ensures Ends(ShowLater(items, rest))
  {
  }

  lemma HeadAndRest<T>(xs: seq<T>, ys: seq<T>)
    requires xs != [] && ys != [] && xs[0] == ys[0] && xs[1..] == ys[1..]
    ensures xs == ys
  {
    assert xs == [xs[0]] + xs[1..] && ys == [ys[0]] + ys[1..];
  }

  lemma {:induction false} ItemsCut(xs: seq<Json>, ys: seq<Json>, x: string, y: string)
    requires AllNormal(xs) && AllNormal(ys)
    requires ShowItems(xs, "]" + x) == ShowItems(ys, "]" + y)
    ensures xs == ys && x == y
    decreases xs
  {
    if xs != [] {
      ShowTag(xs[0], ShowLater(xs[1..], "]" + x));
    }
    if ys != [] {
      ShowTag(ys[0], ShowLater(ys[1..], "]" + y));
    }
    if xs == [] && ys == [] {
      DropHead(']', x, y);
    } else if xs != [] && ys != [] {
      LaterEnds(xs[1..], "]" + x);
      LaterEnds(ys[1..], "]" + y);
      ShowCut(xs[0], ys[0], ShowLater(xs[1..], "]" + x), ShowLater(ys[1..], "]" + y));
      LaterItemsCut(xs[1..], ys[1..], x, y);
      HeadAndRest(xs, ys);
    }
  }

  lemma {:induction false} LaterItemsCut(xs: seq<Json>, ys: seq<Json>, x: string, y: string)
    requires AllNormal(xs) && AllNormal(ys)
    requires ShowLater(xs, "]" + x) == ShowLater(ys, "]" + y)
    ensures xs == ys && x == y
    decreases xs
  {
    assert ShowLater(xs, "]" + x)[0] == if xs == [] then ']' else ',';
    assert ShowLater(ys, "]" + y)[0] == if ys == [] then ']' else ',';
    if xs == [] && ys == [] {
      DropHead(']', x, y);
    } else if xs != [] && ys != [] {
      var restX, restY := ShowLater(xs[1..], "]" + x), ShowLater(ys[1..], "]" + y);
      LaterEnds(xs[1..], "]" + x);
      LaterEnds(ys[1..], "]" + y);
      DropHead(',', Show(xs[0], restX), Show(ys[0], restY));
      ShowCut(xs[0], ys[0], restX, restY);
      LaterItemsCut(xs[1..], ys[1..], x, y);
      HeadAndRest(xs, ys);
    }
  }

  lemma {:induction false} MembersCut(xs: seq<Entry<Json>>, ys: seq<Entry<Json>>, x: string, y: string)
    requires MembersNormal(xs) && MembersNormal(ys)
    requires ShowMembers(xs, "}" + x) == ShowMembers(ys, "}" + y)
    ensures xs == ys && x == y
    decreases xs, 1
  {
    assert ShowMembers(xs, "}" + x)[0] == if xs == [] then '}' else '\"';
    assert ShowMembers(ys, "}" + y)[0] == if ys == [] then '}' else '\"';
    if xs == [] && ys == [] {
      DropHead('}', x, y);
    } else if xs != [] && ys != [] {
      FirstMemberCut(xs, ys, x, y);
    }
  }

  lemma {:induction false} LaterMembersCut(xs: seq<Entry<Json>>, ys: seq<Entry<Json>>, x: string, y: string)
    requires MembersNormal(xs) && MembersNormal(ys)
    requires ShowLaterMembers(xs, "}" + x) == ShowLaterMembers(ys, "}" + y)
    ensures xs == ys && x == y
    decreases xs, 1
  {
    assert ShowLaterMembers(xs, "}" + x)[0] == if xs == [] then '}' else ',';
    assert ShowLaterMembers(ys, "}" + y)[0] == if ys == [] then '}' else ',';
    if xs == [] && ys == [] {
      DropHead('}', x, y);
    } else if xs != [] && ys != [] {
      DropHead(',', ShowMembers(xs, "}" + x), ShowMembers(ys, "}" + y));
      FirstMemberCut(xs, ys, x, y);
    }
  }

  lemma {:induction false} FirstMemberCut(xs: seq<Entry<Json>>, ys: seq<Entry<Json>>, x: string, y: string)
    requires xs != [] && ys != [] && MembersNormal(xs) && MembersNormal(ys)
    requires ShowMembers(xs, "}" + x) == ShowMembers(ys, "}" + y)
    ensures xs == ys && x == y
    decreases xs, 0
  {
    var restX, restY := ShowLaterMembers(xs[1..], "}" + x), ShowLaterMembers(ys[1..], "}" + y);
    QuoteCut(xs[0].key, ys[0].key, ":" + Show(xs[0].value, restX), ":" + Show(ys[0].value, restY));
    DropHead(':', Show(xs[0].value, restX), Show(ys[0].value, restY));
    ShowCut(xs[0].value, ys[0].value, restX, restY);
    LaterMembersCut(xs[1..], ys[1..], x, y);
    HeadAndRest(xs, ys);
  }

  /** Normal forms with the same text are equal. */
  lemma PrintIsInjective(a: Json, b: Json)
    requires IsNormal(a) && IsNormal(b) && Print(a) == Print(b)
    ensures a == b
  {
    PrintShows(a, "");
    PrintShows(b, "");
    ShowCut(a, b, "", "");
  }

  // --- normal forms and meanings ---

  lemma {:induction false} InsertKeys<T>(x: Entry<T>, sorted: seq<Entry<T>>, key: string)
    ensures FreshKey(key, Insert(x, sorted)) <==> x.key != key && FreshKey(key, sorted)
    decreases |sorted|
  {
    if sorted == [] || !StringLess(sorted[0].key, x.key) {
      FreshCons(key, x, sorted);
    } else {
      InsertKeys(x, sorted[1..], key);
      FreshCons(key, sorted[0], sorted[1..]);
      FreshCons(key, sorted[0], Insert(x, sorted[1..]));
      assert sorted == [sorted[0]] + sorted[1..];
    }
  }

  lemma FreshCons<T>(key: string, x: Entry<T>, es: seq<Entry<T>>)
    ensures FreshKey(key, [x] + es) <==> x.key != key && FreshKey(key, es)
  {
    assert ([x] + es)[0] == x;
    assert forall i :: 0 <= i < |es| ==> ([x] + es)[i + 1] == es[i];
  }

  lemma {:induction false} SortKeys<T>(es: seq<Entry<T>>, key: string)
    ensures FreshKey(key, Sort(es)) <==> FreshKey(key, es)
    decreases |es|
  {
    if es != [] {
      SortKeys(es[1..], key);
      InsertKeys(es[0], Sort(es[1..]), key);
      FreshCons(key, es[0], es[1..]);
      assert es == [es[0]] + es[1..];
    }
  }

  /** Ascending, as head and tail. */
  lemma AscendingCons<T>(x: Entry<T>, es: seq<Entry<T>>)
    requires Ascending(es) && (es != [] ==> StringLess(x.key, es[0].key))
    ensures Ascending([x] + es)
  {
    forall j | 0 <= j < |es|
      ensures StringLess(x.key, es[j].key)
    {
      if j > 0 {
        StringLessTransitive(x.key, es[0].key, es[j].key);
      }
    }
  }

  lemma {:induction false} InsertAscends<T>(x: Entry<T>, sorted: seq<Entry<T>>)
    requires Ascending(sorted) && FreshKey(x.key, sorted)
    ensures Ascending(Insert(x, sorted))
    decreases |sorted|
  {
    if sorted == [] {
    } else if StringLess(sorted[0].key, x.key) {
      InsertAscends(x, sorted[1..]);
      AscendingCons(sorted[0], Insert(x, sorted[1..]));
    } else {
      StringOrder(sorted[0].key, x.key);
      AscendingCons(x, sorted);
    }
  }

  /** Every key is fresh among those after it. */
  predicate Distinct<T>(es: seq<Entry<T>>) {
    es == [] || (FreshKey(es[0].key, es[1..]) && Distinct(es[1..]))
  }

  lemma {:induction false} SortAscends<T>(es: seq<Entry<T>>)
    requires Distinct(es)
    ensures Ascending(Sort(es))
    decreases |es|
  {
    if es != [] {
      SortAscends(es[1..]);
      SortKeys(es[1..], es[0].key);
      InsertAscends(es[0], Sort(es[1..]));
    }
  }

  lemma {:induction false} KeptFresh(members: seq<Entry<Json>>, key: string)
    requires FreshKey(key, members)
    ensures FreshKey(key, Kept(members))
    decreases |members|
  {
    if members != [] {
      KeptFresh(members[1..], key);
    }
  }

  lemma {:induction false} KeptDistinct(members: seq<Entry<Json>>)
    requires MembersWf(members)
    ensures Distinct(Kept(members))
    decreases |members|
  {
    if members != [] {
      KeptDistinct(members[1..]);
      KeptFresh(members[1..], members[0].key);
      if !members[0].value.Absent? {
        assert Kept(members)[1..] == Kept(members[1..]);
      } else {
        assert [] + Kept(members[1..]) == Kept(members[1..]);
      }
    }
  }

  lemma {:induction false} InsertNormal(x: Entry<Json>, sorted: seq<Entry<Json>>)
    requires IsNormal(x.value) && MembersNormal(sorted)
    ensures MembersNormal(Insert(x, sorted))
    decreases |sorted|
  {
    if sorted != [] && StringLess(sorted[0].key, x.key) {
      InsertNormal(x, sorted[1..]);
    } else {
      assert ([x] + sorted)[1..] == sorted;
    }
  }

  lemma {:induction false} SortNormal(es: seq<Entry<Json>>)
    requires MembersNormal(es)
    ensures MembersNormal(Sort(es))
    decreases |es|
  {
    if es != [] {
      SortNormal(es[1..]);
      InsertNormal(es[0], Sort(es[1..]));
    }
  }

  lemma {:induction false} NormIsNormal(v: Json)
    requires Wf(v)
    ensures IsNormal(Norm(v))
    decreases v
  {
    match v {
      case Arr(items) => NormsAreNormal(items);
      case Obj(members) =>
        KeptAreNormal(members);
        KeptDistinct(members);
        SortAscends(Kept(members));
        SortNormal(Kept(members));
      case _ =>
    }
  }

  lemma {:induction false} NormsAreNormal(items: seq<Json>)
    requires AllWf(items)
    ensures AllNormal(Norms(items))
    decreases items
  {
    if items != [] {
      NormIsNormal(items[0]);
      NormsAreNormal(items[1..]);
    }
  }

  lemma {:induction false} KeptAreNormal(members: seq<Entry<Json>>)
    requires MembersWf(members)
    ensures MembersNormal(Kept(members))
    decreases members
  {
    if members != [] {
      KeptAreNormal(members[1..]);
      if !members[0].value.Absent? {
        NormIsNormal(members[0].value);
        assert Kept(members)[1..] == Kept(members[1..]);
      } else {
        assert [] + Kept(members[1..]) == Kept(members[1..]);
      }
    }
  }

  // --- normalizing keeps the meaning ---

  lemma {:induction false} FieldsKeys(es: seq<Entry<Json>>, key: string)
    requires FreshKey(key, es)
    ensures key !in Fields(es)
    decreases |es|
  {
    if es != [] {
      FieldsKeys(es[1..], key);
    }
  }

  lemma {:induction false} InsertFields(x: Entry<Json>, sorted: seq<Entry<Json>>)
    requires !x.value.Absent? && FreshKey(x.key, sorted)
    ensures Fields(Insert(x, sorted)) == Fields(sorted)[x.key := Meaning(x.value)]
    decreases |sorted|
  {
    if sorted != [] && StringLess(sorted[0].key, x.key) {
      InsertFields(x, sorted[1..]);
      assert sorted[0].key != x.key;
    } else {
      assert ([x] + sorted)[1..] == sorted;
    }
  }

  lemma {:induction false} SortFields(es: seq<Entry<Json>>)
    requires Distinct(es) && MembersNormal(es)
    ensures Fields(Sort(es)) == Fields(es)
    decreases |es|
  {
    if es != [] {
      SortFields(es[1..]);
      SortKeys(es[1..], es[0].key);
      InsertFields(es[0], Sort(es[1..]));
    }
  }

  lemma {:induction false} NormKeepsMeaning(v: Json)
    requires Wf(v)
    ensures Meaning(Norm(v)) == Meaning(v)
    decreases v
  {
    match v {
      case Arr(items) => NormsKeepMeanings(items);
      case Obj(members) =>
        KeptKeepsFields(members);
        KeptDistinct(members);
        KeptAreNormal(members);
        SortFields(Kept(members));
      case _ =>
    }
  }

  lemma {:induction false} NormsKeepMeanings(items: seq<Json>)
    requires AllWf(items)
    ensures Meanings(Norms(items)) == Meanings(items)
    decreases items
  {
    if items != [] {
      NormKeepsMeaning(items[0]);
      NormsKeepMeanings(items[1..]);
    }
  }

  lemma {:induction false} KeptKeepsFields(members: seq<Entry<Json>>)
    requires MembersWf(members)
    ensures Fields(Kept(members)) == Fields(members)
    decreases members
  {
    if members != [] {
      KeptKeepsFields(members[1..]);
      if !members[0].value.Absent? {
        NormIsNormal(members[0].value);
        NormKeepsMeaning(members[0].value);
        assert Kept(members)[1..] == Kept(members[1..]);
      } else {
        assert [] + Kept(members[1..]) == Kept(members[1..]);
      }
    }
  }

  // --- a normal form is determined by its meaning ---

  lemma {:induction false} MeaningIsInjective(a: Json, b: Json)
    requires IsNormal(a) && IsNormal(b) && Meaning(a) == Meaning(b)
    ensures a == b
    decreases a
  {
    match a {
      case Arr(items) => MeaningsAreInjective(items, b.items);
      case Obj(members) => FieldsAreInjective(members, b.members);
      case _ =>
    }
  }

  lemma {:induction false} MeaningsAreInjective(xs: seq<Json>, ys: seq<Json>)
    requires AllNormal(xs) && AllNormal(ys) && Meanings(xs) == Meanings(ys)
    ensures xs == ys
    decreases xs
  {
    if xs != [] && ys != [] {
      assert Meanings(xs)[0] == Meanings(ys)[0];
      assert Meanings(xs)[1..] == Meanings(ys)[1..];
      MeaningIsInjective(xs[0], ys[0]);
      MeaningsAreInjective(xs[1..], ys[1..]);
      HeadAndRest(xs, ys);
    }
  }

  lemma AscendingFreshHead(es: seq<Entry<Json>>)
    requires es != [] && Ascending(es) && MembersNormal(es)
    ensures FreshKey(es[0].key, es[1..]) && Ascending(es[1..])
    ensures es[0].key in Fields(es) && Fields(es)[es[0].key] == Meaning(es[0].value)
    ensures Fields(es[1..]) == Fields(es) - {es[0].key}
  {
    forall i | 0 <= i < |es[1..]|
      ensures es[1..][i].key != es[0].key
    {
      StringOrder(es[0].key, es[i + 1].key);
    }
    FieldsKeys(es[1..], es[0].key);
  }

  lemma {:induction false} FieldsInMembers(es: seq<Entry<Json>>, key: string)
    requires key in Fields(es)
    ensures exists i :: 0 <= i < |es| && es[i].key == key
    decreases |es|
  {
    if es[0].key != key || es[0].value.Absent? {
      FieldsInMembers(es[1..], key);
      var i :| 0 <= i < |es[1..]| && es[1..][i].key == key;
      assert es[i + 1].key == key;
    }
  }

  /** The head of an ascending list has its least key. */
  lemma HeadIsLeast(xs: seq<Entry<Json>>, ys: seq<Entry<Json>>)
    requires xs != [] && ys != [] && Ascending(xs) && Ascending(ys)
    requires ys[0].key in Fields(xs) && xs[0].key in Fields(ys)
    ensures xs[0].key == ys[0].key
  {
    FieldsInMembers(xs, ys[0].key);
    FieldsInMembers(ys, xs[0].key);
    StringOrder(xs[0].key, ys[0].key);
  }

  lemma {:induction false} FieldsAreInjective(xs: seq<Entry<Json>>, ys: seq<Entry<Json>>)
    requires Ascending(xs) && Ascending(ys) && MembersNormal(xs) && MembersNormal(ys)
    requires Fields(xs) == Fields(ys)
    ensures xs == ys
    decreases xs
  {
    if xs != [] {
      AscendingFreshHead(xs);
    }
    if ys != [] {
      AscendingFreshHead(ys);
    }
    if xs != [] && ys != [] {
      HeadIsLeast(xs, ys);
      MeaningIsInjective(xs[0].value, ys[0].value);
      FieldsAreInjective(xs[1..], ys[1..]);
      HeadAndRest(xs, ys);
    }
  }

  // --- the results ---

  /** Two values have the same canonical text exactly when they mean the same. */
  lemma SameTextIffSameMeaning(a: Json, b: Json)
    requires Wf(a) && Wf(b)
    ensures Canonicalize(a) == Canonicalize(b) <==> Meaning(a) == Meaning(b)
  {
    CanonicalizePrintsNorm(a);
    CanonicalizePrintsNorm(b);
    NormIsNormal(a);
    NormIsNormal(b);
    NormKeepsMeaning(a);
    NormKeepsMeaning(b);
    if Canonicalize(a) == Canonicalize(b) {
      PrintIsInjective(Norm(a), Norm(b));
    }
    if Meaning(a) == Meaning(b) {
      MeaningIsInjective(Norm(a), Norm(b));
    }
  }

  /** A value written as JSON text and parsed back: members that JSON cannot carry are
   *  dropped, and such array elements and numbers come back as null. */
  function Persisted(v: Json): Json
    decreases v
  {
    match v
    case NotFinite => Null
    case Absent => Null
    case Arr(items) => Arr(PersistedItems(items))
    case Obj(members) => Obj(PersistedMembers(members))
    case _ => v
  }

  function PersistedItems(items: seq<Json>): seq<Json>
    decreases items
  {
    if items == [] then [] else [Persisted(items[0])] + PersistedItems(items[1..])
  }

  function PersistedMembers(members: seq<Entry<Json>>): seq<Entry<Json>>
    decreases members
  {
    if members == [] then []
    else
      var m := members[0];
      (if m.value.Absent? then [] else [Entry(m.key, Persisted(m.value))]) + PersistedMembers(members[1..])
  }

  lemma {:induction false} PersistedKeepsMeaning(v: Json)
    requires Wf(v)
    ensures Wf(Persisted(v)) && !Persisted(v).Absent? && Meaning(Persisted(v)) == Meaning(v)
    decreases v
  {
    match v {
      case Arr(items) => PersistedItemsKeepMeaning(items);
      case Obj(members) => PersistedMembersKeepFields(members);
      case _ =>
    }
  }

  lemma {:induction false} PersistedItemsKeepMeaning(items: seq<Json>)
    requires AllWf(items)
    ensures AllWf(PersistedItems(items)) && Meanings(PersistedItems(items)) == Meanings(items)
    decreases items
  {
    if items != [] {
      PersistedKeepsMeaning(items[0]);
      PersistedItemsKeepMeaning(items[1..]);
    }
  }

  lemma {:induction false} PersistedFresh(members: seq<Entry<Json>>, key: string)
    requires FreshKey(key, members)
    ensures FreshKey(key, PersistedMembers(members))
    decreases |members|
  {
    if members != [] {
      PersistedFresh(members[1..], key);
    }
  }

  lemma {:induction false} PersistedMembersKeepFields(members: seq<Entry<Json>>)
    requires MembersWf(members)
    ensures MembersWf(PersistedMembers(members)) && Fields(PersistedMembers(members)) == Fields(members)
    decreases members
  {
    if members != [] {
      PersistedMembersKeepFields(members[1..]);
      PersistedFresh(members[1..], members[0].key);
      if !members[0].value.Absent? {
        PersistedKeepsMeaning(members[0].value);
        assert PersistedMembers(members)[1..] == PersistedMembers(members[1..]);
      } else {
        assert [] + PersistedMembers(members[1..]) == PersistedMembers(members[1..]);
      }
    }
  }

  /** Writing a payload out and reading it back, with its members in whatever order the
   *  store returns them, never changes the text that was hashed. */
  lemma PersistenceKeepsText(v: Json, back: Json)
    requires Wf(v) && Wf(back) && Meaning(back) == Meaning(Persisted(v))
    ensures Canonicalize(back) == Canonicalize(v)
  {
    PersistedKeepsMeaning(v);
    SameTextIffSameMeaning(back, v);
  }

  // --- one line ---

  lemma {:induction false} BodyOnOneLine(s: string, rest: string)
    requires '\n' !in rest
    ensures '\n' !in ShowBody(s, rest)
  {
    if s != "" {
      BodyOnOneLine(s[1..], rest);
      assert '\n' !in Escaped(s[0]);
    }
  }

  lemma {:induction false} ShowOnOneLine(v: Json, rest: string)
    requires '\n' !in rest
    ensures '\n' !in Show(v, rest)
    decreases v
  {
    match v {
      case Str(s) => BodyOnOneLine(s, rest);
      case Arr(items) => ItemsOnOneLine(items, "]" + rest);
      case Obj(members) => MembersOnOneLine(members, "}" + rest);
      case _ =>
    }
  }

  lemma {:induction false} ItemsOnOneLine(items: seq<Json>, rest: string)
    requires '\n' !in rest
    ensures '\n' !in ShowItems(items, rest) && '\n' !in ShowLater(items, rest)
    decreases items
  {
    if items != [] {
      ItemsOnOneLine(items[1..], rest);
      ShowOnOneLine(items[0], ShowLater(items[1..], rest));
    }
  }

  lemma {:induction false} MembersOnOneLine(members: seq<Entry<Json>>, rest: string)
    requires '\n' !in rest
    ensures '\n' !in ShowMembers(members, rest) && '\n' !in ShowLaterMembers(members, rest)
    decreases members
  {
    if members != [] {
      MembersOnOneLine(members[1..], rest);
      ShowOnOneLine(members[0].value, ShowLaterMembers(members[1..], rest));
      BodyOnOneLine(members[0].key, ":" + Show(members[0].value, ShowLaterMembers(members[1..], rest)));
    }
  }

  /** The canonical text never breaks a line, whatever the strings in it. */
  lemma TextIsOneLine(v: Json)
    ensures '\n' !in Canonicalize(v)
  {
    CanonicalizePrintsNorm(v);
    PrintShows(Norm(v), "");
    assert Print(Norm(v)) + "" == Print(Norm(v));
    ShowOnOneLine(Norm(v), "");
  }

  // --- numerals ---

  predicate AreDigits(s: string) {
    s != "" && forall i :: 0 <= i < |s| ==> '0' <= s[i] <= '9'
  }

  /** The texts JavaScript gives to finite numbers are numerals: whole, with a fraction, and with
   *  an exponent, and their negatives. */
  lemma NumbersAreNumerals(whole: string, fraction: string, exponent: string)
    requires AreDigits(whole) && AreDigits(fraction) && AreDigits(exponent)
    ensures IsNumeral(whole) && IsNumeral("-" + whole)
    ensures IsNumeral(whole + "." + fraction) && IsNumeral("-" + whole + "." + fraction)
    ensures IsNumeral(whole + "e+" + exponent) && IsNumeral(whole + "e-" + exponent)
    ensures IsNumeral(whole + "." + fraction + "e+" + exponent) && IsNumeral(whole + "." + fraction + "e-" + exponent)
  {
  }

  // --- strings ---

  /** The digit of a value below sixteen, in lower case. */
  predicate IsHex(c: char, v: int) {
    (0 <= v < 10 && c as int == 48 + v) || (10 <= v < 16 && c as int == 87 + v)
  }

  /** A character of a string stands for itself, but for the quote, the backslash and the
   *  control characters: five of those have a letter, the others four hexadecimal digits. */
  lemma EscapeMeans(c: char)
    ensures Escaped(c) == [c] <==> c as int >= 32 && c != '\"' && c != '\\'
    ensures Escaped('\"') == "\\\"" && Escaped('\\') == "\\\\"
    ensures c as int == 8 ==> Escaped(c) == "\\b"
    ensures c as int == 9 ==> Escaped(c) == "\\t"
    ensures c as int == 10 ==> Escaped(c) == "\\n"
    ensures c as int == 12 ==> Escaped(c) == "\\f"
    ensures c as int == 13 ==> Escaped(c) == "\\r"
    ensures c as int < 32 && c as int !in {8, 9, 10, 12, 13} ==>
              && |Escaped(c)| == 6 && Escaped(c)[..4] == "\\u00"
              && IsHex(Escaped(c)[4], c as int / 16) && IsHex(Escaped(c)[5], c as int % 16)
  {
    if c as int < 32 && c as int !in {8, 9, 10, 12, 13} {
      HexMeans(c as int / 16);
      HexMeans(c as int % 16);
      assert Escaped(c)[..4] == ['\\', 'u', '0', '0'];
    }
    hide HexDigit;
  }

  lemma HexMeans(n: nat)
    requires n < 16
    ensures IsHex(HexDigit(n), n)
  {
  }

  // --- well-formedness ---

  predicate DistinctKeys(members: seq<Entry<Json>>) {
    forall i, j :: 0 <= i < j < |members| ==> members[i].key != members[j].key
  }

  /** Well formed: no object anywhere in the value names a key twice. */
  lemma WfMeans(v: Json)
    ensures Wf(v) <==>
              && (v.Arr? ==> forall i :: 0 <= i < |v.items| ==> Wf(v.items[i]))
              && (v.Obj? ==> DistinctKeys(v.members) && forall i :: 0 <= i < |v.members| ==> Wf(v.members[i].value))
  {
    match v {
      case Arr(items) => AllWfMeans(items);
      case Obj(members) => MembersWfMeans(members);
      case _ =>
    }
  }

  lemma {:induction false} AllWfMeans(items: seq<Json>)
    ensures AllWf(items) <==> forall i :: 0 <= i < |items| ==> Wf(items[i])
  {
    hide Wf;
    if items != [] {
      AllWfMeans(items[1..]);
      assert forall i :: 0 < i < |items| ==> items[i] == items[1..][i - 1];
      assert forall i :: 0 <= i < |items| - 1 ==> items[1..][i] == items[i + 1];
    }
  }

  lemma {:induction false} MembersWfMeans(members: seq<Entry<Json>>)
    ensures MembersWf(members) <==> DistinctKeys(members) && forall i :: 0 <= i < |members| ==> Wf(members[i].value)
  {
    hide Wf;
    if members != [] {
      var rest := members[1..];
      MembersWfMeans(rest);
      assert forall i :: 0 <= i < |rest| ==> rest[i] == members[i + 1];
      assert forall i :: 0 < i < |members| ==> members[i] == rest[i - 1];
    }
  }
}
