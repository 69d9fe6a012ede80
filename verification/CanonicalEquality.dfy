/** Equal canonical texts, letter case aside, mean equal documents, key order and letter case
    aside (Invoke-PatriotPot.ps1:1254-1284, 1404). The proof goes through a normal form: names
    folded and sorted at every level, then printed in order by a printer that is a prefix code. */
module CanonicalEquality {
  import opened Letters
  import opened Sequences
  import opened CanonicalJson

  function Normal(v: Value): Value {
    match v
    case Num(text) => Num(Fold(text))
    case Str(s) => Str(Fold(s))
    case Arr(items) => Arr(NormalAll(items))
    case Obj(props) => Obj(Sort(NormalProps(props)))
    case _ => v
  }

  function NormalAll(vs: seq<Value>): (r: seq<Value>)
    ensures |r| == |vs| && forall i :: 0 <= i < |vs| ==> r[i] == Normal(vs[i])
  {
    if vs == [] then [] else [Normal(vs[0])] + NormalAll(vs[1..])
  }

  function NormalProps(ps: seq<Named<Value>>): (r: seq<Named<Value>>)
    ensures |r| == |ps| && forall i :: 0 <= i < |ps| ==> r[i] == Named(Fold(ps[i].name), Normal(ps[i].value))
  {
    if ps == [] then [] else [Named(Fold(ps[0].name), Normal(ps[0].value))] + NormalProps(ps[1..])
  }

  /** Backslash and quote escaped in one pass. */
  function Escape(s: string): string {
    if s == [] then "" else (if s[0] == '\\' || s[0] == '"' then ['\\', s[0]] else [s[0]]) + Escape(s[1..])
  }

  function PrintStr(s: string): string {
    "\"" + Escape(s) + "\""
  }

  /** The printer on normal forms: properties in the order they have. */
  function Print(v: Value): string {
    match v
    case Null => "null"
    case Bool(b) => if b then "true" else "false"
    case Num(text) => text
    case Str(s) => PrintStr(s)
    case Arr(items) => "[" + PrintItems(items) + "]"
    case Obj(props) => "{" + PrintProps(props) + "}"
  }

  function PrintItems(vs: seq<Value>): string {
    if vs == [] then "" else if |vs| == 1 then Print(vs[0]) else Print(vs[0]) + "," + PrintItems(vs[1..])
  }

  function PrintProp(p: Named<Value>): string {
    PrintStr(p.name) + ":" + Print(p.value)
  }

  function PrintProps(ps: seq<Named<Value>>): string {
    if ps == [] then "" else if |ps| == 1 then PrintProp(ps[0]) else PrintProp(ps[0]) + "," + PrintProps(ps[1..])
  }

  // The two Replace passes, and folding, meet the one-pass escape.

  lemma {:induction false} TwoPasses(s: string)
    ensures Replace(Replace(s, '\\'), '"') == Escape(s)
  {
    if s != [] {
      TwoPasses(s[1..]);
      var rest := Replace(s[1..], '\\');
      if s[0] == '\\' {
        ReplaceHead('\\', ['\\'] + rest, '"');
        ReplaceHead('\\', rest, '"');
        assert ['\\', '\\'] + rest == ['\\'] + (['\\'] + rest);
      } else {
        ReplaceHead(s[0], rest, '"');
      }
    }
  }

  lemma ReplaceHead(x: char, s: string, c: char)
    ensures Replace([x] + s, c) == (if x == c then ['\\', c] else [x]) + Replace(s, c)
  {
    assert ([x] + s)[1..] == s;
  }

  lemma {:induction false} FoldEscape(s: string)
    ensures Fold(Escape(s)) == Escape(Fold(s))
  {
    if s != [] {
      FoldEscape(s[1..]);
      assert Fold(s)[1..] == Fold(s[1..]);
      var head := if s[0] == '\\' || s[0] == '"' then ['\\', s[0]] else [s[0]];
      FoldConcat(head, Escape(s[1..]));
      assert Fold(head) == if s[0] == '\\' || s[0] == '"' then ['\\', s[0]] else [Lower(s[0])];
    }
  }

  lemma FoldQuoted(s: string)
    ensures Fold(Quoted(s)) == PrintStr(Fold(s))
  {
    TwoPasses(s);
    FoldEscape(s);
    FoldConcat("\"" + Escape(s), "\"");
    FoldConcat("\"", Escape(s));
    assert Fold("\"") == "\"";
  }

  /** A printed member and the normal property it stands for. */
  predicate Stands(p: Named<string>, q: Named<Value>) {
    Fold(p.name) == q.name && Fold(p.value) == Print(q.value)
  }

  predicate AllStand(ps: seq<Named<string>>, qs: seq<Named<Value>>) {
    |ps| == |qs| && forall i :: 0 <= i < |ps| ==> Stands(ps[i], qs[i])
  }

  lemma {:induction false} InsertStands(ps: seq<Named<string>>, qs: seq<Named<Value>>, p: Named<string>,
      q: Named<Value>)
    requires AllStand(ps, qs) && Stands(p, q)
    ensures AllStand(Insert(ps, p), Insert(qs, q))
  {
    FoldTwice(p.name);
    if ps != [] {
      assert Stands(ps[0], qs[0]);
      FoldTwice(ps[0].name);
      InsertStands(ps[1..], qs[1..], p, q);
    }
  }

  lemma {:induction false} SortStands(ps: seq<Named<string>>, qs: seq<Named<Value>>)
    requires AllStand(ps, qs)
    ensures AllStand(Sort(ps), Sort(qs))
  {
    if ps != [] {
      SortStands(ps[1..], qs[1..]);
      InsertStands(Sort(ps[1..]), Sort(qs[1..]), ps[0], qs[0]);
    }
  }

  lemma FoldMember(p: Named<string>, q: Named<Value>)
    requires Stands(p, q)
    ensures Fold(Quoted(p.name) + ":" + p.value) == PrintProp(q)
  {
    FoldQuoted(p.name);
    FoldConcat(Quoted(p.name) + ":", p.value);
    FoldConcat(Quoted(p.name), ":");
    assert Fold(":") == ":";
  }

  lemma MembersTail(ps: seq<Named<string>>)
    ensures |Members(ps)| == |ps| && (ps != [] ==> Members(ps)[1..] == Members(ps[1..]))
  {
    if ps != [] {
      MembersTail(ps[1..]);
    }
  }

  lemma FoldComma(a: string, b: string)
    ensures Fold(a + "," + b) == Fold(a) + "," + Fold(b)
  {
    FoldConcat(a + ",", b);
    FoldConcat(a, ",");
    assert Fold(",") == ",";
  }

  lemma {:induction false} FoldMembers(ps: seq<Named<string>>, qs: seq<Named<Value>>)
    requires AllStand(ps, qs)
    ensures Fold(Joined(Members(ps))) == PrintProps(qs)
  {
    if ps != [] {
      FoldMember(ps[0], qs[0]);
      MembersTail(ps);
      if |ps| > 1 {
        FoldMembers(ps[1..], qs[1..]);
        FoldComma(Members(ps)[0], Joined(Members(ps[1..])));
      }
    }
  }

  lemma FoldBrackets(l: string, body: string, r: string)
    requires Fold(l) == l && Fold(r) == r
    ensures Fold(l + body + r) == l + Fold(body) + r
  {
    FoldConcat(l + body, r);
    FoldConcat(l, body);
  }

  /** Folding the canonical text gives the print of the normal form. */
  lemma {:induction false} FoldCanon(v: Value)
    ensures Fold(Canon(v)) == Print(Normal(v))
  {
    match v
    case Null => assert Fold("null") == "null";
    case Bool(b) => assert Fold("true") == "true" && Fold("false") == "false";
    case Num(text) =>
    case Str(s) => FoldQuoted(s);
    case Arr(items) =>
      FoldItems(items);
      FoldBrackets("[", Joined(CanonAll(items)), "]");
    case Obj(props) =>
      FoldProps(props);
      SortStands(CanonProps(props), NormalProps(props));
      FoldMembers(Sort(CanonProps(props)), Sort(NormalProps(props)));
      FoldBrackets("{", Joined(Members(Sort(CanonProps(props)))), "}");
  }

  lemma {:induction false} FoldItems(vs: seq<Value>)
    ensures Fold(Joined(CanonAll(vs))) == PrintItems(NormalAll(vs))
  {
    if vs != [] {
      FoldCanon(vs[0]);
      FoldItems(vs[1..]);
      assert CanonAll(vs)[1..] == CanonAll(vs[1..]) && NormalAll(vs)[1..] == NormalAll(vs[1..]);
      if |vs| > 1 {
        FoldComma(Canon(vs[0]), Joined(CanonAll(vs[1..])));
      }
    }
  }

  lemma {:induction false} FoldProps(ps: seq<Named<Value>>)
    ensures AllStand(CanonProps(ps), NormalProps(ps))
  {
    if ps != [] {
      FoldCanon(ps[0].value);
      FoldProps(ps[1..]);
      assert CanonProps(ps)[1..] == CanonProps(ps[1..]) && NormalProps(ps)[1..] == NormalProps(ps[1..]);
      assert forall i :: 1 <= i < |ps| ==> CanonProps(ps)[i] == CanonProps(ps)[1..][i - 1];
      assert forall i :: 1 <= i < |ps| ==> NormalProps(ps)[i] == NormalProps(ps)[1..][i - 1];
    }
  }

  // The printer is a prefix code.

  /** What can follow a printed value. */
  predicate Stops(x: string) {
    x == [] || x[0] == ',' || x[0] == ']' || x[0] == '}'
  }

  predicate Printable(v: Value) {
    match v
    case Num(text) => NumText(text)
    case Arr(items) => forall i :: 0 <= i < |items| ==> Printable(items[i])
    case Obj(props) => forall i :: 0 <= i < |props| ==> Printable(props[i].value)
    case _ => true
  }

  lemma SamePrefix(p: string, u: string, v: string)
    requires p + u == p + v
    ensures u == v
  {
    assert (p + u)[|p|..] == u && (p + v)[|p|..] == v;
  }

  function Escaped(c: char): string {
    if c == '\\' || c == '"' then ['\\', c] else [c]
  }

  lemma EscapeHead(s: string, x: string)
    requires s != []
    ensures Escape(s) + "\"" + x == Escaped(s[0]) + (Escape(s[1..]) + "\"" + x)
  {
  }

  lemma EscapedCancels(c: char, d: char, x: string, y: string)
    requires Escaped(c) + x == Escaped(d) + y
    ensures c == d && x == y
  {
    var l, r := Escaped(c) + x, Escaped(d) + y;
    assert l[0] == r[0] && l[|Escaped(c)| - 1] == r[|Escaped(c)| - 1];
    SamePrefix(Escaped(c), x, y);
  }

  lemma NotQuote(s: string, x: string)
    ensures s != [] ==> (Escape(s) + "\"" + x)[0] != '"'
  {
  }

  lemma QuoteEnds(s: string, x: string, y: string)
    requires "\"" + x == Escape(s) + "\"" + y
    ensures s == [] && x == y
  {
    NotQuote(s, y);
    if s == [] {
      assert Escape(s) + "\"" + y == "\"" + y;
      SamePrefix("\"", x, y);
    }
  }

  lemma {:induction false} EscapeCancels(s: string, t: string, x: string, y: string)
    requires Escape(s) + "\"" + x == Escape(t) + "\"" + y
    ensures s == t && x == y
  {
    hide Escape, Escaped;
    if s == [] {
      EmptyEscape(x);
      QuoteEnds(t, x, y);
    } else if t == [] {
      EmptyEscape(y);
      QuoteEnds(s, y, x);
    } else {
      EscapeHead(s, x);
      EscapeHead(t, y);
      EscapedCancels(s[0], t[0], Escape(s[1..]) + "\"" + x, Escape(t[1..]) + "\"" + y);
      EscapeCancels(s[1..], t[1..], x, y);
      assert s == [s[0]] + s[1..] && t == [t[0]] + t[1..];
    }
  }

  lemma EmptyEscape(x: string)
    ensures Escape([]) + "\"" + x == "\"" + x
  {
  }

  lemma StrCancels(s: string, t: string, x: string, y: string)
    requires PrintStr(s) + x == PrintStr(t) + y
    ensures s == t && x == y
  {
    assert PrintStr(s) + x == "\"" + (Escape(s) + "\"" + x);
    assert PrintStr(t) + y == "\"" + (Escape(t) + "\"" + y);
    SamePrefix("\"", Escape(s) + "\"" + x, Escape(t) + "\"" + y);
    EscapeCancels(s, t, x, y);
  }

  lemma Overhang(a: string, b: string, x: string, y: string)
    requires a + x == b + y && |a| < |b|
    ensures x != [] && x[0] == b[|a|]
  {
    assert (a + x)[|a|] == (b + y)[|a|];
  }

  lemma NumCancels(a: string, b: string, x: string, y: string)
    requires NumText(a) && NumText(b) && Stops(x) && Stops(y) && a + x == b + y
    ensures a == b && x == y
  {
    if |a| < |b| {
      Overhang(a, b, x, y);
    } else if |b| < |a| {
      Overhang(b, a, y, x);
    } else {
      assert (a + x)[..|a|] == a && (b + y)[..|a|] == b;
      SamePrefix(a, x, y);
    }
  }

  /** The first character tells the kind of value. */
  function Kind(v: Value): char
    requires Printable(v)
  {
    match v
    case Null => 'n'
    case Bool(b) => if b then 't' else 'f'
    case Num(text) => text[0]
    case Str(_) => '"'
    case Arr(_) => '['
    case Obj(_) => '{'
  }

  lemma FirstChar(v: Value, x: string)
    requires Printable(v)
    ensures Print(v) + x != [] && (Print(v) + x)[0] == Kind(v) && !Stops(Print(v) + x)
  {
  }

  lemma SameKind(a: Value, b: Value, x: string, y: string)
    requires Printable(a) && Printable(b) && Print(a) + x == Print(b) + y
    ensures Kind(a) == Kind(b)
  {
    hide Print, Printable;
    FirstChar(a, x);
    FirstChar(b, y);
  }

  /** Values of one kind without parts. */
  lemma LeafCancels(a: Value, b: Value, x: string, y: string)
    requires Printable(a) && Printable(b) && Kind(a) == Kind(b) && Stops(x) && Stops(y)
    requires Print(a) + x == Print(b) + y && !a.Arr? && !a.Obj?
    ensures a == b && x == y
  {
    if a.Num? {
      NumCancels(a.text, b.text, x, y);
    } else if a.Str? {
      StrCancels(a.s, b.s, x, y);
    } else {
      SamePrefix(Print(a), x, y);
    }
  }

  /** What follows the first element inside brackets, and the first property inside braces. */
  function ItemsRest(vs: seq<Value>, x: string): string
    requires vs != []
  {
    if |vs| == 1 then x else "," + (PrintItems(vs[1..]) + x)
  }

  function PropsRest(ps: seq<Named<Value>>, x: string): string
    requires ps != []
  {
    if |ps| == 1 then x else "," + (PrintProps(ps[1..]) + x)
  }

  /** What follows a list: its closing bracket. */
  predicate Closes(x: string) {
    x != [] && (x[0] == ']' || x[0] == '}')
  }

  lemma ItemsSplit(vs: seq<Value>, x: string)
    requires vs != [] && Closes(x)
    ensures PrintItems(vs) + x == Print(vs[0]) + ItemsRest(vs, x) && Stops(ItemsRest(vs, x))
  {
    hide Print;
    if |vs| > 1 {
      var head, more := Print(vs[0]), PrintItems(vs[1..]);
      Regroup(head + ",", more, x);
      Regroup(head, ",", more + x);
    }
  }

  /** All but the first property, as they follow it. */
  function MoreProps(ps: seq<Named<Value>>): string
    requires ps != []
  {
    if |ps| == 1 then "" else "," + PrintProps(ps[1..])
  }

  lemma PropsHead(ps: seq<Named<Value>>, x: string)
    requires ps != []
    ensures PrintProps(ps) == PrintProp(ps[0]) + MoreProps(ps)
    ensures PropsRest(ps, x) == MoreProps(ps) + x
  {
    hide PrintProp;
    if |ps| > 1 {
      Regroup(PrintProp(ps[0]), ",", PrintProps(ps[1..]));
      Regroup(",", PrintProps(ps[1..]), x);
    } else {
      assert PrintProp(ps[0]) + "" == PrintProp(ps[0]) && "" + x == x;
    }
  }

  lemma PropsSplit(ps: seq<Named<Value>>, x: string)
    requires ps != [] && Closes(x)
    ensures PrintProps(ps) + x == PrintStr(ps[0].name) + (":" + (Print(ps[0].value) + PropsRest(ps, x)))
    ensures Stops(PropsRest(ps, x))
  {
    hide Print, PrintStr, PrintProps, MoreProps;
    PropsHead(ps, x);
    var head, v, rest := PrintStr(ps[0].name), Print(ps[0].value), PropsRest(ps, x);
    Regroup(PrintProp(ps[0]), MoreProps(ps), x);
    Regroup(head + ":", v, rest);
    Regroup(head, ":", v + rest);
  }

  lemma ItemsRestSame(vs: seq<Value>, ws: seq<Value>, x: string, y: string)
    requires vs != [] && ws != [] && Closes(x) && Closes(y) && ItemsRest(vs, x) == ItemsRest(ws, y)
    ensures |vs| == 1 <==> |ws| == 1
    ensures if |vs| == 1 then x == y else PrintItems(vs[1..]) + x == PrintItems(ws[1..]) + y
  {
    assert ItemsRest(vs, x)[0] == ItemsRest(ws, y)[0];
    if |vs| > 1 {
      SamePrefix(",", PrintItems(vs[1..]) + x, PrintItems(ws[1..]) + y);
    }
  }

  lemma PropsRestSame(ps: seq<Named<Value>>, qs: seq<Named<Value>>, x: string, y: string)
    requires ps != [] && qs != [] && Closes(x) && Closes(y) && PropsRest(ps, x) == PropsRest(qs, y)
    ensures |ps| == 1 <==> |qs| == 1
    ensures if |ps| == 1 then x == y else PrintProps(ps[1..]) + x == PrintProps(qs[1..]) + y
  {
    assert PropsRest(ps, x)[0] == PropsRest(qs, y)[0];
    if |ps| > 1 {
      SamePrefix(",", PrintProps(ps[1..]) + x, PrintProps(qs[1..]) + y);
    }
  }

  /** An empty list is told from a nonempty one by its closing bracket. */
  lemma EmptyItems(vs: seq<Value>, x: string, y: string)
    requires AllPrintable(vs) && Closes(x) && Closes(y) && x == PrintItems(vs) + y
    ensures vs == [] && x == y
  {
    if vs != [] {
      ItemsSplit(vs, y);
      FirstChar(vs[0], ItemsRest(vs, y));
    } else {
      assert [] + y == y;
    }
  }

  lemma PropsStart(ps: seq<Named<Value>>, x: string)
    ensures ps != [] ==> !Closes(PrintProps(ps) + x)
  {
  }

  lemma EmptyProps(ps: seq<Named<Value>>, x: string, y: string)
    requires Closes(x) && Closes(y) && x == PrintProps(ps) + y
    ensures ps == [] && x == y
  {
    PropsStart(ps, y);
    if ps == [] {
      assert [] + y == y;
    }
  }

  predicate AllPrintable(vs: seq<Value>) {
    forall i :: 0 <= i < |vs| ==> Printable(vs[i])
  }

  predicate PropsPrintable(ps: seq<Named<Value>>) {
    forall i :: 0 <= i < |ps| ==> Printable(ps[i].value)
  }

  lemma Unbracket(a: Value, x: string)
    ensures a.Arr? ==> Print(a) + x == "[" + (PrintItems(a.items) + ("]" + x))
    ensures a.Obj? ==> Print(a) + x == "{" + (PrintProps(a.props) + ("}" + x))
  {
  }

  /** A printed value ends where it ends: nothing that follows can be read as part of it. */
  lemma {:induction false} PrintCancels(a: Value, b: Value, x: string, y: string)
    requires Printable(a) && Printable(b) && Stops(x) && Stops(y)
    requires Print(a) + x == Print(b) + y
    ensures a == b && x == y
    decreases a, 1
  {
    hide Print, PrintItems, PrintProps;
    SameKind(a, b, x, y);
    Unbracket(a, x);
    Unbracket(b, y);
    if a.Arr? {
      SamePrefix("[", PrintItems(a.items) + ("]" + x), PrintItems(b.items) + ("]" + y));
      ItemsCancel(a.items, b.items, "]" + x, "]" + y);
      SamePrefix("]", x, y);
    } else if a.Obj? {
      SamePrefix("{", PrintProps(a.props) + ("}" + x), PrintProps(b.props) + ("}" + y));
      PropsCancel(a.props, b.props, "}" + x, "}" + y);
      SamePrefix("}", x, y);
    } else {
      LeafCancels(a, b, x, y);
    }
  }

  lemma {:induction false} ItemsCancel(vs: seq<Value>, ws: seq<Value>, x: string, y: string)
    requires AllPrintable(vs) && AllPrintable(ws) && Closes(x) && Closes(y)
    requires PrintItems(vs) + x == PrintItems(ws) + y
    ensures vs == ws && x == y
    decreases vs, 0
  {
    hide Print, PrintItems, ItemsRest, Printable;
    if vs == [] {
      NoItems(x);
      EmptyItems(ws, x, y);
    } else if ws == [] {
      NoItems(y);
      EmptyItems(vs, y, x);
    } else {
      ItemsSplit(vs, x);
      ItemsSplit(ws, y);
      PrintCancels(vs[0], ws[0], ItemsRest(vs, x), ItemsRest(ws, y));
      ItemsRestSame(vs, ws, x, y);
      assert vs == [vs[0]] + vs[1..] && ws == [ws[0]] + ws[1..];
      if |vs| > 1 {
        ItemsCancel(vs[1..], ws[1..], x, y);
      }
    }
  }

  lemma NoItems(x: string)
    ensures PrintItems([]) + x == x && PrintProps([]) + x == x
  {
  }

  lemma {:induction false} PropsCancel(ps: seq<Named<Value>>, qs: seq<Named<Value>>, x: string, y: string)
    requires PropsPrintable(ps) && PropsPrintable(qs) && Closes(x) && Closes(y)
    requires PrintProps(ps) + x == PrintProps(qs) + y
    ensures ps == qs && x == y
    decreases ps, 0
  {
    hide Print, PrintProps, PrintStr, PropsRest, Printable;
    if ps == [] {
      NoItems(x);
      EmptyProps(qs, x, y);
    } else if qs == [] {
      NoItems(y);
      EmptyProps(ps, y, x);
    } else {
      PropsSplit(ps, x);
      PropsSplit(qs, y);
      var u, v := Print(ps[0].value) + PropsRest(ps, x), Print(qs[0].value) + PropsRest(qs, y);
      StrCancels(ps[0].name, qs[0].name, ":" + u, ":" + v);
      SamePrefix(":", u, v);
      PrintCancels(ps[0].value, qs[0].value, PropsRest(ps, x), PropsRest(qs, y));
      PropsRestSame(ps, qs, x, y);
      assert ps == [ps[0]] + ps[1..] && qs == [qs[0]] + qs[1..];
      if |ps| > 1 {
        PropsCancel(ps[1..], qs[1..], x, y);
      }
    }
  }

  // Normal forms are equal exactly when the documents are the same.

  predicate Ascending<T>(ps: seq<Named<T>>) {
    forall i, j :: 0 <= i < j < |ps| ==> Before(Fold(ps[i].name), Fold(ps[j].name))
  }

  predicate Within<T(==)>(ps: seq<Named<T>>, qs: seq<Named<T>>) {
    forall i :: 0 <= i < |ps| ==> ps[i] in qs
  }

  lemma {:induction false} InsertContents<T>(ps: seq<Named<T>>, p: Named<T>)
    ensures |Insert(ps, p)| == |ps| + 1
    ensures forall x :: x in Insert(ps, p) <==> x == p || x in ps
  {
    if ps != [] && !Before(Fold(p.name), Fold(ps[0].name)) {
      InsertContents(ps[1..], p);
      assert ps == [ps[0]] + ps[1..];
    }
  }

  predicate NewName<T(==)>(ps: seq<Named<T>>, name: string) {
    forall x :: x in ps ==> Fold(x.name) != Fold(name)
  }

  /** Everything sorts after `low` and differs from it. */
  predicate Above<T>(ps: seq<Named<T>>, low: string) {
    forall i :: 0 <= i < |ps| ==> Before(low, Fold(ps[i].name)) && Fold(ps[i].name) != low
  }

  lemma {:induction false} InsertAbove<T>(ps: seq<Named<T>>, p: Named<T>, low: string)
    requires Above(ps, low) && Above([p], low)
    ensures Above(Insert(ps, p), low)
  {
    assert [p][0] == p;
    if ps != [] && !Before(Fold(p.name), Fold(ps[0].name)) {
      InsertAbove(ps[1..], p, low);
    }
  }

  lemma AboveHead<T>(p: Named<T>, rest: seq<Named<T>>)
    requires Ascending(rest) && UniqueNames(rest) && Above(rest, Fold(p.name))
    ensures Ascending([p] + rest) && UniqueNames([p] + rest)
  {
  }

  lemma HeadBelow<T>(ps: seq<Named<T>>)
    requires Ascending(ps) && UniqueNames(ps) && ps != []
    ensures Above(ps[1..], Fold(ps[0].name)) && Ascending(ps[1..]) && UniqueNames(ps[1..])
  {
  }

  lemma AboveLower<T>(ps: seq<Named<T>>, low: string, mid: string)
    requires Above(ps, mid) && Before(low, mid) && low != mid
    ensures Above(ps, low)
  {
    forall i | 0 <= i < |ps|
      ensures Before(low, Fold(ps[i].name)) && Fold(ps[i].name) != low
    {
      BeforeTransitive(low, mid, Fold(ps[i].name));
      BeforeTotal(low, mid);
    }
  }

  lemma {:induction false} InsertAscending<T>(ps: seq<Named<T>>, p: Named<T>)
    requires Ascending(ps) && UniqueNames(ps) && NewName(ps, p.name)
    ensures Ascending(Insert(ps, p)) && UniqueNames(Insert(ps, p))
  {
    var key := Fold(p.name);
    if ps == [] {
      assert Insert(ps, p) == [p];
    } else {
      hide Ascending, UniqueNames;
      var low := Fold(ps[0].name);
      assert ps[0] in ps && ps == [ps[0]] + ps[1..];
      HeadBelow(ps);
      BeforeTotal(key, low);
      if Before(key, low) {
        AboveLower(ps[1..], key, low);
        AboveHead(p, ps);
      } else {
        InsertAscending(ps[1..], p);
        InsertAbove(ps[1..], p, low);
        AboveHead(ps[0], Insert(ps[1..], p));
      }
    }
  }

  lemma TailNew<T>(ps: seq<Named<T>>)
    requires UniqueNames(ps) && ps != []
    ensures NewName(ps[1..], ps[0].name) && UniqueNames(ps[1..])
  {
  }

  lemma StillNew<T>(ps: seq<Named<T>>, qs: seq<Named<T>>, name: string)
    requires NewName(ps, name) && forall x :: x in qs <==> x in ps
    ensures NewName(qs, name)
  {
  }

  lemma {:induction false} SortAscending<T>(ps: seq<Named<T>>)
    requires UniqueNames(ps)
    ensures Ascending(Sort(ps)) && UniqueNames(Sort(ps)) && |Sort(ps)| == |ps|
    ensures forall x :: x in Sort(ps) <==> x in ps
  {
    if ps != [] {
      hide Ascending, UniqueNames, Insert, NewName;
      TailNew(ps);
      SortAscending(ps[1..]);
      InsertContents(Sort(ps[1..]), ps[0]);
      assert ps == [ps[0]] + ps[1..];
      StillNew(ps[1..], Sort(ps[1..]), ps[0].name);
      InsertAscending(Sort(ps[1..]), ps[0]);
    } else {
      assert Sort(ps) == [];
    }
  }

  /** In an ascending list with unique names the head is the only element that is below all. */
  lemma HeadIsLeast<T>(ps: seq<Named<T>>, x: Named<T>)
    requires Ascending(ps) && UniqueNames(ps) && ps != [] && x in ps
    ensures Before(Fold(ps[0].name), Fold(x.name)) && (Fold(x.name) == Fold(ps[0].name) ==> x == ps[0])
  {
    var i :| 0 <= i < |ps| && ps[i] == x;
    BeforeTotal(Fold(x.name), Fold(x.name));
  }

  lemma TailWithin<T>(ps: seq<Named<T>>, qs: seq<Named<T>>)
    requires ps != [] && qs != [] && ps[0] == qs[0] && UniqueNames(ps) && Within(ps, qs)
    ensures Within(ps[1..], qs[1..])
  {
    forall i | 0 <= i < |ps[1..]|
      ensures ps[1..][i] in qs[1..]
    {
      assert ps[i + 1] in qs && Fold(ps[i + 1].name) != Fold(ps[0].name);
      var j :| 0 <= j < |qs| && qs[j] == ps[i + 1];
      assert qs[1..][j - 1] == ps[i + 1];
    }
  }

  lemma {:induction false} SortedAlike<T>(ps: seq<Named<T>>, qs: seq<Named<T>>)
    requires Ascending(ps) && UniqueNames(ps) && Ascending(qs) && UniqueNames(qs)
    requires Within(ps, qs) && Within(qs, ps)
    ensures ps == qs
  {
    assert ps != [] ==> ps[0] in qs;
    assert qs != [] ==> qs[0] in ps;
    if ps != [] && qs != [] {
      HeadBelow(ps);
      HeadBelow(qs);
      hide Ascending, UniqueNames, Within;
      HeadIsLeast(ps, qs[0]);
      HeadIsLeast(qs, ps[0]);
      BeforeTotal(Fold(ps[0].name), Fold(qs[0].name));
      TailWithin(ps, qs);
      TailWithin(qs, ps);
      SortedAlike(ps[1..], qs[1..]);
      assert ps == [ps[0]] + ps[1..] && qs == [qs[0]] + qs[1..];
    }
  }

  lemma NormalUnique(ps: seq<Named<Value>>)
    requires UniqueNames(ps)
    ensures UniqueNames(NormalProps(ps))
  {
    forall i, j | 0 <= i < j < |ps|
      ensures Fold(NormalProps(ps)[i].name) != Fold(NormalProps(ps)[j].name)
    {
      FoldTwice(ps[i].name);
      FoldTwice(ps[j].name);
    }
  }

  /** Sorting forgets the order and nothing else. */
  lemma SortsEqual(ps: seq<Named<Value>>, qs: seq<Named<Value>>)
    requires UniqueNames(ps) && UniqueNames(qs)
    ensures Sort(ps) == Sort(qs) <==> Within(ps, qs) && Within(qs, ps)
  {
    hide Sort, UniqueNames, Ascending;
    SortAscending(ps);
    SortAscending(qs);
    if Within(ps, qs) && Within(qs, ps) {
      SortWithin(ps, qs);
      SortWithin(qs, ps);
      SortedAlike(Sort(ps), Sort(qs));
    }
    if Sort(ps) == Sort(qs) {
      assert forall i :: 0 <= i < |ps| ==> ps[i] in ps;
      assert forall i :: 0 <= i < |qs| ==> qs[i] in qs;
    }
  }

  lemma SortMember(ps: seq<Named<Value>>, x: Named<Value>)
    requires UniqueNames(ps)
    ensures x in Sort(ps) <==> x in ps
  {
    SortAscending(ps);
  }

  lemma SortWithin(ps: seq<Named<Value>>, qs: seq<Named<Value>>)
    requires UniqueNames(ps) && UniqueNames(qs) && Within(ps, qs)
    ensures Within(Sort(ps), Sort(qs))
  {
    hide Sort, UniqueNames, Ascending;
    forall i | 0 <= i < |Sort(ps)|
      ensures Sort(ps)[i] in Sort(qs)
    {
      var x := Sort(ps)[i];
      SortMember(ps, x);
      SortMember(qs, x);
    }
  }

  /** The normal form decides sameness. */
  lemma {:induction false} NormalDecides(a: Value, b: Value)
    requires WellFormed(a) && WellFormed(b)
    ensures Normal(a) == Normal(b) <==> Same(a, b)
    decreases a
  {
    if a.Arr? && b.Arr? {
      forall i | 0 <= i < |a.items| && i < |b.items|
        ensures Normal(a.items[i]) == Normal(b.items[i]) <==> Same(a.items[i], b.items[i])
      {
        NormalDecides(a.items[i], b.items[i]);
      }
      ArraysDecide(a.items, b.items);
    } else if a.Obj? && b.Obj? {
      forall i, j | 0 <= i < |a.props| && 0 <= j < |b.props|
        ensures Agree(a.props, b.props, i, j)
      {
        NormalDecides(a.props[i].value, b.props[j].value);
      }
      ObjectsDecide(a.props, b.props);
    }
  }

  predicate Agree(x: seq<Named<Value>>, y: seq<Named<Value>>, i: nat, j: nat)
    requires i < |x| && j < |y|
  {
    NormalProps(x)[i] == NormalProps(y)[j] <==> SameProp(x[i], y[j])
  }

  lemma ArraysDecide(x: seq<Value>, y: seq<Value>)
    requires forall i :: 0 <= i < |x| && i < |y| ==> (Normal(x[i]) == Normal(y[i]) <==> Same(x[i], y[i]))
    ensures Normal(Arr(x)) == Normal(Arr(y)) <==> Same(Arr(x), Arr(y))
  {
    if Normal(Arr(x)) == Normal(Arr(y)) {
      assert NormalAll(x) == NormalAll(y);
      assert forall i :: 0 <= i < |x| ==> NormalAll(x)[i] == NormalAll(y)[i];
    }
    if Same(Arr(x), Arr(y)) {
      assert forall i :: 0 <= i < |x| ==> NormalAll(x)[i] == NormalAll(y)[i];
      assert NormalAll(x) == NormalAll(y);
    }
  }

  lemma ObjectsDecide(x: seq<Named<Value>>, y: seq<Named<Value>>)
    requires UniqueNames(x) && UniqueNames(y)
    requires forall i, j :: 0 <= i < |x| && 0 <= j < |y| ==> Agree(x, y, i, j)
    ensures Normal(Obj(x)) == Normal(Obj(y)) <==> Same(Obj(x), Obj(y))
  {
    hide SameProp, HasMatch, IsMatched, Agree, UniqueNames, Sort;
    NormalUnique(x);
    NormalUnique(y);
    SortsEqual(NormalProps(x), NormalProps(y));
    forall i | 0 <= i < |x|
      ensures NormalProps(x)[i] in NormalProps(y) <==> HasMatch(x[i], y)
    {
      MatchIn(x, y, i);
    }
    forall j | 0 <= j < |y|
      ensures NormalProps(y)[j] in NormalProps(x) <==> IsMatched(x, y[j])
    {
      MatchFrom(x, y, j);
    }
  }

  lemma MatchIn(x: seq<Named<Value>>, y: seq<Named<Value>>, i: nat)
    requires i < |x| && forall j :: 0 <= j < |y| ==> Agree(x, y, i, j)
    ensures NormalProps(x)[i] in NormalProps(y) <==> HasMatch(x[i], y)
  {
    hide SameProp, NormalProps;
    if HasMatch(x[i], y) {
      var j :| 0 <= j < |y| && SameProp(x[i], y[j]);
      assert Agree(x, y, i, j);
    }
    if NormalProps(x)[i] in NormalProps(y) {
      var j :| 0 <= j < |y| && NormalProps(y)[j] == NormalProps(x)[i];
      assert Agree(x, y, i, j);
    }
  }

  lemma MatchFrom(x: seq<Named<Value>>, y: seq<Named<Value>>, j: nat)
    requires j < |y| && forall i :: 0 <= i < |x| ==> Agree(x, y, i, j)
    ensures NormalProps(y)[j] in NormalProps(x) <==> IsMatched(x, y[j])
  {
    hide SameProp, NormalProps;
    if IsMatched(x, y[j]) {
      var i :| 0 <= i < |x| && SameProp(x[i], y[j]);
      assert Agree(x, y, i, j);
    }
    if NormalProps(y)[j] in NormalProps(x) {
      var i :| 0 <= i < |x| && NormalProps(x)[i] == NormalProps(y)[j];
      assert Agree(x, y, i, j);
    }
  }

  lemma {:induction false} NormalPrintable(v: Value)
    requires WellFormed(v)
    ensures Printable(Normal(v))
  {
    match v
    case Num(text) => FoldNumText(text);
    case Arr(items) =>
      forall i | 0 <= i < |items|
        ensures Printable(NormalAll(items)[i])
      {
        NormalPrintable(items[i]);
      }
    case Obj(props) =>
      forall i | 0 <= i < |props|
        ensures Printable(NormalProps(props)[i].value)
      {
        NormalPrintable(props[i].value);
      }
      NormalUnique(props);
      SortPrintable(NormalProps(props));
    case _ =>
  }

  lemma FoldNumText(t: string)
    requires NumText(t)
    ensures NumText(Fold(t))
  {
  }

  lemma {:induction false} SortContents<T>(ps: seq<Named<T>>, x: Named<T>)
    ensures x in Sort(ps) <==> x in ps
  {
    if ps != [] {
      hide Insert;
      SortContents(ps[1..], x);
      InsertContents(Sort(ps[1..]), ps[0]);
      assert ps == [ps[0]] + ps[1..];
    } else {
      assert Sort(ps) == [];
    }
  }

  lemma SortPrintable(ps: seq<Named<Value>>)
    requires UniqueNames(ps) && PropsPrintable(ps)
    ensures PropsPrintable(Sort(ps))
  {
    hide Sort, UniqueNames, Ascending, Printable;
    SortAscending(ps);
    var sorted := Sort(ps);
    forall i | 0 <= i < |sorted|
      ensures Printable(sorted[i].value)
    {
      SortContents(ps, sorted[i]);
      assert sorted[i] in sorted;
      var j :| 0 <= j < |ps| && ps[j] == sorted[i];
    }
  }

  /** The comparison of canonical texts, letter case ignored, decides exactly whether two documents
      are equal up to the order of object properties and letter case. */
  lemma CanonicalTextDecides(a: Value, b: Value)
    requires WellFormed(a) && WellFormed(b)
    ensures Fold(Canon(a)) == Fold(Canon(b)) <==> Same(a, b)
  {
    hide Canon, Print, Normal, Fold, Same;
    FoldCanon(a);
    FoldCanon(b);
    NormalDecides(a, b);
    NormalPrintable(a);
    NormalPrintable(b);
    if Print(Normal(a)) == Print(Normal(b)) {
      assert Print(Normal(a)) + [] == Print(Normal(a)) && Print(Normal(b)) + [] == Print(Normal(b));
      PrintCancels(Normal(a), Normal(b), [], []);
    }
  }
}
