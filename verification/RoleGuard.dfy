/** The reduce-and-compare guard on the instance role's policy change
    (Invoke-PatriotPot.ps1:1311-1407). */
module RoleGuard {
  import opened Options
  import opened CanonicalJson
  import opened CanonicalEquality

  /** The approved ARN is not empty. */
  type Arn = s: string | s != "" witness "arn"

  const RESOURCE := "Resource"
  const STATEMENT := "Statement"

  /** The place of a property, names compared without letter case, or |ps|. */
  function PropIndex(ps: seq<Named<Value>>, name: string): (i: nat)
    ensures i <= |ps| && (i < |ps| ==> Fold(ps[i].name) == Fold(name))
    ensures forall j :: 0 <= j < i ==> Fold(ps[j].name) != Fold(name)
  {
    if ps == [] then 0 else if Fold(ps[0].name) == Fold(name) then 0 else 1 + PropIndex(ps[1..], name)
  }

  function Property(v: Value, name: string): Option<Value> {
    if v.Obj? && PropIndex(v.props, name) < |v.props| then Some(v.props[PropIndex(v.props, name)].value) else None
  }

  function SetProperty(v: Value, name: string, x: Value): Value
    requires Property(v, name).Some?
  {
    var i := PropIndex(v.props, name);
    Obj(v.props[i := Named(v.props[i].name, x)])
  }

  /** @(value): an array as it is, anything else as its only element. */
  function Listed(v: Value): seq<Value> {
    if v.Arr? then v.items else [v]
  }

  /** A scalar on the left of -eq: a string without letter case, and `true` against any nonempty
      string. */
  predicate ScalarEquals(v: Value, arn: Arn) {
    match v
    case Str(s) => Fold(s) == Fold(arn)
    case Bool(b) => b
    case _ => false
  }

  /** An entry on the left of -eq in a condition: an array is filtered, so one equal element will do. */
  predicate Hits(v: Value, arn: Arn) {
    ScalarEquals(v, arn) || (v.Arr? && exists i :: 0 <= i < |v.items| && ScalarEquals(v.items[i], arn))
  }

  function HitCount(vs: seq<Value>, arn: Arn): nat {
    if vs == [] then 0 else HitCount(vs[..|vs| - 1], arn) + (if Hits(vs[|vs| - 1], arn) then 1 else 0)
  }

  function StatementHits(stmt: Value, arn: Arn): nat {
    match Property(stmt, RESOURCE)
    case None => 0
    case Some(r) => if r.Str? then (if Fold(r.s) == Fold(arn) then 1 else 0) else HitCount(Listed(r), arn)
  }

  function TotalHits(stmts: seq<Value>, arn: Arn): nat {
    if stmts == [] then 0 else TotalHits(stmts[..|stmts| - 1], arn) + StatementHits(stmts[|stmts| - 1], arn)
  }

  predicate IsPolicy(doc: Value) {
    Property(doc, STATEMENT).Some?
  }

  function Statements(doc: Value): seq<Value>
    requires IsPolicy(doc)
  {
    Listed(Property(doc, STATEMENT).value)
  }

  function Occurrences(doc: Value, arn: Arn): nat
    requires IsPolicy(doc)
  {
    TotalHits(Statements(doc), arn)
  }

  /** The entries of a Resource that is not a single string. */
  function ResourceList(stmt: Value): seq<Value> {
    match Property(stmt, RESOURCE)
    case None => []
    case Some(r) => if r.Str? then [] else Listed(r)
  }

  /** The place of the first hit, or |vs|. */
  function FirstHit(vs: seq<Value>, arn: Arn): (i: nat)
    ensures i <= |vs| && (i < |vs| ==> Hits(vs[i], arn))
    ensures forall j :: 0 <= j < i ==> !Hits(vs[j], arn)
  {
    if vs == [] then 0 else if Hits(vs[0], arn) then 0 else 1 + FirstHit(vs[1..], arn)
  }

  /** The first statement with a hit in a Resource list, or |stmts|. */
  function FirstStatement(stmts: seq<Value>, arn: Arn): (k: nat)
    ensures k <= |stmts|
    ensures k < |stmts| ==> FirstHit(ResourceList(stmts[k]), arn) < |ResourceList(stmts[k])|
    ensures forall j :: 0 <= j < k ==> FirstHit(ResourceList(stmts[j]), arn) == |ResourceList(stmts[j])|
  {
    if stmts == [] then 0
    else if FirstHit(ResourceList(stmts[0]), arn) < |ResourceList(stmts[0])| then 0
    else 1 + FirstStatement(stmts[1..], arn)
  }

  function Without(vs: seq<Value>, i: nat): seq<Value>
    requires i < |vs|
  {
    vs[..i] + vs[i + 1..]
  }

  /** The document with statement `k` replaced. */
  function WithStatement(doc: Value, k: nat, stmt: Value): Value
    requires IsPolicy(doc) && k < |Statements(doc)|
  {
    var s := Property(doc, STATEMENT).value;
    SetProperty(doc, STATEMENT, if s.Arr? then Arr(s.items[k := stmt]) else stmt)
  }

  /** `$reduced += $entry` for each entry: an array is not appended but spliced in, one level deep. */
  function Spliced(vs: seq<Value>): seq<Value> {
    if vs == [] then [] else Spliced(vs[..|vs| - 1]) + Listed(vs[|vs| - 1])
  }

  /** The document with this list as the Resource of statement `k`. */
  function WithList(doc: Value, k: nat, list: seq<Value>): Value
    requires IsPolicy(doc) && k < |Statements(doc)| && Property(Statements(doc)[k], RESOURCE).Some?
  {
    WithStatement(doc, k, SetProperty(Statements(doc)[k], RESOURCE, Arr(list)))
  }

  /** The document as the script rebuilds it without entry `i` of the Resource list of statement `k`. */
  function Removed(doc: Value, k: nat, i: nat): Value
    requires IsPolicy(doc) && k < |Statements(doc)| && i < |ResourceList(Statements(doc)[k])|
  {
    WithList(doc, k, Spliced(Without(ResourceList(Statements(doc)[k]), i)))
  }

  /** The document that lacks that entry and is otherwise the same. */
  function Cut(doc: Value, k: nat, i: nat): Value
    requires IsPolicy(doc) && k < |Statements(doc)| && i < |ResourceList(Statements(doc)[k])|
  {
    WithList(doc, k, Without(ResourceList(Statements(doc)[k]), i))
  }

  /** Remove-SingleArnOccurrence: nothing unless there is exactly one occurrence. */
  function Reduced(doc: Value, arn: Arn): Option<Value>
    requires IsPolicy(doc)
  {
    if Occurrences(doc, arn) != 1 then None else
      var k := FirstStatement(Statements(doc), arn);
      Some(if k < |Statements(doc)| then Removed(doc, k, FirstHit(ResourceList(Statements(doc)[k]), arn)) else doc)
  }

  /** The final comparison of the guard on one changed policy document. */
  predicate Accepts(before: Value, after: Value, arn: Arn)
    requires IsPolicy(after)
  {
    var reduced := Reduced(after, arn);
    reduced.Some? && Fold(Canon(before)) == Fold(Canon(reduced.value))
  }

  // Setting a property, and reading it back.

  lemma SetReads(v: Value, name: string, x: Value)
    requires Property(v, name).Some?
    ensures var w := SetProperty(v, name, x);
      && Property(w, name) == Some(x) && PropIndex(w.props, name) == PropIndex(v.props, name)
      && |w.props| == |v.props|
  {
    var i := PropIndex(v.props, name);
    var ps := v.props[i := Named(v.props[i].name, x)];
    assert Fold(ps[i].name) == Fold(name);
    assert PropIndex(ps, name) <= i;
    assert forall j :: 0 <= j < i ==> ps[j] == v.props[j];
  }

  lemma SetTwice(v: Value, name: string, x: Value, y: Value)
    requires Property(v, name).Some?
    ensures Property(SetProperty(v, name, x), name).Some?
    ensures SetProperty(SetProperty(v, name, x), name, y) == SetProperty(v, name, y)
  {
    SetReads(v, name, x);
  }

  lemma SetSame(v: Value, name: string)
    requires Property(v, name).Some?
    ensures SetProperty(v, name, Property(v, name).value) == v
  {
  }

  // Removing an entry keeps a document well formed.

  lemma SetWellFormed(v: Value, name: string, x: Value)
    requires WellFormed(v) && WellFormed(x) && Property(v, name).Some?
    ensures WellFormed(SetProperty(v, name, x))
  {
    var i := PropIndex(v.props, name);
    var ps := v.props[i := Named(v.props[i].name, x)];
  }

  lemma PropertyWellFormed(v: Value, name: string)
    requires WellFormed(v)
    ensures Property(v, name).Some? ==> WellFormed(Property(v, name).value)
  {
  }

  lemma ListedWellFormed(v: Value)
    requires WellFormed(v)
    ensures forall i :: 0 <= i < |Listed(v)| ==> WellFormed(Listed(v)[i])
  {
  }

  lemma {:induction false} SplicedWellFormed(vs: seq<Value>)
    requires forall i :: 0 <= i < |vs| ==> WellFormed(vs[i])
    ensures forall i :: 0 <= i < |Spliced(vs)| ==> WellFormed(Spliced(vs)[i])
  {
    hide WellFormed;
    if vs != [] {
      SplicedWellFormed(vs[..|vs| - 1]);
      ListedWellFormed(vs[|vs| - 1]);
    }
  }

  lemma WithListWellFormed(doc: Value, k: nat, list: seq<Value>)
    requires WellFormed(doc) && IsPolicy(doc) && k < |Statements(doc)|
    requires Property(Statements(doc)[k], RESOURCE).Some?
    requires forall i :: 0 <= i < |list| ==> WellFormed(list[i])
    ensures WellFormed(WithList(doc, k, list))
  {
    hide WellFormed;
    var stmt := Statements(doc)[k];
    var s := Property(doc, STATEMENT).value;
    PropertyWellFormed(doc, STATEMENT);
    ListedWellFormed(s);
    ArrWellFormed(list);
    SetWellFormed(stmt, RESOURCE, Arr(list));
    var stmt' := SetProperty(stmt, RESOURCE, Arr(list));
    if s.Arr? {
      ArrWellFormed(s.items[k := stmt']);
      SetWellFormed(doc, STATEMENT, Arr(s.items[k := stmt']));
    } else {
      SetWellFormed(doc, STATEMENT, stmt');
    }
  }

  lemma EntriesWellFormed(doc: Value, k: nat)
    requires WellFormed(doc) && IsPolicy(doc) && k < |Statements(doc)|
    ensures var list := ResourceList(Statements(doc)[k]);
      forall i :: 0 <= i < |list| ==> WellFormed(list[i])
  {
    hide WellFormed;
    PropertyWellFormed(doc, STATEMENT);
    ListedWellFormed(Property(doc, STATEMENT).value);
    PropertyWellFormed(Statements(doc)[k], RESOURCE);
    if ResourceList(Statements(doc)[k]) != [] {
      ListedWellFormed(Property(Statements(doc)[k], RESOURCE).value);
    }
  }

  lemma RemovedWellFormed(doc: Value, k: nat, i: nat)
    requires WellFormed(doc) && IsPolicy(doc) && k < |Statements(doc)| && i < |ResourceList(Statements(doc)[k])|
    ensures WellFormed(Removed(doc, k, i)) && WellFormed(Cut(doc, k, i))
  {
    hide WellFormed, WithList;
    EntriesWellFormed(doc, k);
    var rest := Without(ResourceList(Statements(doc)[k]), i);
    SplicedWellFormed(rest);
    WithListWellFormed(doc, k, Spliced(rest));
    WithListWellFormed(doc, k, rest);
  }

  lemma ArrWellFormed(vs: seq<Value>)
    requires forall i :: 0 <= i < |vs| ==> WellFormed(vs[i])
    ensures WellFormed(Arr(vs))
  {
  }

  /** Entry `i` of the Resource list of statement `k` of this document is an occurrence. */
  predicate HitAt(doc: Value, arn: Arn, k: nat, i: nat)
    requires IsPolicy(doc)
  {
    k < |Statements(doc)| && i < |ResourceList(Statements(doc)[k])| && Hits(ResourceList(Statements(doc)[k])[i], arn)
  }

  predicate NoListHit(doc: Value, arn: Arn)
    requires IsPolicy(doc)
  {
    forall k :: 0 <= k < |Statements(doc)| ==>
      forall i :: 0 <= i < |ResourceList(Statements(doc)[k])| ==> !Hits(ResourceList(Statements(doc)[k])[i], arn)
  }

  // One occurrence means one place.

  lemma {:induction false} HitCounted(vs: seq<Value>, arn: Arn, i: nat, j: nat)
    requires i < |vs| && j < |vs| && Hits(vs[i], arn) && Hits(vs[j], arn)
    ensures HitCount(vs, arn) >= if i == j then 1 else 2
  {
    hide Hits;
    var n := |vs| - 1;
    if i < n && j < n {
      HitCounted(vs[..n], arn, i, j);
    } else if i < n {
      HitCounted(vs[..n], arn, i, i);
    } else if j < n {
      HitCounted(vs[..n], arn, j, j);
    }
  }

  lemma {:induction false} TotalAtLeast(stmts: seq<Value>, arn: Arn, k: nat, l: nat)
    requires k < |stmts| && l < |stmts|
    ensures TotalHits(stmts, arn) >= StatementHits(stmts[k], arn) + (if k == l then 0 else StatementHits(stmts[l], arn))
  {
    hide StatementHits;
    var n := |stmts| - 1;
    if k < n && l < n {
      TotalAtLeast(stmts[..n], arn, k, l);
    } else if k < n {
      TotalAtLeast(stmts[..n], arn, k, k);
    } else if l < n {
      TotalAtLeast(stmts[..n], arn, l, l);
    }
  }

  lemma ListHits(stmt: Value, arn: Arn, i: nat)
    requires i < |ResourceList(stmt)| && Hits(ResourceList(stmt)[i], arn)
    ensures StatementHits(stmt, arn) == HitCount(ResourceList(stmt), arn) >= 1
  {
    hide Hits;
    HitCounted(ResourceList(stmt), arn, i, i);
  }

  lemma OnlyPlace(doc: Value, arn: Arn, k: nat, i: nat)
    requires IsPolicy(doc) && Occurrences(doc, arn) == 1 && HitAt(doc, arn, k, i)
    ensures FirstStatement(Statements(doc), arn) == k && FirstHit(ResourceList(Statements(doc)[k]), arn) == i
  {
    hide Hits, StatementHits, TotalHits, HitCount;
    var stmts := Statements(doc);
    var l := FirstStatement(stmts, arn);
    var j := FirstHit(ResourceList(stmts[k]), arn);
    assert j <= i && l <= k;
    ListHits(stmts[k], arn, i);
    ListHits(stmts[l], arn, FirstHit(ResourceList(stmts[l]), arn));
    TotalAtLeast(stmts, arn, k, l);
    HitCounted(ResourceList(stmts[k]), arn, i, j);
  }

  /** What acceptance means: there is exactly one occurrence in the new document, and either it is an
      entry of a Resource list, without which the new document, its other array entries of that list
      spliced in, is the old one; or it is the whole of one Resource and the documents are the same. */
  lemma {:induction false} AcceptanceMeans(before: Value, after: Value, arn: Arn)
    requires WellFormed(before) && WellFormed(after) && IsPolicy(after)
    ensures Accepts(before, after, arn) <==>
      && Occurrences(after, arn) == 1
      && ((NoListHit(after, arn) && Same(before, after))
          || exists k, i :: HitAt(after, arn, k, i) && Same(before, Removed(after, k, i)))
  {
    hide Canon, Fold, Same, WellFormed, Removed, Hits, TotalHits;
    var stmts := Statements(after);
    var k := FirstStatement(stmts, arn);
    if Occurrences(after, arn) == 1 {
      if k < |stmts| {
        var i := FirstHit(ResourceList(stmts[k]), arn);
        RemovedWellFormed(after, k, i);
        CanonicalTextDecides(before, Removed(after, k, i));
        assert HitAt(after, arn, k, i);
        forall l, j | HitAt(after, arn, l, j)
          ensures l == k && j == i
        {
          OnlyPlace(after, arn, l, j);
        }
      } else {
        CanonicalTextDecides(before, after);
      }
    }
  }

  /** A document with a Resource list in statement `k` that has room for an entry at `i`. */
  predicate HasPlace(doc: Value, k: nat, i: nat) {
    && IsPolicy(doc) && k < |Statements(doc)|
    && Property(Statements(doc)[k], RESOURCE).Some? && Property(Statements(doc)[k], RESOURCE).value.Arr?
    && i <= |ResourceList(Statements(doc)[k])|
  }

  /** The document with `entry` inserted there. */
  function Inserted(doc: Value, k: nat, i: nat, entry: Value): Value
    requires HasPlace(doc, k, i)
  {
    var list := ResourceList(Statements(doc)[k]);
    WithList(doc, k, list[..i] + [entry] + list[i..])
  }

  /** The document with that one list spliced. */
  function Flattened(doc: Value, k: nat): Value
    requires HasPlace(doc, k, 0)
  {
    WithList(doc, k, Spliced(ResourceList(Statements(doc)[k])))
  }

  lemma WithReads(doc: Value, k: nat, stmt: Value)
    requires IsPolicy(doc) && k < |Statements(doc)| && (Property(doc, STATEMENT).value.Arr? || !stmt.Arr?)
    ensures var w := WithStatement(doc, k, stmt);
      && IsPolicy(w) && Statements(w) == Statements(doc)[k := stmt]
      && (Property(w, STATEMENT).value.Arr? <==> Property(doc, STATEMENT).value.Arr?)
  {
    var s := Property(doc, STATEMENT).value;
    SetReads(doc, STATEMENT, if s.Arr? then Arr(s.items[k := stmt]) else stmt);
  }

  lemma WithTwice(doc: Value, k: nat, a: Value, b: Value)
    requires IsPolicy(doc) && k < |Statements(doc)| && !a.Arr? && !b.Arr?
    ensures var w := WithStatement(doc, k, a);
      && IsPolicy(w) && k < |Statements(w)| && WithStatement(w, k, b) == WithStatement(doc, k, b)
  {
    WithReads(doc, k, a);
    var s := Property(doc, STATEMENT).value;
    var x := if s.Arr? then Arr(s.items[k := a]) else a;
    var y := if s.Arr? then Arr(s.items[k := b]) else b;
    SetReads(doc, STATEMENT, x);
    SetTwice(doc, STATEMENT, x, y);
    assert s.Arr? ==> s.items[k := a][k := b] == s.items[k := b];
  }

  lemma WithSame(doc: Value, k: nat)
    requires IsPolicy(doc) && k < |Statements(doc)|
    ensures WithStatement(doc, k, Statements(doc)[k]) == doc
  {
    var s := Property(doc, STATEMENT).value;
    assert s.Arr? ==> s.items[k := s.items[k]] == s.items;
    SetSame(doc, STATEMENT);
  }

  lemma WithListReads(doc: Value, k: nat, list: seq<Value>)
    requires HasPlace(doc, k, 0)
    ensures var w := WithList(doc, k, list);
      && IsPolicy(w) && k < |Statements(w)| && Property(Statements(w)[k], RESOURCE) == Some(Arr(list))
      && ResourceList(Statements(w)[k]) == list
      && Statements(w) == Statements(doc)[k := SetProperty(Statements(doc)[k], RESOURCE, Arr(list))]
  {
    hide WithStatement, SetProperty, Property;
    var stmt := Statements(doc)[k];
    StatementKind(stmt, RESOURCE, Arr(list));
    SetReads(stmt, RESOURCE, Arr(list));
    WithReads(doc, k, SetProperty(stmt, RESOURCE, Arr(list)));
  }

  lemma WithListTwice(doc: Value, k: nat, a: seq<Value>, b: seq<Value>)
    requires HasPlace(doc, k, 0)
    ensures HasPlace(WithList(doc, k, a), k, 0) && WithList(WithList(doc, k, a), k, b) == WithList(doc, k, b)
    ensures WithList(doc, k, ResourceList(Statements(doc)[k])) == doc
  {
    hide WithStatement, SetProperty, Property;
    var stmt := Statements(doc)[k];
    WithListReads(doc, k, a);
    StatementKind(stmt, RESOURCE, Arr(a));
    StatementKind(stmt, RESOURCE, Arr(b));
    SetTwice(stmt, RESOURCE, Arr(a), Arr(b));
    SetSame(stmt, RESOURCE);
    WithTwice(doc, k, SetProperty(stmt, RESOURCE, Arr(a)), SetProperty(stmt, RESOURCE, Arr(b)));
    WithSame(doc, k);
  }

  /** Cutting out an inserted entry gives the document back; removing it as the script does gives
      the document with that list spliced. */
  lemma RemoveUndoesInsert(doc: Value, k: nat, i: nat, entry: Value)
    requires HasPlace(doc, k, i)
    ensures var after := Inserted(doc, k, i, entry);
      && IsPolicy(after) && k < |Statements(after)| && i < |ResourceList(Statements(after)[k])|
      && ResourceList(Statements(after)[k])[i] == entry
      && Cut(after, k, i) == doc && Removed(after, k, i) == Flattened(doc, k)
  {
    hide WithList, Property;
    var list := ResourceList(Statements(doc)[k]);
    var longer := list[..i] + [entry] + list[i..];
    WithListReads(doc, k, longer);
    assert Without(longer, i) == list;
    WithListTwice(doc, k, longer, list);
    WithListTwice(doc, k, longer, Spliced(list));
  }

  lemma StatementKind(stmt: Value, name: string, x: Value)
    requires Property(stmt, name).Some?
    ensures stmt.Obj? && SetProperty(stmt, name, x).Obj?
  {
  }

  lemma {:induction false} HitCountInsert(a: seq<Value>, entry: Value, b: seq<Value>, arn: Arn)
    ensures HitCount(a + [entry] + b, arn) == HitCount(a + b, arn) + (if Hits(entry, arn) then 1 else 0)
  {
    hide Hits;
    if b == [] {
      assert a + [entry] + b == a + [entry] && a + b == a && (a + [entry])[..|a|] == a;
    } else {
      var n := |b| - 1;
      assert (a + [entry] + b)[..|a| + 1 + n] == a + [entry] + b[..n];
      assert (a + b)[..|a| + n] == a + b[..n];
      HitCountInsert(a, entry, b[..n], arn);
    }
  }

  lemma {:induction false} TotalUpdate(stmts: seq<Value>, arn: Arn, k: nat, stmt: Value)
    requires k < |stmts|
    ensures TotalHits(stmts[k := stmt], arn) + StatementHits(stmts[k], arn) == TotalHits(stmts,
        arn) + StatementHits(stmt, arn)
  {
    hide StatementHits;
    var n := |stmts| - 1;
    if k < n {
      assert stmts[k := stmt][..n] == stmts[..n][k := stmt];
      TotalUpdate(stmts[..n], arn, k, stmt);
    } else {
      assert stmts[k := stmt][..n] == stmts[..n];
    }
  }

  lemma InsertedOccurrences(doc: Value, k: nat, i: nat, entry: Value, arn: Arn)
    requires HasPlace(doc, k, i)
    ensures IsPolicy(Inserted(doc, k, i, entry))
    ensures Occurrences(Inserted(doc, k, i, entry), arn) == Occurrences(doc, arn) + (if Hits(entry, arn) then 1 else 0)
  {
    hide WithList, SetProperty, Hits, HitCount, TotalHits;
    var stmt := Statements(doc)[k];
    var list := ResourceList(stmt);
    var longer := list[..i] + [entry] + list[i..];
    WithListReads(doc, k, longer);
    TotalUpdate(Statements(doc), arn, k, SetProperty(stmt, RESOURCE, Arr(longer)));
    SetReads(stmt, RESOURCE, Arr(longer));
    HitCountInsert(list[..i], entry, list[i..], arn);
    assert list[..i] + list[i..] == list;
  }

  // Splicing shrinks a document, so it is noticed.

  function Size(v: Value): nat {
    match v
    case Arr(items) => 1 + SizeAll(items)
    case Obj(props) => 1 + SizeProps(props)
    case _ => 1
  }

  function SizeAll(vs: seq<Value>): nat {
    if vs == [] then 0 else Size(vs[0]) + SizeAll(vs[1..])
  }

  function SizeProps(ps: seq<Named<Value>>): nat {
    if ps == [] then 0 else Size(ps[0].value) + SizeProps(ps[1..])
  }

  lemma {:induction false} InsertSize(ps: seq<Named<Value>>, p: Named<Value>)
    ensures SizeProps(Insert(ps, p)) == SizeProps(ps) + Size(p.value)
  {
    hide Size;
    assert ([p] + ps)[1..] == ps;
    if ps != [] && !Before(Fold(p.name), Fold(ps[0].name)) {
      InsertSize(ps[1..], p);
      assert ([ps[0]] + Insert(ps[1..], p))[1..] == Insert(ps[1..], p);
    }
  }

  lemma {:induction false} SortSize(ps: seq<Named<Value>>)
    ensures SizeProps(Sort(ps)) == SizeProps(ps)
  {
    hide Size, Insert;
    if ps != [] {
      SortSize(ps[1..]);
      InsertSize(Sort(ps[1..]), ps[0]);
    }
  }

  lemma {:induction false} NormalSize(v: Value)
    ensures Size(Normal(v)) == Size(v)
  {
    match v
    case Arr(items) => NormalSizeAll(items);
    case Obj(props) =>
      NormalSizeProps(props);
      SortSize(NormalProps(props));
    case _ =>
  }

  lemma {:induction false} NormalSizeAll(vs: seq<Value>)
    ensures SizeAll(NormalAll(vs)) == SizeAll(vs)
  {
    if vs != [] {
      NormalSize(vs[0]);
      NormalSizeAll(vs[1..]);
      assert NormalAll(vs)[1..] == NormalAll(vs[1..]);
    }
  }

  lemma {:induction false} NormalSizeProps(ps: seq<Named<Value>>)
    ensures SizeProps(NormalProps(ps)) == SizeProps(ps)
  {
    if ps != [] {
      NormalSize(ps[0].value);
      NormalSizeProps(ps[1..]);
      assert NormalProps(ps)[1..] == NormalProps(ps[1..]);
    }
  }

  /** Documents that are the same have the same size. */
  lemma SameSize(a: Value, b: Value)
    requires WellFormed(a) && WellFormed(b) && Same(a, b)
    ensures Size(a) == Size(b)
  {
    hide Same, WellFormed, Normal, Size;
    NormalDecides(a, b);
    NormalSize(a);
    NormalSize(b);
  }

  lemma {:induction false} SizeConcat(a: seq<Value>, b: seq<Value>)
    ensures SizeAll(a + b) == SizeAll(a) + SizeAll(b)
  {
    hide Size;
    if a == [] {
      assert a + b == b;
    } else {
      assert (a + b)[1..] == a[1..] + b;
      SizeConcat(a[1..], b);
    }
  }

  lemma SizeOne(v: Value)
    ensures SizeAll([v]) == Size(v)
  {
    assert [v][1..] == [];
  }

  predicate NoArray(vs: seq<Value>) {
    forall i :: 0 <= i < |vs| ==> !vs[i].Arr?
  }

  /** Splicing keeps a list without arrays, and shrinks every other one. */
  lemma {:induction false} SplicedShrinks(vs: seq<Value>)
    ensures NoArray(vs) ==> Spliced(vs) == vs
    ensures SizeAll(Spliced(vs)) <= SizeAll(vs)
    ensures !NoArray(vs) ==> SizeAll(Spliced(vs)) < SizeAll(vs)
  {
    if vs != [] {
      var init, last := vs[..|vs| - 1], vs[|vs| - 1];
      assert vs == init + [last];
      SplicedShrinks(init);
      SizeConcat(init, [last]);
      SizeConcat(Spliced(init), Listed(last));
      SizeOne(last);
    }
  }

  lemma {:induction false} SizePropsUpdate(ps: seq<Named<Value>>, i: nat, p: Named<Value>)
    requires i < |ps|
    ensures SizeProps(ps[i := p]) + Size(ps[i].value) == SizeProps(ps) + Size(p.value)
  {
    hide Size;
    if i == 0 {
      assert ps[0 := p][1..] == ps[1..];
    } else {
      assert ps[i := p][1..] == ps[1..][i - 1 := p];
      SizePropsUpdate(ps[1..], i - 1, p);
    }
  }

  lemma {:induction false} SizeAllUpdate(vs: seq<Value>, i: nat, v: Value)
    requires i < |vs|
    ensures SizeAll(vs[i := v]) + Size(vs[i]) == SizeAll(vs) + Size(v)
  {
    hide Size;
    if i == 0 {
      assert vs[0 := v][1..] == vs[1..];
    } else {
      assert vs[i := v][1..] == vs[1..][i - 1 := v];
      SizeAllUpdate(vs[1..], i - 1, v);
    }
  }

  lemma SetSize(v: Value, name: string, x: Value)
    requires Property(v, name).Some?
    ensures Size(SetProperty(v, name, x)) + Size(Property(v, name).value) == Size(v) + Size(x)
  {
    var i := PropIndex(v.props, name);
    SizePropsUpdate(v.props, i, Named(v.props[i].name, x));
  }

  lemma WithSize(doc: Value, k: nat, stmt: Value)
    requires IsPolicy(doc) && k < |Statements(doc)|
    ensures Size(WithStatement(doc, k, stmt)) + Size(Statements(doc)[k]) == Size(doc) + Size(stmt)
  {
    hide SetProperty;
    var s := Property(doc, STATEMENT).value;
    SetSize(doc, STATEMENT, if s.Arr? then Arr(s.items[k := stmt]) else stmt);
    if s.Arr? {
      SizeAllUpdate(s.items, k, stmt);
    }
  }

  lemma WithListSize(doc: Value, k: nat, a: seq<Value>, b: seq<Value>)
    requires IsPolicy(doc) && k < |Statements(doc)| && Property(Statements(doc)[k], RESOURCE).Some?
    ensures Size(WithList(doc, k, a)) + SizeAll(b) == Size(WithList(doc, k, b)) + SizeAll(a)
  {
    hide SetProperty, WithStatement;
    var stmt := Statements(doc)[k];
    SetSize(stmt, RESOURCE, Arr(a));
    SetSize(stmt, RESOURCE, Arr(b));
    WithSize(doc, k, SetProperty(stmt, RESOURCE, Arr(a)));
    WithSize(doc, k, SetProperty(stmt, RESOURCE, Arr(b)));
  }

  /** The same as a document and as its rebuilt form only when there was nothing to splice. */
  lemma SplicedIsNoticed(before: Value, doc: Value, k: nat, list: seq<Value>)
    requires WellFormed(before) && WellFormed(doc) && IsPolicy(doc) && k < |Statements(doc)|
    requires Property(Statements(doc)[k], RESOURCE).Some?
    requires forall i :: 0 <= i < |list| ==> WellFormed(list[i])
    ensures Same(before, WithList(doc, k, list)) && Same(before, WithList(doc, k, Spliced(list))) ==> NoArray(list)
    ensures NoArray(list) ==> Spliced(list) == list
  {
    hide WithList, Same, WellFormed, Spliced, Size;
    SplicedShrinks(list);
    SplicedWellFormed(list);
    WithListWellFormed(doc, k, list);
    WithListWellFormed(doc, k, Spliced(list));
    WithListSize(doc, k, list, Spliced(list));
    if Same(before, WithList(doc, k, list)) && Same(before, WithList(doc, k, Spliced(list))) {
      SameSize(before, WithList(doc, k, list));
      SameSize(before, WithList(doc, k, Spliced(list)));
    }
  }

  lemma PlaceWellFormed(doc: Value, k: nat)
    requires WellFormed(doc) && HasPlace(doc, k, 0)
    ensures WellFormed(Flattened(doc, k))
  {
    hide WellFormed, WithList;
    EntriesWellFormed(doc, k);
    SplicedWellFormed(ResourceList(Statements(doc)[k]));
    WithListWellFormed(doc, k, Spliced(ResourceList(Statements(doc)[k])));
  }

  /** Adding one occurrence to a Resource list of a document without any is accepted exactly when the
      old document is that document with the list spliced: with no array among its entries, exactly
      when nothing else differs; with an array there, never when nothing else differs. */
  lemma {:induction false} AdditionAccepted(before: Value, doc: Value, k: nat, i: nat, entry: Value, arn: Arn)
    requires WellFormed(before) && WellFormed(doc) && WellFormed(entry) && HasPlace(doc, k, i)
    requires Occurrences(doc, arn) == 0 && Hits(entry, arn)
    ensures IsPolicy(Inserted(doc, k, i, entry))
    ensures Accepts(before, Inserted(doc, k, i, entry), arn) <==> Same(before, Flattened(doc, k))
    ensures NoArray(ResourceList(Statements(doc)[k])) ==>
      (Accepts(before, Inserted(doc, k, i, entry), arn) <==> Same(before, doc))
    ensures !NoArray(ResourceList(Statements(doc)[k])) && Same(before, doc) ==>
      !Accepts(before, Inserted(doc, k, i, entry), arn)
  {
    hide Canon, Fold, Same, WellFormed, Hits, TotalHits, Inserted, Removed, Cut, WithList, StatementHits, Spliced;
    var after := Inserted(doc, k, i, entry);
    InsertedOccurrences(doc, k, i, entry, arn);
    RemoveUndoesInsert(doc, k, i, entry);
    assert HitAt(after, arn, k, i);
    OnlyPlace(after, arn, k, i);
    PlaceWellFormed(doc, k);
    CanonicalTextDecides(before, Flattened(doc, k));
    var list := ResourceList(Statements(doc)[k]);
    EntriesWellFormed(doc, k);
    WithListTwice(doc, k, list, list);
    SplicedIsNoticed(before, doc, k, list);
  }

  /** What the guard takes for the ARN in a list of plain entries: the ARN in any letter case; the
      literal `true`, because of how -eq converts its right side; and an array that holds the ARN
      among anything else, because -eq filters an array. */
  lemma {:induction false} TakenForTheArn(doc: Value, k: nat, i: nat, arn: Arn, others: seq<Value>)
    requires WellFormed(doc) && HasPlace(doc, k, i) && Occurrences(doc, arn) == 0
    requires NoArray(ResourceList(Statements(doc)[k])) && WellFormed(Arr(others))
    ensures IsPolicy(Inserted(doc, k, i, Str(arn))) && Accepts(doc, Inserted(doc, k, i, Str(arn)), arn)
    ensures IsPolicy(Inserted(doc, k, i, Bool(true))) && Accepts(doc, Inserted(doc, k, i, Bool(true)), arn)
    ensures var more := Arr([Str(arn)] + others);
      IsPolicy(Inserted(doc, k, i, more)) && Accepts(doc, Inserted(doc, k, i, more), arn)
  {
    hide Accepts, Inserted, Occurrences, HasPlace, Flattened;
    SameAsItself(doc);
    AdditionAccepted(doc, doc, k, i, Str(arn), arn);
    AdditionAccepted(doc, doc, k, i, Bool(true), arn);
    assert ([Str(arn)] + others)[0] == Str(arn);
    AdditionAccepted(doc, doc, k, i, Arr([Str(arn)] + others), arn);
  }

  /** Letter case is lost, although resource names are case sensitive: any spelling of the ARN passes as
      the addition, and an entry next to it may change its case unnoticed. */
  lemma {:induction false} OtherCaseIsTaken(x: string, x': string, arn: Arn, arn': string)
    requires Fold(arn') == Fold(arn) && Fold(x') == Fold(x) != Fold(arn)
    ensures var after := Single([Str(arn'), Str(x')]);
      IsPolicy(after) && Accepts(Single([Str(x)]), after, arn)
    ensures Fold("arn:Key") == Fold("arn:key") && "arn:Key" != "arn:key"
  {
    hide Accepts, Same, WithList;
    var doc, after := Single([Str(x')]), Single([Str(arn'), Str(x')]);
    SingleReads([Str(x')]);
    SingleWellFormed([Str(x)]);
    SingleWellFormed([Str(x')]);
    SingleInserted([Str(x')], [Str(arn')] + [Str(x')]);
    assert [Str(x')][..0] + [Str(arn')] + [Str(x')][0..] == [Str(arn')] + [Str(x')] == [Str(arn'), Str(x')];
    NoHitHere([Str(x')], arn);
    SingleSame(x, x');
    AdditionAccepted(Single([Str(x)]), doc, 0, 0, Str(arn'), arn);
    assert Fold("arn:Key") == Fold("arn:key") by {
      assert forall i :: 0 <= i < 7 ==> Fold("arn:Key")[i] == Fold("arn:key")[i];
    }
    assert "arn:Key"[4] != "arn:key"[4];
  }

  lemma SingleSame(x: string, x': string)
    requires Fold(x') == Fold(x)
    ensures Same(Single([Str(x)]), Single([Str(x')]))
  {
    var list, list' := Arr([Str(x)]), Arr([Str(x')]);
    assert Same(list, list');
    OnePropSame(RESOURCE, list, list');
    var stmt, stmt' := Obj([Named(RESOURCE, list)]), Obj([Named(RESOURCE, list')]);
    assert Same(Arr([stmt]), Arr([stmt']));
    OnePropSame(STATEMENT, Arr([stmt]), Arr([stmt']));
  }

  lemma OnePropSame(name: string, v: Value, v': Value)
    requires Same(v, v')
    ensures Same(Obj([Named(name, v)]), Obj([Named(name, v')]))
  {
    var p, p' := Named(name, v), Named(name, v');
    assert SameProp(p, p');
    assert SameProp(p, [p'][0]) && SameProp([p][0], p');
    assert HasMatch(p, [p']) && IsMatched([p], p');
  }

  lemma SameAsItself(v: Value)
    requires WellFormed(v)
    ensures Same(v, v)
  {
    NormalDecides(v, v);
  }

  /** A policy of one statement with this Resource list. */
  function Single(list: seq<Value>): Value {
    Obj([Named(STATEMENT, Arr([Obj([Named(RESOURCE, Arr(list))])]))])
  }

  lemma SingleReads(list: seq<Value>)
    ensures IsPolicy(Single(list)) && Statements(Single(list)) == [Obj([Named(RESOURCE, Arr(list))])]
    ensures ResourceList(Statements(Single(list))[0]) == list && HasPlace(Single(list), 0, 0)
  {
  }

  lemma SingleInserted(list: seq<Value>, longer: seq<Value>)
    requires |Statements(Single(list))| == 1 && Property(Statements(Single(list))[0], RESOURCE).Some?
    ensures WithList(Single(list), 0, longer) == Single(longer)
  {
    var before, after := Named(RESOURCE, Arr(list)), Named(RESOURCE, Arr(longer));
    assert PropIndex([before], RESOURCE) == 0 && [before][0 := after] == [after];
    var a, b := Obj([before]), Obj([after]);
    assert SetProperty(a, RESOURCE, Arr(longer)) == b;
    var p, q := Named(STATEMENT, Arr([a])), Named(STATEMENT, Arr([b]));
    assert PropIndex([p], STATEMENT) == 0 && [p][0 := q] == [q] && [a][0 := b] == [b];
  }

  /** Concrete inputs where the rebuild goes wrong: with `["x", "y"]` as an entry of its own, adding
      the ARN in front of it is rejected, and accepted against a list that held x and y separately. */
  lemma NestedListGoesWrong(x: string, y: string, arn: Arn)
    requires Fold(x) != Fold(arn) && Fold(y) != Fold(arn)
    ensures var after := Single([Str(arn), Arr([Str(x), Str(y)])]);
      && IsPolicy(after)
      && Accepts(Single([Str(x), Str(y)]), after, arn)
      && !Accepts(Single([Arr([Str(x), Str(y)])]), after, arn)
  {
    hide Accepts, Fold, Same, WithList;
    var inner := [Str(x), Str(y)];
    var list: seq<Value> := [Arr(inner)];
    var doc := Single(list);
    SingleReads(list);
    SingleWellFormed(list);
    SingleWellFormed(inner);
    SingleInserted(list, [Str(arn)] + list);
    SingleInserted(list, inner);
    assert list[..0] + [Str(arn)] + list[0..] == [Str(arn)] + list == [Str(arn), Arr(inner)];
    assert Spliced(list) == inner by {
      assert list[..0] == [] && Spliced([]) == [] && [] + inner == inner;
    }
    NoHitHere(list, arn);
    SameAsItself(Single(inner));
    SameAsItself(doc);
    AdditionAccepted(Single(inner), doc, 0, 0, Str(arn), arn);
    AdditionAccepted(doc, doc, 0, 0, Str(arn), arn);
    assert list[0].Arr?;
  }

  lemma SingleWellFormed(list: seq<Value>)
    requires forall i :: 0 <= i < |list| ==>
      list[i].Str? || (list[i].Arr? && forall j :: 0 <= j < |list[i].items| ==> list[i].items[j].Str?)
    ensures WellFormed(Single(list))
  {
    ArrWellFormed(list);
    var stmt := Obj([Named(RESOURCE, Arr(list))]);
    assert WellFormed(stmt);
    ArrWellFormed([stmt]);
  }

  lemma NoHitHere(list: seq<Value>, arn: Arn)
    requires |list| == 1 && !Hits(list[0], arn)
    ensures IsPolicy(Single(list)) && Occurrences(Single(list), arn) == 0
  {
    hide Hits;
    var stmt := Obj([Named(RESOURCE, Arr(list))]);
    SingleReads(list);
    assert list[..0] == [] && HitCount(list, arn) == 0;
    assert [stmt][..0] == [] && TotalHits([stmt], arn) == StatementHits(stmt, arn);
  }

  /** The entry is the approved ARN itself, and without it the new document is the old one. */
  predicate ArnAddedAt(before: Value, after: Value, arn: Arn, k: nat, i: nat)
    requires IsPolicy(after)
  {
    && HitAt(after, arn, k, i) && ResourceList(Statements(after)[k])[i].Str?
    && Same(before, Cut(after, k, i))
  }

  /** What the guard is for: exactly the approved ARN was added to one list, or it is the whole of one
      Resource and nothing changed. */
  ghost predicate OnlyTheArn(before: Value, after: Value, arn: Arn)
    requires IsPolicy(after)
  {
    (NoListHit(after, arn) && Same(before, after)) || exists k, i :: ArnAddedAt(before, after, arn, k, i)
  }

  /** No array and no literal `true` among the entries of the list that holds the occurrence. */
  predicate PlainList(after: Value, arn: Arn)
    requires IsPolicy(after)
  {
    var k := FirstStatement(Statements(after), arn);
    k < |Statements(after)| ==>
      var list := ResourceList(Statements(after)[k]);
      NoArray(list) && forall i :: 0 <= i < |list| ==> list[i] != Bool(true)
  }

  lemma PlainHitIsStr(list: seq<Value>, arn: Arn, i: nat)
    requires i < |list| && Hits(list[i], arn) && NoArray(list) && list[i] != Bool(true)
    ensures list[i].Str?
  {
  }

  lemma TrueHits(arn: Arn)
    ensures Hits(Bool(true), arn) && !Bool(true).Str?
  {
  }

  lemma WithoutEntries(list: seq<Value>, i: nat)
    requires i < |list|
    ensures forall j :: 0 <= j < |list| && j != i ==> list[j] in Without(list, i)
    ensures forall j :: 0 <= j < |Without(list, i)| ==> Without(list, i)[j] in list
  {
    var rest := Without(list, i);
    forall j | 0 <= j < |list| && j != i
      ensures list[j] in rest
    {
      assert rest[if j < i then j else j - 1] == list[j];
    }
  }

  /** Next to the inserted string there is no array, and nowhere a literal `true`. */
  lemma PlainAround(list: seq<Value>, arn: Arn, i: nat)
    requires i < |list| && list[i].Str? && NoArray(Without(list, i))
    requires forall j :: 0 <= j < |list| && Hits(list[j], arn) ==> j == i
    ensures NoArray(list) && forall j :: 0 <= j < |list| ==> list[j] != Bool(true)
  {
    hide Hits;
    WithoutEntries(list, i);
    TrueHits(arn);
    assert forall j :: 0 <= j < |list| ==> j == i || !list[j].Arr?;
  }

  /** For the one occurrence: an exact addition of the string is one into a plain list. */
  lemma ExactPlace(before: Value, after: Value, arn: Arn, k: nat, i: nat)
    requires WellFormed(before) && WellFormed(after) && IsPolicy(after) && Occurrences(after, arn) == 1
    requires HitAt(after, arn, k, i) && Same(before, Removed(after, k, i))
    ensures ArnAddedAt(before, after, arn, k, i) <==> PlainList(after, arn)
  {
    hide Same, WellFormed, WithList, Hits, Spliced, TotalHits, Occurrences, Without, NoArray, Statements;
    OnlyPlace(after, arn, k, i);
    var list := ResourceList(Statements(after)[k]);
    EntriesWellFormed(after, k);
    SomeWellFormed(list, i);
    ListHasProperty(Statements(after)[k]);
    SplicedIsNoticed(before, after, k, Without(list, i));
    if ArnAddedAt(before, after, arn, k, i) {
      forall j | 0 <= j < |list| && Hits(list[j], arn)
        ensures j == i
      {
        assert HitAt(after, arn, k, j);
        OnlyPlace(after, arn, k, j);
      }
      PlainAround(list, arn, i);
    }
    if PlainList(after, arn) {
      PlainHitIsStr(list, arn, i);
      PlainRest(list, i);
    }
  }

  lemma SomeWellFormed(list: seq<Value>, i: nat)
    requires i < |list| && forall j :: 0 <= j < |list| ==> WellFormed(list[j])
    ensures forall j :: 0 <= j < |Without(list, i)| ==> WellFormed(Without(list, i)[j])
  {
    hide WellFormed;
  }

  lemma PlainRest(list: seq<Value>, i: nat)
    requires i < |list| && NoArray(list)
    ensures NoArray(Without(list, i))
  {
  }

  /** The exact condition under which acceptance means that only the approved ARN was added: the list
      that holds the occurrence has no array and no literal `true` among its entries. Under that
      condition the guard accepts every such addition, and nothing else. */
  lemma {:induction false} AcceptsOnlyTheArn(before: Value, after: Value, arn: Arn)
    requires WellFormed(before) && WellFormed(after) && IsPolicy(after)
    ensures Accepts(before, after, arn) ==> (OnlyTheArn(before, after, arn) <==> PlainList(after, arn))
    ensures Occurrences(after, arn) == 1 && PlainList(after, arn) ==>
      (Accepts(before, after, arn) <==> OnlyTheArn(before, after, arn))
  {
    hide Accepts, Same, WellFormed, Removed, Cut, Hits, TotalHits, PlainList, NoListHit, ArnAddedAt;
    AcceptanceMeans(before, after, arn);
    var stmts := Statements(after);
    var k := FirstStatement(stmts, arn);
    if Occurrences(after, arn) == 1 {
      if k < |stmts| {
        var i := FirstHit(ResourceList(stmts[k]), arn);
        assert HitAt(after, arn, k, i);
        OneListHit(before, after, arn, k, i);
      } else {
        NoListCase(before, after, arn);
      }
    }
  }

  lemma NoListCase(before: Value, after: Value, arn: Arn)
    requires IsPolicy(after) && FirstStatement(Statements(after), arn) == |Statements(after)|
    ensures PlainList(after, arn) && NoListHit(after, arn)
    ensures forall k, i :: !HitAt(after, arn, k, i) && !ArnAddedAt(before, after, arn, k, i)
  {
    hide Hits, Same;
  }

  lemma OneListHit(before: Value, after: Value, arn: Arn, k: nat, i: nat)
    requires WellFormed(before) && WellFormed(after) && IsPolicy(after)
    requires Occurrences(after, arn) == 1 && HitAt(after, arn, k, i)
    ensures !NoListHit(after, arn)
    ensures forall l, j :: HitAt(after, arn, l, j) || ArnAddedAt(before, after, arn, l, j) ==> l == k && j == i
    ensures Same(before, Removed(after, k, i)) ==> (ArnAddedAt(before, after, arn, k, i) <==> PlainList(after, arn))
    ensures PlainList(after, arn) && ArnAddedAt(before, after, arn, k, i) ==> Same(before, Removed(after, k, i))
  {
    hide Hits, Same, WellFormed, TotalHits, WithList, Spliced;
    forall l, j | HitAt(after, arn, l, j) || ArnAddedAt(before, after, arn, l, j)
      ensures l == k && j == i
    {
      OnlyPlace(after, arn, l, j);
      OnlyPlace(after, arn, k, i);
    }
    if Same(before, Removed(after, k, i)) {
      ExactPlace(before, after, arn, k, i);
    }
    OnlyPlace(after, arn, k, i);
    PlainRemoval(after, arn, k, i);
  }

  lemma PlainRemoval(after: Value, arn: Arn, k: nat, i: nat)
    requires IsPolicy(after) && HitAt(after, arn, k, i) && FirstStatement(Statements(after), arn) == k
    ensures PlainList(after, arn) ==> Removed(after, k, i) == Cut(after, k, i)
  {
    hide Hits, WithList, Statements, NoArray, Without, Spliced;
    if PlainList(after, arn) {
      var list := ResourceList(Statements(after)[k]);
      PlainRest(list, i);
      SplicedShrinks(Without(list, i));
    }
  }

  // The same as the loops the script runs.

  method CountInList(list: seq<Value>, arn: Arn) returns (n: nat)
    ensures n == HitCount(list, arn)
  {
    n := 0;
    for i := 0 to |list|
      invariant n == HitCount(list[..i], arn)
    {
      assert list[..i + 1][..i] == list[..i];
      if Hits(list[i], arn) {
        n := n + 1;
      }
    }
    assert list[..|list|] == list;
  }

  method CountOccurrences(stmts: seq<Value>, arn: Arn) returns (total: nat)
    ensures total == TotalHits(stmts, arn)
  {
    hide HitCount;
    total := 0;
    for k := 0 to |stmts|
      invariant total == TotalHits(stmts[..k], arn)
    {
      assert stmts[..k + 1][..k] == stmts[..k];
      var r := Property(stmts[k], RESOURCE);
      if r.None? {
        continue;
      }
      if r.value.Str? {
        if Fold(r.value.s) == Fold(arn) {
          total := total + 1;
        }
        continue;
      }
      var n := CountInList(Listed(r.value), arn);
      total := total + n;
    }
    assert stmts[..|stmts|] == stmts;
  }

  method FindHit(list: seq<Value>, arn: Arn) returns (i: nat)
    ensures i == FirstHit(list, arn)
  {
    hide Hits;
    i := 0;
    while i < |list|
      invariant i <= |list| && forall j :: 0 <= j < i ==> !Hits(list[j], arn)
    {
      if Hits(list[i], arn) {
        return;
      }
      i := i + 1;
    }
  }

  /** The search for the one list to rebuild: a statement, and the place in its Resource list. */
  method FindPlace(stmts: seq<Value>, arn: Arn) returns (k: nat, i: nat)
    ensures k == FirstStatement(stmts, arn)
    ensures k < |stmts| ==> i == FirstHit(ResourceList(stmts[k]), arn)
  {
    hide Hits, ResourceList, FirstHit;
    k, i := 0, 0;
    while k < |stmts|
      invariant k <= |stmts|
      invariant forall j :: 0 <= j < k ==> FirstHit(ResourceList(stmts[j]), arn) == |ResourceList(stmts[j])|
    {
      i := FindHit(ResourceList(stmts[k]), arn);
      if i < |ResourceList(stmts[k])| {
        return;
      }
      k := k + 1;
    }
  }

  lemma ListHasProperty(stmt: Value)
    ensures ResourceList(stmt) != [] ==> Property(stmt, RESOURCE).Some?
  {
  }

  /** The loop that rebuilds the list around the one entry. */
  method Rebuild(list: seq<Value>, index: nat) returns (reduced: seq<Value>)
    requires index < |list|
    ensures reduced == Spliced(Without(list, index))
  {
    hide Listed;
    reduced := [];
    ghost var kept: seq<Value> := [];
    for i := 0 to |list|
      invariant kept == list[..if i <= index then i else index] + (if i <= index then [] else list[index + 1..i])
      invariant reduced == Spliced(kept)
    {
      if i != index {
        assert (kept + [list[i]])[..|kept|] == kept;
        kept := kept + [list[i]];
        reduced := reduced + Listed(list[i]);
      }
    }
    assert kept == Without(list, index);
  }

  /** Remove-SingleArnOccurrence: count everything first, then rebuild the one list. */
  method RemoveSingleArnOccurrence(doc: Value, arn: Arn) returns (clone: Option<Value>)
    requires IsPolicy(doc)
    ensures clone == Reduced(doc, arn)
  {
    hide Hits, WithList, TotalHits, ResourceList, Spliced;
    var stmts := Statements(doc);
    var total := CountOccurrences(stmts, arn);
    if total != 1 {
      return None;
    }
    var k, i := FindPlace(stmts, arn);
    if k < |stmts| {
      ListHasProperty(stmts[k]);
      var reduced := Rebuild(ResourceList(stmts[k]), i);
      return Some(WithList(doc, k, reduced));
    }
    return Some(doc);
  }

  /** A Details entry: the two texts it carries, either of which may be missing. */
  datatype Detail = Detail(before: Option<string>, after: Option<string>)

  /** ConvertFrom-PoliciesText, given the JSON parser. */
  function Policy(text: string, parse: string -> Option<Value>): Option<Value> {
    var v := parse(text);
    if v.Some? && IsPolicy(v.value) then v else None
  }

  predicate IsCandidate(d: Detail, parse: string -> Option<Value>) {
    d.before.Some? && d.after.Some? && Policy(d.before.value, parse).Some? && Policy(d.after.value, parse).Some?
  }

  function Candidates(ds: seq<Detail>, parse: string -> Option<Value>): (r: seq<Detail>)
    ensures forall d :: d in r <==> d in ds && IsCandidate(d, parse)
  {
    if ds == [] then [] else
      Candidates(ds[..|ds| - 1], parse) + (if IsCandidate(ds[|ds| - 1], parse) then [ds[|ds| - 1]] else [])
  }

  /** Assert-InstanceRoleChangeIsAuthParityOnly returns without throwing. */
  predicate Passes(ds: seq<Detail>, arn: Arn, parse: string -> Option<Value>) {
    var cs := Candidates(ds, parse);
    |cs| == 1 && cs[0] in cs && Accepts(parse(cs[0].before.value).value, parse(cs[0].after.value).value, arn)
  }

  method AssertInstanceRoleChangeIsAuthParityOnly(ds: seq<Detail>, arn: Arn, parse: string -> Option<Value>)
    returns (ok: bool)
    ensures ok == Passes(ds, arn, parse)
  {
    hide Accepts, Reduced, IsCandidate;
    var candidates: seq<Detail> := [];
    for n := 0 to |ds|
      invariant candidates == Candidates(ds[..n], parse)
    {
      assert ds[..n + 1][..n] == ds[..n];
      if IsCandidate(ds[n], parse) {
        candidates := candidates + [ds[n]];
      }
    }
    assert ds[..|ds|] == ds;
    if |candidates| != 1 {
      return false;
    }
    assert candidates[0] in candidates;
    assert IsCandidate(candidates[0], parse);
    BothParse(candidates[0], parse);
    var before, after := parse(candidates[0].before.value).value, parse(candidates[0].after.value).value;
    var reduced := RemoveSingleArnOccurrence(after, arn);
    ok := reduced.Some? && Fold(Canon(before)) == Fold(Canon(reduced.value));
    AcceptsIs(before, after, arn);
  }

  lemma BothParse(d: Detail, parse: string -> Option<Value>)
    requires IsCandidate(d, parse)
    ensures d.before.Some? && d.after.Some? && parse(d.before.value).Some? && parse(d.after.value).Some?
    ensures IsPolicy(parse(d.after.value).value)
  {
  }

  lemma AcceptsIs(before: Value, after: Value, arn: Arn)
    requires IsPolicy(after)
    ensures Accepts(before, after, arn) <==>
      Reduced(after, arn).Some? && Fold(Canon(before)) == Fold(Canon(Reduced(after, arn).value))
  {
  }
}
