/** The canonical printer behind the change-set comparison (Invoke-PatriotPot.ps1:1254-1284), and
    what equality of its output decides. */
module CanonicalJson {
  import opened Letters

  datatype Named<T> = Named(name: string, value: T)

  /** What ConvertFrom-Json yields; a number is kept as the text "$Value" gives it. */
  datatype Value = Null | Bool(b: bool) | Num(text: string) | Str(s: string)
                 | Arr(items: seq<Value>) | Obj(props: seq<Named<Value>>)

  /** How -eq and -ne read a string: letter case does not matter. */
  function Fold(s: string): (r: string)
    ensures |r| == |s| && forall i :: 0 <= i < |r| ==> r[i] == Lower(s[i])
  {
    seq(|s|, i requires 0 <= i < |s| => Lower(s[i]))
  }

  lemma FoldConcat(a: string, b: string)
    ensures Fold(a + b) == Fold(a) + Fold(b)
  {
  }

  lemma FoldTwice(s: string)
    ensures Fold(Fold(s)) == Fold(s)
  {
  }

  /** The sort order of names: alphabetical, letter case ignored. */
  predicate Before(s: string, t: string) {
    s == [] || (t != [] && (s[0] < t[0] || (s[0] == t[0] && Before(s[1..], t[1..]))))
  }

  lemma {:induction false} BeforeTotal(s: string, t: string)
    ensures Before(s, t) || Before(t, s)
    ensures Before(s, t) && Before(t, s) ==> s == t
    ensures s == t ==> Before(s, t)
  {
    if s != [] && t != [] && s[0] == t[0] {
      BeforeTotal(s[1..], t[1..]);
      assert s == [s[0]] + s[1..] && t == [t[0]] + t[1..];
    }
  }

  lemma {:induction false} BeforeTransitive(s: string, t: string, u: string)
    requires Before(s, t) && Before(t, u)
    ensures Before(s, u)
  {
    if s != [] && s[0] == t[0] == u[0] {
      BeforeTransitive(s[1..], t[1..], u[1..]);
    }
  }

  function Insert<T>(sorted: seq<Named<T>>, x: Named<T>): seq<Named<T>> {
    if sorted == [] || Before(Fold(x.name), Fold(sorted[0].name)) then [x] + sorted
    else [sorted[0]] + Insert(sorted[1..], x)
  }

  /** Sort-Object on the property names. */
  function Sort<T>(items: seq<Named<T>>): seq<Named<T>> {
    if items == [] then [] else Insert(Sort(items[1..]), items[0])
  }

  /** String.Replace of one character by itself after a backslash. */
  function Replace(s: string, c: char): string {
    if s == [] then "" else (if s[0] == c then ['\\', c] else [s[0]]) + Replace(s[1..], c)
  }

  function Quoted(s: string): string {
    "\"" + Replace(Replace(s, '\\'), '"') + "\""
  }

  function Joined(parts: seq<string>): string {
    if parts == [] then "" else if |parts| == 1 then parts[0] else parts[0] + "," + Joined(parts[1..])
  }

  function Members(parts: seq<Named<string>>): seq<string> {
    if parts == [] then [] else [Quoted(parts[0].name) + ":" + parts[0].value] + Members(parts[1..])
  }

  /** ConvertTo-CanonicalJson */
  function Canon(v: Value): string {
    match v
    case Null => "null"
    case Str(s) => Quoted(s)
    case Bool(b) => if b then "true" else "false"
    case Obj(props) => "{" + Joined(Members(Sort(CanonProps(props)))) + "}"
    case Arr(items) => "[" + Joined(CanonAll(items)) + "]"
    case Num(text) => text
  }

  function CanonAll(vs: seq<Value>): (r: seq<string>)
    ensures |r| == |vs|
  {
    if vs == [] then [] else [Canon(vs[0])] + CanonAll(vs[1..])
  }

  function CanonProps(ps: seq<Named<Value>>): (r: seq<Named<string>>)
    ensures |r| == |ps|
  {
    if ps == [] then [] else [Named(ps[0].name, Canon(ps[0].value))] + CanonProps(ps[1..])
  }

  predicate NumChar(c: char) {
    '0' <= c <= '9' || c in "+-.eE"
  }

  predicate NumText(t: string) {
    t != [] && ('0' <= t[0] <= '9' || t[0] == '-') && forall i :: 0 <= i < |t| ==> NumChar(t[i])
  }

  predicate UniqueNames<T>(ps: seq<Named<T>>) {
    forall i, j :: 0 <= i < j < |ps| ==> Fold(ps[i].name) != Fold(ps[j].name)
  }

  /** A parsed document: numbers print as numbers, and no object has one name twice in any
      letter case, which PowerShell objects cannot. */
  predicate WellFormed(v: Value) {
    match v
    case Num(text) => NumText(text)
    case Arr(items) => forall i :: 0 <= i < |items| ==> WellFormed(items[i])
    case Obj(props) => UniqueNames(props) && forall i :: 0 <= i < |props| ==> WellFormed(props[i].value)
    case _ => true
  }

  /** Equal trees, except that the order of an object's properties and letter case do not count. */
  predicate Same(a: Value, b: Value)
    decreases a, 0
  {
    match (a, b)
    case (Null, Null) => true
    case (Bool(x), Bool(y)) => x == y
    case (Num(x), Num(y)) => Fold(x) == Fold(y)
    case (Str(x), Str(y)) => Fold(x) == Fold(y)
    case (Arr(x), Arr(y)) => |x| == |y| && forall i :: 0 <= i < |x| ==> Same(x[i], y[i])
    case (Obj(x), Obj(y)) =>
      && (forall i :: 0 <= i < |x| ==> HasMatch(x[i], y))
      && (forall j :: 0 <= j < |y| ==> IsMatched(x, y[j]))
    case _ => false
  }

  predicate SameProp(p: Named<Value>, q: Named<Value>)
    decreases p, 0
  {
    Fold(p.name) == Fold(q.name) && Same(p.value, q.value)
  }

  predicate HasMatch(p: Named<Value>, qs: seq<Named<Value>>)
    decreases p, 1
  {
    exists j :: 0 <= j < |qs| && SameProp(p, qs[j])
  }

  predicate IsMatched(ps: seq<Named<Value>>, q: Named<Value>)
    decreases ps, 1
  {
    exists i :: 0 <= i < |ps| && SameProp(ps[i], q)
  }
}
