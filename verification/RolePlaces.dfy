/** Which places of a policy document the role guard counts (Invoke-PatriotPot.ps1:1311-1346), said
    without its loops: a Resource that is one string, or an entry of a Resource list. */
module RolePlaces {
  import opened Options
  import opened CanonicalJson
  import opened CanonicalEquality
  import opened RoleGuard

  datatype Place = Whole(k: nat) | Entry(k: nat, i: nat)

  /** The k-th statement: of an array, or the one object that stands for itself. */
  function StatementAt(doc: Value, k: nat): Option<Value> {
    match Property(doc, "Statement")
    case None => None
    case Some(Arr(items)) => if k < |items| then Some(items[k]) else None
    case Some(one) => if k == 0 then Some(one) else None
  }

  /** The approved ARN in any letter case, or the literal `true`. */
  predicate Equals(v: Value, arn: Arn) {
    v == Bool(true) || (v.Str? && Fold(v.s) == Fold(arn))
  }

  /** An equal entry, or an array with an equal entry. */
  predicate EqualEntry(v: Value, arn: Arn) {
    Equals(v, arn) || (v.Arr? && exists j :: 0 <= j < |v.items| && Equals(v.items[j], arn))
  }

  /** Where the ARN stands in a document. */
  predicate IsPlace(doc: Value, arn: Arn, p: Place) {
    StatementAt(doc, p.k).Some? &&
    match Property(StatementAt(doc, p.k).value, "Resource")
    case None => false
    case Some(Str(s)) => p.Whole? && Fold(s) == Fold(arn)
    case Some(Arr(items)) => p.Entry? && p.i < |items| && EqualEntry(items[p.i], arn)
    case Some(other) => p.Entry? && p.i == 0 && other == Bool(true)
  }

  predicate Distinct(ps: seq<Place>) {
    forall a, b :: 0 <= a < b < |ps| ==> ps[a] != ps[b]
  }

  function ListPlaces(k: nat, vs: seq<Value>, arn: Arn): seq<Place> {
    if vs == [] then [] else
      var n := |vs| - 1;
      ListPlaces(k, vs[..n], arn) + (if Hits(vs[n], arn) then [Entry(k, n)] else [])
  }

  function StatementPlaces(k: nat, stmt: Value, arn: Arn): seq<Place> {
    match Property(stmt, RESOURCE)
    case None => []
    case Some(r) =>
      if !r.Str? then ListPlaces(k, Listed(r), arn) else if Fold(r.s) == Fold(arn) then [Whole(k)] else []
  }

  function AllPlaces(stmts: seq<Value>, arn: Arn): seq<Place> {
    if stmts == [] then [] else
      var n := |stmts| - 1;
      AllPlaces(stmts[..n], arn) + StatementPlaces(n, stmts[n], arn)
  }

  lemma HitsEqual(v: Value, arn: Arn)
    ensures Hits(v, arn) <==> EqualEntry(v, arn)
  {
    if v.Arr? {
      assert forall j :: 0 <= j < |v.items| ==> (ScalarEquals(v.items[j], arn) <==> Equals(v.items[j], arn));
    }
  }

  lemma {:induction false} ListPlacesAre(k: nat, vs: seq<Value>, arn: Arn)
    ensures var ps := ListPlaces(k, vs, arn);
      && |ps| == HitCount(vs, arn) && Distinct(ps)
      && forall p :: p in ps <==> p.Entry? && p.k == k && p.i < |vs| && Hits(vs[p.i], arn)
  {
    hide Hits;
    if vs != [] {
      ListPlacesAre(k, vs[..|vs| - 1], arn);
    }
  }

  lemma {:induction false} AllPlacesAre(stmts: seq<Value>, arn: Arn)
    ensures var ps := AllPlaces(stmts, arn);
      && |ps| == TotalHits(stmts, arn) && Distinct(ps)
      && forall p :: p in ps <==> p.k < |stmts| && p in StatementPlaces(p.k, stmts[p.k], arn)
  {
    hide StatementPlaces, StatementHits;
    if stmts != [] {
      var n := |stmts| - 1;
      AllPlacesAre(stmts[..n], arn);
      StatementPlacesAre(n, stmts[n], arn);
    }
  }

  lemma StatementPlacesAre(k: nat, stmt: Value, arn: Arn)
    ensures var ps := StatementPlaces(k, stmt, arn);
      && |ps| == StatementHits(stmt, arn) && Distinct(ps) && forall p :: p in ps ==> p.k == k
  {
    hide Hits, ListPlaces, HitCount;
    if Property(stmt, RESOURCE).Some? {
      ListPlacesAre(k, Listed(Property(stmt, RESOURCE).value), arn);
    }
  }

  lemma StatementsAre(doc: Value, k: nat)
    requires IsPolicy(doc)
    ensures StatementAt(doc, k) == if k < |Statements(doc)| then Some(Statements(doc)[k]) else None
  {
  }

  lemma PlaceOf(doc: Value, arn: Arn, p: Place)
    requires IsPolicy(doc)
    ensures IsPlace(doc, arn, p) <==>
      p.k < |Statements(doc)| && p in StatementPlaces(p.k, Statements(doc)[p.k], arn)
  {
    hide Hits, EqualEntry, ListPlaces, Statements, StatementAt;
    StatementsAre(doc, p.k);
    if p.k < |Statements(doc)| && Property(Statements(doc)[p.k], RESOURCE).Some? {
      var r := Property(Statements(doc)[p.k], RESOURCE).value;
      ListPlacesAre(p.k, Listed(r), arn);
      if p.Entry? && p.i < |Listed(r)| {
        HitsEqual(Listed(r)[p.i], arn);
        LoneEntry(r, arn);
      }
    }
  }

  lemma LoneEntry(r: Value, arn: Arn)
    ensures !r.Str? && !r.Arr? ==> (EqualEntry(r, arn) <==> r == Bool(true))
  {
  }

  lemma EntryIsHit(doc: Value, arn: Arn, k: nat, i: nat)
    requires IsPolicy(doc)
    ensures IsPlace(doc, arn, Entry(k, i)) <==> HitAt(doc, arn, k, i)
  {
    hide Hits, EqualEntry, Statements, StatementAt;
    StatementsAre(doc, k);
    if k < |Statements(doc)| && i < |ResourceList(Statements(doc)[k])| {
      HitsEqual(ResourceList(Statements(doc)[k])[i], arn);
      LoneEntry(ResourceList(Statements(doc)[k])[i], arn);
    }
  }

  /** The count is the number of places: some list names each place once and has that length. */
  lemma {:induction false} OccurrencesArePlaces(doc: Value, arn: Arn)
    requires IsPolicy(doc)
    ensures exists ps :: |ps| == Occurrences(doc, arn) && Distinct(ps) && forall p :: p in ps <==> IsPlace(doc, arn, p)
  {
    hide IsPlace, StatementPlaces, TotalHits, AllPlaces;
    var ps := AllPlaces(Statements(doc), arn);
    AllPlacesAre(Statements(doc), arn);
    forall p
      ensures p in ps <==> IsPlace(doc, arn, p)
    {
      PlaceOf(doc, arn, p);
    }
  }

  /** This place, and no other. */
  ghost predicate OnlyAt(doc: Value, arn: Arn, p: Place) {
    IsPlace(doc, arn, p) && forall q :: IsPlace(doc, arn, q) ==> q == p
  }

  lemma OneIsOnly(doc: Value, arn: Arn)
    requires IsPolicy(doc)
    ensures Occurrences(doc, arn) == 1 <==> exists p :: OnlyAt(doc, arn, p)
  {
    hide IsPlace, Occurrences;
    OccurrencesArePlaces(doc, arn);
    var ps :| |ps| == Occurrences(doc, arn) && Distinct(ps) && forall p :: p in ps <==> IsPlace(doc, arn, p);
    if |ps| == 1 {
      assert OnlyAt(doc, arn, ps[0]);
    }
    if |ps| >= 2 {
      TwoPlaces(ps);
    }
  }

  lemma TwoPlaces(ps: seq<Place>)
    requires Distinct(ps) && |ps| >= 2
    ensures exists p, q :: p in ps && q in ps && p != q
  {
    assert ps[0] in ps && ps[1] in ps;
  }

  /** What the guard accepts, place by place: a new document in which the ARN stands at exactly one place,
      and which is the old one if that place is the whole of a Resource, or becomes the old one when that
      list entry is removed. So two places of either kind are always refused. */
  lemma {:induction false} AcceptsOnePlace(before: Value, after: Value, arn: Arn)
    requires WellFormed(before) && WellFormed(after) && IsPolicy(after)
    ensures Accepts(before, after, arn) <==>
      || (exists k :: OnlyAt(after, arn, Whole(k)) && Same(before, after))
      || (exists k, i :: OnlyAt(after, arn, Entry(k, i)) && HitAt(after, arn, k, i)
                         && Same(before, Removed(after, k, i)))
    ensures forall p, q :: p != q && IsPlace(after, arn, p) && IsPlace(after, arn, q) ==> !Accepts(before, after, arn)
  {
    hide Accepts, Same, WellFormed, IsPlace, HitAt, Removed, Occurrences;
    AcceptanceMeans(before, after, arn);
    OneIsOnly(after, arn);
    NoEntry(after, arn);
    forall k, i
      ensures IsPlace(after, arn, Entry(k, i)) <==> HitAt(after, arn, k, i)
    {
      EntryIsHit(after, arn, k, i);
    }
    if Occurrences(after, arn) == 1 {
      var p :| OnlyAt(after, arn, p);
      if p.Whole? {
        assert NoListHit(after, arn) by {
          assert forall k, i :: !HitAt(after, arn, k, i);
        }
      } else {
        assert HitAt(after, arn, p.k, p.i);
      }
    }
  }

  lemma NoEntry(doc: Value, arn: Arn)
    requires IsPolicy(doc)
    ensures NoListHit(doc, arn) <==> forall k, i :: !HitAt(doc, arn, k, i)
  {
    hide Hits;
    if !NoListHit(doc, arn) {
      var k, i :| 0 <= k < |Statements(doc)| && 0 <= i < |ResourceList(Statements(doc)[k])|
        && Hits(ResourceList(Statements(doc)[k])[i], arn);
      assert HitAt(doc, arn, k, i);
    }
  }

  /** One entry of the change carries two policy documents, and no other one does. */
  predicate OneCandidate(ds: seq<Detail>, n: nat, parse: string -> Option<Value>) {
    && n < |ds| && IsCandidate(ds[n], parse)
    && forall m :: 0 <= m < |ds| && IsCandidate(ds[m], parse) ==> m == n
  }

  lemma {:induction false} CandidatesCounted(ds: seq<Detail>, parse: string -> Option<Value>)
    ensures |Candidates(ds, parse)| == 0 <==> forall m :: 0 <= m < |ds| ==> !IsCandidate(ds[m], parse)
    ensures |Candidates(ds, parse)| == 1 <==> exists n: nat :: OneCandidate(ds, n, parse)
    ensures forall n: nat :: OneCandidate(ds, n, parse) ==> Candidates(ds, parse) == [ds[n]]
  {
    hide IsCandidate;
    if ds != [] {
      var last := |ds| - 1;
      var init := ds[..last];
      CandidatesCounted(init, parse);
      if IsCandidate(ds[last], parse) {
        if |Candidates(init, parse)| == 0 {
          assert OneCandidate(ds, last, parse);
        } else {
          var m :| 0 <= m < |init| && IsCandidate(init[m], parse);
          LaterCandidate(ds, m, parse);
        }
      } else {
        forall n: nat
          ensures OneCandidate(ds, n, parse) <==> OneCandidate(init, n, parse)
        {
          SkippedCandidate(ds, n, parse);
        }
      }
    }
  }

  lemma LaterCandidate(ds: seq<Detail>, m: nat, parse: string -> Option<Value>)
    requires m < |ds| - 1 && IsCandidate(ds[m], parse) && IsCandidate(ds[|ds| - 1], parse)
    ensures forall n: nat :: !OneCandidate(ds, n, parse)
  {
    hide IsCandidate;
  }

  lemma SkippedCandidate(ds: seq<Detail>, n: nat, parse: string -> Option<Value>)
    requires ds != [] && !IsCandidate(ds[|ds| - 1], parse)
    ensures OneCandidate(ds, n, parse) <==> OneCandidate(ds[..|ds| - 1], n, parse)
  {
    hide IsCandidate;
    var init := ds[..|ds| - 1];
    assert forall m :: 0 <= m < |init| ==> init[m] == ds[m];
  }

  /** The whole guard: it passes exactly when one single entry of the change carries two policy documents,
      and the guard's comparison accepts those two. */
  lemma PassesExactly(ds: seq<Detail>, arn: Arn, parse: string -> Option<Value>)
    ensures Passes(ds, arn, parse) <==>
      exists n: nat :: OneCandidate(ds, n, parse)
        && Accepts(parse(ds[n].before.value).value, parse(ds[n].after.value).value, arn)
  {
    hide Accepts;
    CandidatesCounted(ds, parse);
    if |Candidates(ds, parse)| == 1 {
      var n: nat :| OneCandidate(ds, n, parse);
      assert Candidates(ds, parse) == [ds[n]];
    }
  }
}
