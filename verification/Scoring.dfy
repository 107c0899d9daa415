/** internal/judging/domain/score.go: the validation of a judge's scores against a
    rubric, and their weighted total (over the reals). */
module Scoring {
  import opened Wrappers
  import opened PlatformModel

  datatype ScoreInput = ScoreInput(criterion: Id, raw: int, notes: Option<string>)

  datatype Criterion = Criterion(id: Id, name: string, weight: real, max: int)

  datatype ScoreError = InvalidCriterion | OutOfRange | MissingCriteria

  predicate DistinctIds(criteria: seq<Criterion>) {
    forall i, j :: 0 <= i < j < |criteria| ==> criteria[i].id != criteria[j].id
  }

  predicate DistinctEntries(scores: seq<ScoreInput>) {
    forall i, j :: 0 <= i < j < |scores| ==> scores[i].criterion != scores[j].criterion
  }

  function IdSet(criteria: seq<Criterion>): set<Id> { set i | 0 <= i < |criteria| :: criteria[i].id }

  function Scored(scores: seq<ScoreInput>): set<Id> { set i | 0 <= i < |scores| :: scores[i].criterion }

  /** The entry that a map filled in order ends with. */
  function Lookup(criteria: seq<Criterion>, id: Id): (c: Option<Criterion>)
    ensures c.Some? ==> c.value in criteria && c.value.id == id
    ensures c == None ==> forall d :: d in criteria ==> d.id != id
  {
    if criteria == [] then None
    else if criteria[|criteria| - 1].id == id then Some(criteria[|criteria| - 1])
    else Lookup(criteria[..|criteria| - 1], id)
  }

  lemma LookupIsUnique(criteria: seq<Criterion>, c: Criterion)
    requires DistinctIds(criteria) && c in criteria
    ensures Lookup(criteria, c.id) == Some(c)
  {}

  /** What is wrong with one entry. */
  function Fault(criteria: seq<Criterion>, s: ScoreInput): Option<ScoreError> {
    match Lookup(criteria, s.criterion)
    case None => Some(InvalidCriterion)
    case Some(c) => if 1 <= s.raw <= c.max then None else Some(OutOfRange)
  }

  /** Every entry names a criterion of the rubric, with a raw score that it allows. */
  predicate InRange(scores: seq<ScoreInput>, criteria: seq<Criterion>) {
    forall k :: 0 <= k < |scores| ==> Allowed(criteria, scores[k])
  }

  predicate Allowed(criteria: seq<Criterion>, s: ScoreInput) {
    exists c :: c in criteria && c.id == s.criterion && 1 <= s.raw <= c.max
  }

  predicate Covers(scores: seq<ScoreInput>, criteria: seq<Criterion>) {
    forall c :: c in criteria ==> c.id in Scored(scores)
  }

  // ------------------------------------------------------------- the pigeonhole

  lemma {:induction false} SmallerSets(a: set<Id>, b: set<Id>)
    requires a <= b
    ensures |a| <= |b| && (|a| == |b| ==> a == b)
  {
    if x :| x in a {
      SmallerSets(a - {x}, b - {x});
    }
  }

  /** A list has as many ids as entries only if they are all different. */
  lemma {:induction false} DistinctIdsAreCounted(criteria: seq<Criterion>)
    ensures |IdSet(criteria)| <= |criteria| && (|IdSet(criteria)| == |criteria| <==> DistinctIds(criteria))
  {
    if criteria != [] {
      var n := |criteria| - 1;
      DistinctIdsAreCounted(criteria[..n]);
      assert IdSet(criteria) == IdSet(criteria[..n]) + {criteria[n].id};
      LastIsNew(criteria);
    }
  }

  /** Ids are distinct when those before the last are and the last is none of them. */
  lemma LastIsNew(criteria: seq<Criterion>)
    requires criteria != []
    ensures var n := |criteria| - 1;
            DistinctIds(criteria) <==> DistinctIds(criteria[..n]) && criteria[n].id !in IdSet(criteria[..n])
  {
    var n := |criteria| - 1;
    var init := criteria[..n];
    forall i, j | 0 <= i < j < n ensures criteria[i].id != criteria[j].id <==> init[i].id != init[j].id {}
    forall i | 0 <= i < n ensures init[i].id in IdSet(init) {}
    if criteria[n].id in IdSet(init) {
      var i :| 0 <= i < n && init[i].id == criteria[n].id;
      assert criteria[i].id == criteria[n].id;
    }
    if DistinctIds(init) && criteria[n].id !in IdSet(init) {
      forall i, j | 0 <= i < j < |criteria| ensures criteria[i].id != criteria[j].id {
        assert criteria[i] == init[i] && (j < n ==> criteria[j] == init[j]);
      }
    }
  }

  /** The one comparison of sizes decides coverage: ids drawn from the rubric are as
      many as its entries exactly when the rubric repeats none and they are all of it. */
  lemma Pigeonhole(scored: set<Id>, criteria: seq<Criterion>)
    requires scored <= IdSet(criteria)
    ensures |scored| >= |criteria| <==> DistinctIds(criteria) && scored == IdSet(criteria)
  {
    SmallerSets(scored, IdSet(criteria));
    DistinctIdsAreCounted(criteria);
  }

  lemma FaultlessAreAllowed(scores: seq<ScoreInput>, criteria: seq<Criterion>)
    requires forall k :: 0 <= k < |scores| ==> Fault(criteria, scores[k]) == None
    ensures InRange(scores, criteria) && Scored(scores) <= IdSet(criteria)
  {
    forall k | 0 <= k < |scores| ensures Allowed(criteria, scores[k]) && scores[k].criterion in IdSet(criteria) {
      var c := Lookup(criteria, scores[k].criterion).value;
      var i :| 0 <= i < |criteria| && criteria[i] == c;
    }
  }

  lemma CoversIsEqual(scores: seq<ScoreInput>, criteria: seq<Criterion>)
    requires Scored(scores) <= IdSet(criteria)
    ensures Covers(scores, criteria) <==> Scored(scores) == IdSet(criteria)
  {
    if Covers(scores, criteria) {
      forall id | id in IdSet(criteria) ensures id in Scored(scores) {
        var i :| 0 <= i < |criteria| && criteria[i].id == id;
        assert criteria[i] in criteria;
      }
    }
  }

  method CriteriaMap(criteria: seq<Criterion>) returns (m: map<Id, Criterion>)
    ensures forall id :: id in m <==> Lookup(criteria, id).Some?
    ensures forall id :: id in m ==> Lookup(criteria, id) == Some(m[id])
  {
    m := map[];
    for i := 0 to |criteria|
      invariant forall id :: id in m <==> Lookup(criteria[..i], id).Some?
      invariant forall id :: id in m ==> Lookup(criteria[..i], id) == Some(m[id])
    {
      m := m[criteria[i].id := criteria[i]];
      assert criteria[..i + 1][..i] == criteria[..i];
    }
    assert criteria[..|criteria|] == criteria;
  }

  /** Accepts exactly when the rubric repeats no criterion, every entry names one of its
      criteria with a raw score in [1, max], and every criterion is covered. Otherwise
      the error is that of the first wrong entry, or says that a criterion is missing. */
  method ValidateScores(scores: seq<ScoreInput>, criteria: seq<Criterion>) returns (err: Option<ScoreError>)
    ensures err == None <==> DistinctIds(criteria) && InRange(scores, criteria) && Covers(scores, criteria)
    ensures err.Some? && err.value != MissingCriteria ==>
      exists k :: 0 <= k < |scores| && Fault(criteria, scores[k]) == err
                  && forall j :: 0 <= j < k ==> Fault(criteria, scores[j]) == None
    ensures err == Some(MissingCriteria) ==>
            InRange(scores, criteria) && (DistinctIds(criteria) ==> !Covers(scores, criteria))
  {
    var criteriaMap := CriteriaMap(criteria);
    var scoredIDs := {};
    for i := 0 to |scores|
      invariant forall j :: 0 <= j < i ==> Fault(criteria, scores[j]) == None
      invariant scoredIDs == Scored(scores[..i])
    {
      var s := scores[i];
      if s.criterion !in criteriaMap {
        err := Some(InvalidCriterion);
        assert Fault(criteria, scores[i]) == err;
        FaultyIsRejected(scores, criteria, i);
        return;
      }
      var crit := criteriaMap[s.criterion];
      if s.raw < 1 || s.raw > crit.max {
        err := Some(OutOfRange);
        assert Fault(criteria, scores[i]) == err;
        FaultyIsRejected(scores, criteria, i);
        return;
      }
      scoredIDs := scoredIDs + {s.criterion};
      assert Scored(scores[..i + 1]) == Scored(scores[..i]) + {s.criterion};
    }
    assert scores[..|scores|] == scores;
    FaultlessAreAllowed(scores, criteria);
    Pigeonhole(scoredIDs, criteria);
    CoversIsEqual(scores, criteria);
    err := if |scoredIDs| < |criteria| then Some(MissingCriteria) else None;
  }

  lemma FaultyIsRejected(scores: seq<ScoreInput>, criteria: seq<Criterion>, k: nat)
    requires k < |scores| && Fault(criteria, scores[k]) != None
    ensures !(DistinctIds(criteria) && InRange(scores, criteria))
  {}

  // ------------------------------------------------------------------- totals

  function Sum<T>(s: seq<T>, f: T -> real): real {
    if s == [] then 0.0 else Sum(s[..|s| - 1], f) + f(s[|s| - 1])
  }

  lemma {:induction false} SumInTwo<T>(a: seq<T>, b: seq<T>, f: T -> real)
    ensures Sum(a + b, f) == Sum(a, f) + Sum(b, f)
  {
    if b == [] {
      assert a + b == a;
    } else {
      SumInTwo(a, b[..|b| - 1], f);
      assert (a + b)[..|a + b| - 1] == a + b[..|b| - 1];
    }
  }

  lemma SumOfThree<T>(a: seq<T>, x: T, b: seq<T>, f: T -> real)
    ensures Sum(a + [x] + b, f) == Sum(a, f) + f(x) + Sum(b, f)
  {
    SumInTwo(a + [x], b, f);
    assert (a + [x])[..|a + [x]| - 1] == a;
  }

  lemma Parts<T>(s: seq<T>, i: nat, x: T)
    requires i < |s|
    ensures s[..i] + [s[i]] + s[i + 1..] == s && s[..i] + [x] + s[i + 1..] == s[i := x]
  {}

  lemma SumWithout<T>(s: seq<T>, i: nat, f: T -> real)
    requires i < |s|
    ensures Sum(s, f) == Sum(s[..i] + s[i + 1..], f) + f(s[i])
  {
    Parts(s, i, s[i]);
    SumOfThree(s[..i], s[i], s[i + 1..], f);
    SumInTwo(s[..i], s[i + 1..], f);
  }

  lemma MultisetWithout<T>(s: seq<T>, i: nat)
    requires i < |s|
    ensures multiset(s[..i] + s[i + 1..]) == multiset(s) - multiset{s[i]}
  {
    assert s == s[..i] + [s[i]] + s[i + 1..];
  }

  /** A sum does not depend on the order. */
  lemma {:induction false} SumIgnoresOrder<T>(a: seq<T>, b: seq<T>, f: T -> real)
    requires multiset(a) == multiset(b)
    ensures Sum(a, f) == Sum(b, f)
  {
    if a == [] {
      assert |b| == |multiset(b)| == 0;
    } else {
      var n := |a| - 1;
      assert a[n] in multiset(b);
      var i :| 0 <= i < |b| && b[i] == a[n];
      assert a[..n] + a[n + 1..] == a[..n];
      MultisetWithout(a, n);
      MultisetWithout(b, i);
      SumIgnoresOrder(a[..n], b[..i] + b[i + 1..], f);
      SumWithout(b, i, f);
    }
  }

  lemma {:induction false} SumPointwise<S, T>(a: seq<S>, b: seq<T>, f: S -> real, g: T -> real)
    requires |a| == |b| && forall i :: 0 <= i < |a| ==> f(a[i]) <= g(b[i])
    ensures Sum(a, f) <= Sum(b, g)
  {
    if a != [] {
      SumPointwise(a[..|a| - 1], b[..|b| - 1], f, g);
    }
  }

  function Weight(criteria: seq<Criterion>, id: Id): real {
    match Lookup(criteria, id)
    case Some(c) => c.weight
    case None => 0.0
  }

  function Points(criteria: seq<Criterion>): ScoreInput -> real {
    (s: ScoreInput) => s.raw as real * Weight(criteria, s.criterion)
  }

  /** Raw times weight, summed over the entries. */
  function Total(scores: seq<ScoreInput>, criteria: seq<Criterion>): real { Sum(scores, Points(criteria)) }

  /** The raw score that each criterion ends with. */
  function Raws(scores: seq<ScoreInput>): map<Id, int> {
    if scores == [] then map[]
    else Raws(scores[..|scores| - 1])[scores[|scores| - 1].criterion := scores[|scores| - 1].raw]
  }

  function RawPoints(raws: map<Id, int>): Criterion -> real {
    (c: Criterion) => if c.id in raws then raws[c.id] as real * c.weight else 0.0
  }

  /** Raw times weight, summed over the rubric. */
  function RubricTotal(criteria: seq<Criterion>, raws: map<Id, int>): real { Sum(criteria, RawPoints(raws)) }

  lemma WeighOnce(raw: int, weight: real, max: int)
    requires max != 0
    ensures (raw as real / max as real) * weight * max as real == raw as real * weight
  {
    var x, m := raw as real, max as real;
    assert x / m * m == x;
    assert (x / m) * weight * m == (x / m * m) * weight;
  }

  /** An entry of an unknown criterion, or of one whose maximum is zero, divides by zero and
      multiplies by zero again: not a number, whatever is added to it. */
  predicate NotANumber(criteria: seq<Criterion>, s: ScoreInput) {
    match Lookup(criteria, s.criterion)
    case Some(c) => c.max == 0
    case None => true
  }

  /** The loop's form is the sum of raw times weight, or not a number (None). */
  method WeightedTotal(scores: seq<ScoreInput>, criteria: seq<Criterion>) returns (total: Option<real>)
    ensures total == None <==> exists k :: 0 <= k < |scores| && NotANumber(criteria, scores[k])
    ensures total.Some? ==> total.value == Total(scores, criteria)
  {
    var criteriaMap := CriteriaMap(criteria);
    total := Some(0.0);
    for i := 0 to |scores|
      invariant total == None <==> exists k :: 0 <= k < i && NotANumber(criteria, scores[k])
      invariant total.Some? ==> total.value == Total(scores[..i], criteria)
    {
      var s := scores[i];
      var c := if s.criterion in criteriaMap then criteriaMap[s.criterion] else Criterion(s.criterion, "", 0.0, 0);
      assert NotANumber(criteria, s) <==> c.max == 0;
      if c.max == 0 {
        total := None;
      } else if total.Some? {
        WeighOnce(s.raw, c.weight, c.max);
        total := Some(total.value + (s.raw as real / c.max as real) * c.weight * c.max as real);
      }
      assert scores[..i + 1][..i] == scores[..i];
    }
    assert scores[..|scores|] == scores;
  }

  // ------------------------------------------------------- what the total means

  ghost predicate ListsEachOnce(scores: seq<ScoreInput>, criteria: seq<Criterion>) {
    DistinctEntries(scores) && Scored(scores) == IdSet(criteria)
  }

  lemma {:induction false} RawsAt(scores: seq<ScoreInput>, i: nat)
    requires DistinctEntries(scores) && i < |scores|
    ensures scores[i].criterion in Raws(scores) && Raws(scores)[scores[i].criterion] == scores[i].raw
  {
    if i < |scores| - 1 {
      RawsAt(scores[..|scores| - 1], i);
    }
  }

  ghost predicate NoRepeats<T>(s: seq<T>) { forall i, j :: 0 <= i < j < |s| ==> s[i] != s[j] }

  lemma {:induction false} CountedOnce<T>(s: seq<T>, x: T)
    requires NoRepeats(s)
    ensures multiset(s)[x] == if x in s then 1 else 0
  {
    if s != [] {
      var init, last := s[..|s| - 1], s[|s| - 1];
      CountedOnce(init, x);
      assert s == init + [last];
    }
  }

  lemma SameElements<T>(a: seq<T>, b: seq<T>)
    requires NoRepeats(a) && NoRepeats(b) && forall x :: x in a <==> x in b
    ensures multiset(a) == multiset(b)
  {
    forall x ensures multiset(a)[x] == multiset(b)[x] {
      CountedOnce(a, x);
      CountedOnce(b, x);
    }
  }

  /** The criteria that the entries name, in the order of the entries. */
  ghost function Named(scores: seq<ScoreInput>, criteria: seq<Criterion>): seq<Criterion>
    requires forall k :: 0 <= k < |scores| ==> Lookup(criteria, scores[k].criterion).Some?
  {
    seq(|scores|, k requires 0 <= k < |scores| => Lookup(criteria, scores[k].criterion).value)
  }

  lemma KnownIds(scores: seq<ScoreInput>, criteria: seq<Criterion>)
    requires Scored(scores) <= IdSet(criteria)
    ensures forall k :: 0 <= k < |scores| ==> Lookup(criteria, scores[k].criterion).Some?
  {
    forall k | 0 <= k < |scores| ensures Lookup(criteria, scores[k].criterion).Some? {
      assert scores[k].criterion in Scored(scores);
      var i :| 0 <= i < |criteria| && criteria[i].id == scores[k].criterion;
      assert criteria[i] in criteria;
    }
  }

  lemma NamedIsTheRubric(scores: seq<ScoreInput>, criteria: seq<Criterion>)
    requires DistinctIds(criteria) && ListsEachOnce(scores, criteria)
    requires forall k :: 0 <= k < |scores| ==> Lookup(criteria, scores[k].criterion).Some?
    ensures multiset(Named(scores, criteria)) == multiset(criteria)
  {
    var cs := Named(scores, criteria);
    forall c | c in criteria ensures c in cs {
      var i :| 0 <= i < |criteria| && criteria[i] == c;
      assert c.id in Scored(scores);
      var k :| 0 <= k < |scores| && scores[k].criterion == c.id;
      LookupIsUnique(criteria, c);
      assert cs[k] == c;
    }
    SameElements(cs, criteria);
  }

  /** For scores that list each criterion once, the total is the sum of raw times weight
      over the rubric, in whatever order the rubric was read. */
  lemma TotalIsOverTheRubric(scores: seq<ScoreInput>, criteria: seq<Criterion>, order: seq<Criterion>)
    requires DistinctIds(criteria) && ListsEachOnce(scores, criteria) && multiset(order) == multiset(criteria)
    ensures Total(scores, criteria) == RubricTotal(order, Raws(scores))
  {
    KnownIds(scores, criteria);
    var cs := Named(scores, criteria);
    var f, g := Points(criteria), RawPoints(Raws(scores));
    forall k | 0 <= k < |scores| ensures f(scores[k]) == g(cs[k]) {
      RawsAt(scores, k);
    }
    SumPointwise(scores, cs, f, g);
    SumPointwise(cs, scores, g, f);
    NamedIsTheRubric(scores, criteria);
    SumIgnoresOrder(cs, order, g);
  }

  lemma OrderKeepsDistinctIds(criteria: seq<Criterion>, order: seq<Criterion>)
    requires DistinctIds(criteria) && multiset(order) == multiset(criteria)
    ensures DistinctIds(order) && IdSet(order) == IdSet(criteria) && (forall c :: c in order <==> c in criteria)
  {
    forall c ensures c in order <==> c in criteria {
      assert c in multiset(order) <==> c in multiset(criteria);
    }
    SameIds(criteria, order);
    SameIds(order, criteria);
    DistinctIdsAreCounted(criteria);
    assert IdSet(order) == IdSet(criteria) && |order| == |multiset(order)| == |criteria|;
    DistinctIdsAreCounted(order);
  }

  lemma SameIds(a: seq<Criterion>, b: seq<Criterion>)
    requires forall c :: c in a ==> c in b
    ensures IdSet(a) <= IdSet(b)
  {
    forall id | id in IdSet(a) ensures id in IdSet(b) {
      var i :| 0 <= i < |a| && a[i].id == id;
      assert a[i] in b;
      var j :| 0 <= j < |b| && b[j] == a[i];
    }
  }

  /** Neither the order of the entries nor that of the rubric matters. */
  lemma TotalIgnoresOrder(scores: seq<ScoreInput>, criteria: seq<Criterion>, others: seq<ScoreInput>,
          order: seq<Criterion>)
    requires DistinctIds(criteria) && multiset(scores) == multiset(others) && multiset(criteria) == multiset(order)
    ensures Total(scores, criteria) == Total(others, order)
  {
    OrderKeepsDistinctIds(criteria, order);
    forall s: ScoreInput ensures Points(criteria)(s) == Points(order)(s) {
      match Lookup(criteria, s.criterion)
      case Some(c) => LookupIsUnique(order, c);
      case None =>
    }
    SumIgnoresOrder(scores, others, Points(criteria));
    SumPointwise(others, others, Points(criteria), Points(order));
    SumPointwise(others, others, Points(order), Points(criteria));
  }

  lemma SumAfterChange<T>(s: seq<T>, i: nat, x: T, f: T -> real)
    requires i < |s|
    ensures Sum(s[i := x], f) == Sum(s, f) - f(s[i]) + f(x)
  {
    Parts(s, i, x);
    SumOfThree(s[..i], s[i], s[i + 1..], f);
    SumOfThree(s[..i], x, s[i + 1..], f);
  }

  /** Raising one raw score raises the total by that much times the criterion's weight. */
  lemma RaisingOneScore(scores: seq<ScoreInput>, criteria: seq<Criterion>, i: nat, raw: int)
    requires i < |scores|
    ensures var raised := Total(scores[i := scores[i].(raw := raw)], criteria);
            && raised - Total(scores, criteria) == (raw - scores[i].raw) as real * Weight(criteria, scores[i].criterion)
            && (Weight(criteria, scores[i].criterion) > 0.0 && raw > scores[i].raw ==> raised > Total(scores, criteria))
  {
    SumAfterChange(scores, i, scores[i].(raw := raw), Points(criteria));
  }

  function Weights(): Criterion -> real { (c: Criterion) => c.weight }

  function MaxPoints(): Criterion -> real { (c: Criterion) => c.max as real * c.weight }

  /** Validated scores total between the sum of the weights and that of weight times max. */
  lemma TotalIsBounded(scores: seq<ScoreInput>, criteria: seq<Criterion>)
    requires DistinctIds(criteria) && ListsEachOnce(scores, criteria) && InRange(scores, criteria)
    requires forall c :: c in criteria ==> c.weight >= 0.0
    ensures Sum(criteria, Weights()) <= Total(scores, criteria) <= Sum(criteria, MaxPoints())
  {
    var raws := Raws(scores);
    TotalIsOverTheRubric(scores, criteria, criteria);
    forall k | 0 <= k < |criteria|
      ensures Weights()(criteria[k]) <= RawPoints(raws)(criteria[k]) <= MaxPoints()(criteria[k])
    {
      RawInRange(scores, criteria, criteria[k]);
      PointsInRange(raws, criteria[k]);
    }
    SumPointwise(criteria, criteria, Weights(), RawPoints(raws));
    SumPointwise(criteria, criteria, RawPoints(raws), MaxPoints());
  }

  lemma RawInRange(scores: seq<ScoreInput>, criteria: seq<Criterion>, c: Criterion)
    requires DistinctIds(criteria) && ListsEachOnce(scores, criteria) && InRange(scores, criteria) && c in criteria
    ensures c.id in Raws(scores) && 1 <= Raws(scores)[c.id] <= c.max
  {
    assert c.id in IdSet(criteria);
    var k :| 0 <= k < |scores| && scores[k].criterion == c.id;
    RawsAt(scores, k);
    assert Allowed(criteria, scores[k]);
  }

  lemma Scale(a: int, b: int, w: real)
    requires a <= b && w >= 0.0
    ensures a as real * w <= b as real * w
  {}

  lemma PointsInRange(raws: map<Id, int>, c: Criterion)
    requires c.id in raws && 1 <= raws[c.id] <= c.max && c.weight >= 0.0
    ensures Weights()(c) <= RawPoints(raws)(c) <= MaxPoints()(c)
  {
    Scale(1, raws[c.id], c.weight);
    Scale(raws[c.id], c.max, c.weight);
  }
}
