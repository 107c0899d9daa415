/** Submitting scores (internal/judging/usecase/scores.go): any number of calls, each
    action one repository call with the checks that follow it. */
module Judging {
  import opened Wrappers
  import opened PlatformModel
  import opened Scoring

  datatype AssignmentStatus = Pending | InProgress | Completed | Recused

  datatype JudgeAssignment = JudgeAssignment(event: Id, judge: Id, submission: Id, rubric: Id, status: AssignmentStatus)

  /** The scores table is unique on (assignment, criterion). */
  datatype Cell = Cell(assignment: Id, criterion: Id)

  datatype StoredScore = StoredScore(judge: Id, raw: int, notes: Option<string>)

  type Assignments = map<Id, JudgeAssignment>
  type Scores = map<Cell, StoredScore>
  type Rubrics = map<Id, seq<Criterion>>

  // ---------------------------------------------------------------- the upsert

  /** One row of the INSERT … ON CONFLICT DO UPDATE, which leaves the judge alone. */
  function Put(table: Scores, a: Id, judge: Id, e: ScoreInput): Scores {
    var cell := Cell(a, e.criterion);
    table[cell := StoredScore(if cell in table then table[cell].judge else judge, e.raw, e.notes)]
  }

  function Upserted(table: Scores, a: Id, judge: Id, entries: seq<ScoreInput>): Scores {
    if entries == [] then table
    else Put(Upserted(table, a, judge, entries[..|entries| - 1]), a, judge, entries[|entries| - 1])
  }

  /** A statement that proposes a key twice fails, and so does an empty list of rows. */
  predicate Upsertable(entries: seq<ScoreInput>) { entries != [] && DistinctEntries(entries) }

  lemma {:induction false} UpsertKeepsOthers(table: Scores, a: Id, judge: Id, entries: seq<ScoreInput>, cell: Cell)
    requires cell.assignment != a || cell.criterion !in Scored(entries)
    ensures cell in Upserted(table, a, judge, entries) <==> cell in table
    ensures cell in table ==> Upserted(table, a, judge, entries)[cell] == table[cell]
  {
    if entries != [] {
      var init := entries[..|entries| - 1];
      assert Scored(init) <= Scored(entries) && entries[|entries| - 1].criterion in Scored(entries);
      UpsertKeepsOthers(table, a, judge, init, cell);
    }
  }

  lemma {:induction false} UpsertWrites(table: Scores, a: Id, judge: Id, entries: seq<ScoreInput>, i: nat)
    requires DistinctEntries(entries) && i < |entries|
    ensures var cell := Cell(a, entries[i].criterion); var after := Upserted(table, a, judge, entries);
            && cell in after
            && after[cell] == StoredScore(if cell in table then table[cell].judge else judge,
                                          entries[i].raw, entries[i].notes)
  {
    if i < |entries| - 1 {
      UpsertWrites(table, a, judge, entries[..|entries| - 1], i);
    } else {
      UpsertKeepsOthers(table, a, judge, entries[..i], Cell(a, entries[i].criterion));
    }
  }

  lemma {:induction false} UpsertKeepsCells(table: Scores, a: Id, judge: Id, entries: seq<ScoreInput>)
    ensures table.Keys <= Upserted(table, a, judge, entries).Keys
  {
    if entries != [] {
      UpsertKeepsCells(table, a, judge, entries[..|entries| - 1]);
    }
  }

  ghost function StoredRaws(scores: Scores, a: Id): map<Id, int> {
    map cell | cell in scores && cell.assignment == a :: cell.criterion := scores[cell].raw
  }

  /** The total recomputed from the rows just stored is the total of the entries, in
      whatever order the rubric is read. */
  lemma StoredTotal(table: Scores, a: Id, judge: Id, entries: seq<ScoreInput>, criteria: seq<Criterion>,
          order: seq<Criterion>)
    requires DistinctIds(criteria) && ListsEachOnce(entries, criteria) && multiset(order) == multiset(criteria)
    ensures RubricTotal(order, StoredRaws(Upserted(table, a, judge, entries), a)) == Total(entries, criteria)
  {
    var stored := StoredRaws(Upserted(table, a, judge, entries), a);
    var f, g := RawPoints(Raws(entries)), RawPoints(stored);
    OrderKeepsDistinctIds(criteria, order);
    forall k | 0 <= k < |order| ensures f(order[k]) == g(order[k]) {
      assert order[k].id in IdSet(order);
      var i :| 0 <= i < |entries| && entries[i].criterion == order[k].id;
      RawsAt(entries, i);
      UpsertWrites(table, a, judge, entries, i);
    }
    SumPointwise(order, order, f, g);
    SumPointwise(order, order, g, f);
    TotalIsOverTheRubric(entries, criteria, order);
  }

  // ------------------------------------------------------------------ the machine

  datatype Call =
    | Loaded(id: Id, judge: Id, rubric: Id, entries: seq<ScoreInput>)
    | Timely(id: Id, judge: Id, rubric: Id, entries: seq<ScoreInput>)       // by the judging deadline
    | Validated(id: Id, judge: Id, entries: seq<ScoreInput>, criteria: seq<Criterion>)
    | Stored(id: Id, entries: seq<ScoreInput>, criteria: seq<Criterion>)    // scores written, status not yet
    | Done(id: Id, entries: seq<ScoreInput>, criteria: seq<Criterion>, total: real)
    | Failed

  datatype State = State(rubrics: Rubrics, assignments: Assignments, scores: Scores, calls: map<Id, Call>)
  {
    function At(c: Id): Call { if c in calls then calls[c] else Failed }

    function Become(c: Id, pc: Call): State { this.(calls := calls[c := pc]) }
  }

  datatype Action =
    | Assign(added: Assignments)
    | SubmitLoad(call: Id, id: Id, judge: Id, entries: seq<ScoreInput>)
    | SubmitCheckDeadline(call: Id, deadline: Option<int>, now: int)
    | SubmitValidate(call: Id, criteria: seq<Criterion>)
    | SubmitUpsert(call: Id)
    | SubmitComplete(call: Id)
    | Crash(call: Id)

  function RubricOf(rubrics: Rubrics, rubric: Id): seq<Criterion> { if rubric in rubrics then rubrics[rubric] else [] }

  predicate Accepts(entries: seq<ScoreInput>, criteria: seq<Criterion>) {
    DistinctIds(criteria) && InRange(entries, criteria) && Covers(entries, criteria)
  }

  /** FindByIDAndJudge: a row of another judge is no row. */
  function FoundFor(s: State, id: Id, judge: Id, entries: seq<ScoreInput>): Call {
    if id in s.assignments && s.assignments[id].judge == judge
    then Loaded(id, judge, s.assignments[id].rubric, entries) else Failed
  }

  function DeadlineChecked(pc: Call, deadline: Option<int>, now: int): Call
    requires pc.Loaded?
  {
    if deadline.Some? && now > deadline.value then Failed else Timely(pc.id, pc.judge, pc.rubric, pc.entries)
  }

  function Judged(pc: Call, criteria: seq<Criterion>): Call
    requires pc.Timely?
  {
    if Accepts(pc.entries, criteria) then Validated(pc.id, pc.judge, pc.entries, criteria) else Failed
  }

  function StoreScores(s: State, c: Id, pc: Call): State
    requires pc.Validated?
  {
    if Upsertable(pc.entries)
    then s.(scores := Upserted(s.scores, pc.id, pc.judge, pc.entries)).Become(c, Stored(pc.id, pc.entries, pc.criteria))
    else s.Become(c, Failed)
  }

  function WithStatus(assignments: Assignments, id: Id, status: AssignmentStatus): Assignments {
    if id in assignments then assignments[id := assignments[id].(status := status)] else assignments
  }

  function CompleteAssignment(s: State, c: Id, pc: Call): State
    requires pc.Stored?
  {
    s.(assignments := WithStatus(s.assignments, pc.id, Completed))
     .Become(c, Done(pc.id, pc.entries, pc.criteria, Total(pc.entries, pc.criteria)))
  }

  predicate NewAssignments(s: State, added: Assignments) {
    forall i :: i in added ==> i !in s.assignments && added[i].status == Pending
  }

  /** The criteria are read in any order. An impossible action changes nothing. */
  function Step(s: State, a: Action): State {
    match a
    case Assign(added) => if NewAssignments(s, added) then s.(assignments := s.assignments + added) else s
    case SubmitLoad(c, id, judge, entries) => if c !in s.calls then s.Become(c, FoundFor(s, id, judge, entries)) else s
    case SubmitCheckDeadline(c, deadline, now) =>
      if s.At(c).Loaded? then s.Become(c, DeadlineChecked(s.At(c), deadline, now)) else s
    case SubmitValidate(c, criteria) =>
      if s.At(c).Timely? && multiset(criteria) == multiset(RubricOf(s.rubrics, s.At(c).rubric))
      then s.Become(c, Judged(s.At(c), criteria)) else s
    case SubmitUpsert(c) => if s.At(c).Validated? then StoreScores(s, c, s.At(c)) else s
    case SubmitComplete(c) => if s.At(c).Stored? then CompleteAssignment(s, c, s.At(c)) else s
    case Crash(c) => s.Become(c, Failed)
  }

  function Run(s: State, actions: seq<Action>): State {
    if actions == [] then s else Step(Run(s, actions[..|actions| - 1]), actions[|actions| - 1])
  }

  /** Assignments start pending, no score is stored, and no rubric repeats a criterion. */
  ghost predicate Initial(s: State) {
    && s.scores == map[] && s.calls == map[]
    && (forall i :: i in s.assignments ==> s.assignments[i].status == Pending)
    && (forall r :: r in s.rubrics ==> DistinctIds(s.rubrics[r]))
  }

  // -------------------------------------------------------------------- invariant

  ghost function RubricAt(s: State, id: Id): seq<Criterion>
    requires id in s.assignments
  {
    RubricOf(s.rubrics, s.assignments[id].rubric)
  }

  /** A stored score belongs to a criterion of its assignment's rubric and is in range. */
  ghost predicate CellOk(s: State, cell: Cell) {
    && cell in s.scores && cell.assignment in s.assignments
    && Allowed(RubricAt(s, cell.assignment), ScoreInput(cell.criterion, s.scores[cell].raw, s.scores[cell].notes))
  }

  ghost predicate CellsOk(s: State) { forall cell :: cell in s.scores ==> CellOk(s, cell) }

  /** Every criterion of a non-empty rubric has its stored score. */
  ghost predicate AllScored(s: State, id: Id) {
    id in s.assignments && RubricAt(s, id) != [] && forall c :: c in RubricAt(s, id) ==> Cell(id, c.id) in s.scores
  }

  ghost predicate CompletedScored(s: State) {
    forall id :: id in s.assignments && s.assignments[id].status == Completed ==> AllScored(s, id)
  }

  ghost predicate ValidFor(s: State, id: Id, entries: seq<ScoreInput>, criteria: seq<Criterion>) {
    id in s.assignments && multiset(criteria) == multiset(RubricAt(s, id)) && Accepts(entries, criteria)
  }

  ghost predicate CallOk(s: State, pc: Call) {
    match pc
    case Loaded(id, judge, rubric, _) => id in s.assignments && s.assignments[id].rubric == rubric
    case Timely(id, judge, rubric, _) => id in s.assignments && s.assignments[id].rubric == rubric
    case Validated(id, _, entries, criteria) => ValidFor(s, id, entries, criteria)
    case Stored(id, entries, criteria) => ValidFor(s, id, entries, criteria) && Upsertable(entries) && AllScored(s, id)
    case Done(id, entries, criteria, total) =>
      && ValidFor(s, id, entries, criteria) && Upsertable(entries) && AllScored(s, id)
      && total == Total(entries, criteria) && s.assignments[id].status == Completed
    case Failed => true
  }

  ghost predicate CallsOk(s: State) { forall c :: c in s.calls ==> CallOk(s, s.At(c)) }

  ghost predicate Inv(s: State) { CellsOk(s) && CompletedScored(s) && CallsOk(s) }

  /** Nothing that a fact above depends on is ever taken back. */
  ghost predicate Keeps(s: State, t: State) {
    && t.rubrics == s.rubrics && s.scores.Keys <= t.scores.Keys
    && forall id :: id in s.assignments ==>
       && id in t.assignments && t.assignments[id].rubric == s.assignments[id].rubric
       && (s.assignments[id].status == Completed ==> t.assignments[id].status == Completed)
  }

  lemma StepKeeps(s: State, a: Action)
    ensures Keeps(s, Step(s, a))
  {
    if a.SubmitUpsert? && s.At(a.call).Validated? {
      UpsertKeepsCells(s.scores, s.At(a.call).id, s.At(a.call).judge, s.At(a.call).entries);
    }
  }

  /** Rubrics and the rows of assignments and scores outlive every run. */
  lemma {:induction false} RunKeeps(s: State, actions: seq<Action>)
    ensures Keeps(s, Run(s, actions))
  {
    if actions != [] {
      RunKeeps(s, actions[..|actions| - 1]);
      StepKeeps(Run(s, actions[..|actions| - 1]), actions[|actions| - 1]);
    }
  }

  lemma KeepsScored(s: State, t: State, id: Id)
    requires Keeps(s, t) && AllScored(s, id)
    ensures AllScored(t, id)
  {}

  /** A step that stores no score and completes no assignment. */
  lemma QuietStep(s: State, t: State, c: Id)
    requires Inv(s) && Keeps(s, t) && t.scores == s.scores && t.calls == s.calls[c := t.At(c)] && CallOk(t, t.At(c))
    requires forall id :: id in t.assignments && t.assignments[id].status == Completed ==>
             id in s.assignments && AllScored(s, id)
    ensures Inv(t)
  {}

  lemma CallsSurvive(s: State, t: State, c: Id)
    requires CallsOk(s) && Keeps(s, t) && t.calls == s.calls[c := t.At(c)] && CallOk(t, t.At(c))
    ensures CallsOk(t)
  {}

  lemma AssignKeepsInv(s: State, added: Assignments)
    requires Inv(s) && NewAssignments(s, added)
    ensures Inv(s.(assignments := s.assignments + added))
  {
    var t := s.(assignments := s.assignments + added);
    forall cell | cell in t.scores ensures CellOk(t, cell) {
      assert CellOk(s, cell);
    }
    forall d | d in t.calls ensures CallOk(t, t.At(d)) {
      assert CallOk(s, s.At(d));
    }
    forall id | id in t.assignments && t.assignments[id].status == Completed ensures AllScored(t, id) {
      KeepsScored(s, t, id);
    }
  }

  lemma ValidScoresAreListed(entries: seq<ScoreInput>, criteria: seq<Criterion>)
    requires Accepts(entries, criteria)
    ensures Scored(entries) == IdSet(criteria)
    ensures Upsertable(entries) <==> entries != [] && ListsEachOnce(entries, criteria)
  {}

  lemma AllowedInAnyOrder(criteria: seq<Criterion>, order: seq<Criterion>, e: ScoreInput, f: ScoreInput)
    requires multiset(criteria) == multiset(order) && Allowed(criteria, e) && e.criterion == f.criterion
             && e.raw == f.raw
    ensures Allowed(order, f)
  {
    var c :| c in criteria && c.id == e.criterion && 1 <= e.raw <= c.max;
    assert c in multiset(order);
  }

  lemma UpsertedCellsOk(s: State, t: State, pc: Call, cell: Cell)
    requires CellsOk(s) && pc.Validated? && CallOk(s, pc) && Upsertable(pc.entries)
    requires t.rubrics == s.rubrics && t.assignments == s.assignments
    requires t.scores == Upserted(s.scores, pc.id, pc.judge, pc.entries) && cell in t.scores
    ensures CellOk(t, cell)
  {
    if cell.assignment == pc.id && cell.criterion in Scored(pc.entries) {
      var i :| 0 <= i < |pc.entries| && pc.entries[i].criterion == cell.criterion;
      UpsertWrites(s.scores, pc.id, pc.judge, pc.entries, i);
      assert Allowed(pc.criteria, pc.entries[i]);
      AllowedInAnyOrder(pc.criteria, RubricAt(s, pc.id), pc.entries[i],
        ScoreInput(cell.criterion, t.scores[cell].raw, t.scores[cell].notes));
    } else {
      UpsertKeepsOthers(s.scores, pc.id, pc.judge, pc.entries, cell);
      assert CellOk(s, cell);
    }
  }

  lemma UpsertScoresAll(s: State, t: State, pc: Call)
    requires pc.Validated? && CallOk(s, pc) && Upsertable(pc.entries)
    requires t.rubrics == s.rubrics && t.assignments == s.assignments
             && t.scores == Upserted(s.scores, pc.id, pc.judge, pc.entries)
    ensures AllScored(t, pc.id)
  {
    var rubric := RubricAt(s, pc.id);
    assert |multiset(rubric)| == |rubric| && |multiset(pc.criteria)| == |pc.criteria|;
    ValidScoresAreListed(pc.entries, pc.criteria);
    assert pc.entries[0].criterion in IdSet(pc.criteria);
    forall c | c in rubric ensures Cell(pc.id, c.id) in t.scores {
      assert c in multiset(pc.criteria);
      var k :| 0 <= k < |pc.entries| && pc.entries[k].criterion == c.id;
      UpsertWrites(s.scores, pc.id, pc.judge, pc.entries, k);
    }
  }

  lemma StoreKeepsInv(s: State, c: Id, pc: Call)
    requires Inv(s) && c in s.calls && s.At(c) == pc && pc.Validated?
    ensures Inv(StoreScores(s, c, pc))
  {
    var t := StoreScores(s, c, pc);
    assert CallOk(s, pc);
    if Upsertable(pc.entries) {
      UpsertKeepsCells(s.scores, pc.id, pc.judge, pc.entries);
      UpsertScoresAll(s, t, pc);
      CallsSurvive(s, t, c);
      forall cell | cell in t.scores ensures CellOk(t, cell) {
        UpsertedCellsOk(s, t, pc, cell);
      }
      forall id | id in t.assignments && t.assignments[id].status == Completed ensures AllScored(t, id) {
        KeepsScored(s, t, id);
      }
    } else {
      QuietStep(s, t, c);
    }
  }

  lemma {:induction false} StepKeepsInv(s: State, a: Action)
    requires Inv(s)
    ensures Inv(Step(s, a))
  {
    match a
    case Assign(added) => if NewAssignments(s, added) { AssignKeepsInv(s, added); }
    case SubmitUpsert(c) => if s.At(c).Validated? { StoreKeepsInv(s, c, s.At(c)); }
    case SubmitLoad(c, _, _, _) => if c !in s.calls { QuietStep(s, Step(s, a), c); }
    case SubmitCheckDeadline(c, _, _) => if s.At(c).Loaded? { assert CallOk(s, s.At(c)); QuietStep(s, Step(s, a), c); }
    case SubmitValidate(c, _) => if s.At(c).Timely? { assert CallOk(s, s.At(c)); QuietStep(s, Step(s, a), c); }
    case SubmitComplete(c) => if s.At(c).Stored? { CompleteKeepsInv(s, c); }
    case Crash(c) => QuietStep(s, Step(s, a), c);
  }

  lemma CompleteKeepsInv(s: State, c: Id)
    requires Inv(s) && s.At(c).Stored?
    ensures Inv(CompleteAssignment(s, c, s.At(c)))
  {
    var t := CompleteAssignment(s, c, s.At(c));
    assert CallOk(s, s.At(c));
    KeepsScored(s, t, s.At(c).id);
    QuietStep(s, t, c);
  }

  lemma {:induction false} RunKeepsInv(s: State, actions: seq<Action>)
    requires Initial(s)
    ensures Inv(Run(s, actions)) && Run(s, actions).rubrics == s.rubrics
  {
    if actions != [] {
      RunKeepsInv(s, actions[..|actions| - 1]);
      StepKeepsInv(Run(s, actions[..|actions| - 1]), actions[|actions| - 1]);
    }
  }

  // --------------------------------------------------------------------- theorems

  /** Whatever calls run against each other, a completed assignment has exactly one stored
      score for each criterion of its rubric, no other score, and each one is in range. */
  lemma CompletedMeansScored(s: State, actions: seq<Action>, id: Id)
    requires Initial(s)
    requires id in Run(s, actions).assignments && Run(s, actions).assignments[id].status == Completed
    ensures var t := Run(s, actions); var rubric := RubricAt(t, id);
            && rubric != []
            && (set cell | cell in t.scores && cell.assignment == id) == (set c | c in rubric :: Cell(id, c.id))
            && forall c :: c in rubric ==> Cell(id, c.id) in t.scores && 1 <= t.scores[Cell(id, c.id)].raw <= c.max
  {
    RunKeepsInv(s, actions);
    var t := Run(s, actions);
    var rubric := RubricAt(t, id);
    assert AllScored(t, id);
    forall cell | cell in t.scores && cell.assignment == id ensures cell in set c | c in rubric :: Cell(id, c.id) {
      assert CellOk(t, cell);
    }
    forall c | c in rubric ensures 1 <= t.scores[Cell(id, c.id)].raw <= c.max {
      assert CellOk(t, Cell(id, c.id));
      var d :| d in rubric && d.id == c.id && 1 <= t.scores[Cell(id, c.id)].raw <= d.max;
      LookupIsUnique(rubric, c);
      LookupIsUnique(rubric, d);
    }
  }

  /** The i-th step of the run writes the status for a call whose scores are stored. */
  ghost predicate Completes(s: State, actions: seq<Action>, i: nat, id: Id) {
    && i < |actions| && actions[i].SubmitComplete?
    && var pc := Run(s, actions[..i]).At(actions[i].call); pc.Stored? && pc.id == id
  }

  /** An assignment is completed if and only if some call went through to the end for it,
      and is still pending otherwise. */
  lemma {:induction false} CompletedIff(s: State, actions: seq<Action>, id: Id)
    requires Initial(s)
    ensures var t := Run(s, actions);
            (exists i :: Completes(s, actions, i, id)) <==> id in t.assignments && t.assignments[id].status == Completed
    ensures var t := Run(s, actions);
            id in t.assignments ==> t.assignments[id].status == Completed || t.assignments[id].status == Pending
  {
    if actions != [] {
      var n := |actions| - 1;
      CompletedIff(s, actions[..n], id);
      RunKeepsInv(s, actions[..n]);
      StepKeeps(Run(s, actions[..n]), actions[n]);
      forall i: nat | i < n ensures Completes(s, actions, i, id) <==> Completes(s, actions[..n], i, id) {
        assert actions[..n][..i] == actions[..i];
      }
      if actions[n].SubmitComplete? {
        var pc := Run(s, actions[..n]).At(actions[n].call);
        assert CallOk(Run(s, actions[..n]), pc);
        assert Completes(s, actions, n, id) <==> pc.Stored? && pc.id == id;
      }
    }
  }

  /** A call that returns has completed its assignment, had one entry per criterion of the
      assignment's rubric, and its total is the sum of raw times weight over that rubric. */
  lemma SuccessListsEachOnce(s: State, actions: seq<Action>, c: Id)
    requires Initial(s) && Run(s, actions).At(c).Done?
    ensures var t := Run(s, actions); var pc := t.At(c);
            && pc.id in t.assignments && t.assignments[pc.id].status == Completed
            && |pc.entries| == |RubricAt(t, pc.id)|
            && ListsEachOnce(pc.entries, RubricAt(t, pc.id))
            && pc.total == RubricTotal(RubricAt(t, pc.id), Raws(pc.entries))
  {
    RunKeepsInv(s, actions);
    var t := Run(s, actions);
    var pc := t.At(c);
    assert CallOk(t, pc);
    var rubric := RubricAt(t, pc.id);
    ValidScoresAreListed(pc.entries, pc.criteria);
    OrderKeepsDistinctIds(pc.criteria, rubric);
    TotalIsOverTheRubric(pc.entries, pc.criteria, rubric);
    KnownIds(pc.entries, pc.criteria);
    NamedIsTheRubric(pc.entries, pc.criteria);
    assert |multiset(Named(pc.entries, pc.criteria))| == |pc.entries|;
    assert |multiset(rubric)| == |rubric|;
  }

  /** At the moment a call stores its scores, the total it will return is the total
      recomputed from the stored rows. */
  lemma TotalIsThatOfTheRows(s: State, c: Id, pc: Call)
    requires Inv(s) && c in s.calls && s.At(c) == pc && pc.Validated? && Upsertable(pc.entries)
    ensures var t := StoreScores(s, c, pc);
            && t.At(c) == Stored(pc.id, pc.entries, pc.criteria) && pc.id in t.assignments
            && CompleteAssignment(t, c, t.At(c)).At(c).total
               == RubricTotal(RubricAt(t, pc.id), StoredRaws(t.scores, pc.id))
  {
    assert CallOk(s, pc);
    ValidScoresAreListed(pc.entries, pc.criteria);
    StoredTotal(s.scores, pc.id, pc.judge, pc.entries, pc.criteria, RubricAt(s, pc.id));
  }
}
