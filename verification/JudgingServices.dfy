/** The score submission as it is written (internal/judging/usecase/scores.go and
    internal/judging/repository), on tables that other requests keep changing between its
    repository calls. The database records the run it is in; each piece of the code is
    proved to make one step of the machine in Judging, and the whole to succeed exactly
    when it should. */
module JudgingServices {
  import opened Wrappers
  import opened PlatformModel
  import opened Scoring
  import opened Judging

  datatype Error = NotFound | DeadlinePassed | Invalid | Internal

  predicate By(a: Action, me: Id) { !a.Assign? && a.call == me }

  /** The call's own actions in a run. */
  function Own(actions: seq<Action>, me: Id): seq<Action> {
    if actions == [] then []
    else
      var last := actions[|actions| - 1];
      Own(actions[..|actions| - 1], me) + if By(last, me) then [last] else []
  }

  ghost predicate NotMine(actions: seq<Action>, me: Id) { forall i :: 0 <= i < |actions| ==> !By(actions[i], me) }

  lemma {:induction false} OwnOfOthers(before: seq<Action>, actions: seq<Action>, me: Id)
    requires NotMine(actions, me)
    ensures Own(before + actions, me) == Own(before, me)
  {
    if actions == [] {
      assert before + actions == before;
    } else {
      OwnOfOthers(before, actions[..|actions| - 1], me);
      assert (before + actions)[..|before + actions| - 1] == before + actions[..|actions| - 1];
    }
  }

  lemma StepKeepsCall(s: State, a: Action, me: Id)
    requires !By(a, me)
    ensures Step(s, a).At(me) == s.At(me) && (me in Step(s, a).calls <==> me in s.calls)
  {}

  lemma {:induction false} OthersKeepCall(s: State, actions: seq<Action>, me: Id)
    requires NotMine(actions, me)
    ensures Run(s, actions).At(me) == s.At(me) && (me in Run(s, actions).calls <==> me in s.calls)
  {
    if actions != [] {
      OthersKeepCall(s, actions[..|actions| - 1], me);
      StepKeepsCall(Run(s, actions[..|actions| - 1]), actions[|actions| - 1], me);
    }
  }

  // -------------------------------------------------------------- the database

  class Database {
    var rubrics: Rubrics
    var assignments: Assignments
    var scores: Scores
    var calls: map<Id, Call>               // the machine's record of each call
    ghost var start: State
    ghost var trace: seq<Action>

    ghost function St(): State
      reads this
    {
      State(rubrics, assignments, scores, calls)
    }

    /** The tables are where the run so far leads. */
    ghost predicate Valid()
      reads this
    {
      St() == Run(start, trace)
    }

    /** Other requests run. */
    method Others(actions: seq<Action>, ghost me: Id)
      requires Valid() && NotMine(actions, me)
      modifies this
      ensures Valid() && start == old(start) && trace == old(trace) + actions && Own(trace, me) == old(Own(trace, me))
      ensures St() == Run(old(St()), actions) && St().At(me) == old(St().At(me)) && (me in calls <==> me in old(calls))
      ensures Keeps(old(St()), St())
    {
      var s := Run(State(rubrics, assignments, scores, calls), actions);
      rubrics, assignments, scores, calls := s.rubrics, s.assignments, s.scores, s.calls;
      RunInTwo(start, trace, actions);
      OwnOfOthers(trace, actions, me);
      OthersKeepCall(old(St()), actions, me);
      RunKeeps(old(St()), actions);
      trace := trace + actions;
    }

    /** This request's step is over: it is recorded. */
    ghost method Advance(a: Action, me: Id, before: State)
      requires before == Run(start, trace) && By(a, me) && St() == Step(before, a)
      modifies this`trace
      ensures Valid() && trace == old(trace) + [a] && Own(trace, me) == old(Own(trace, me)) + [a]
      ensures Keeps(before, St())
    {
      StepKeeps(before, a);
      assert (trace + [a])[..|trace|] == trace;
      trace := trace + [a];
    }
  }

  class AssignmentRepository {
    const db: Database

    constructor (db: Database)
      ensures this.db == db
    {
      this.db := db;
    }

    method FindByIDAndJudge(id: Id, judge: Id) returns (a: Option<JudgeAssignment>)
      ensures a == None <==> id !in db.assignments || db.assignments[id].judge != judge
      ensures a.Some? ==> db.assignments[id] == a.value && a.value.judge == judge
    {
      a := if id in db.assignments && db.assignments[id].judge == judge then Some(db.assignments[id]) else None;
    }

    method UpdateStatus(id: Id, status: AssignmentStatus)
      modifies db`assignments
      ensures db.assignments == WithStatus(old(db.assignments), id, status)
    {
      if id in db.assignments {
        db.assignments := db.assignments[id := db.assignments[id].(status := status)];
      }
    }
  }

  class RubricReader {
    const db: Database

    constructor (db: Database)
      ensures this.db == db
    {
      this.db := db;
    }

    /** The query does not order its rows. */
    method FindCriteriaByRubricID(rubric: Id) returns (criteria: seq<Criterion>)
      ensures multiset(criteria) == multiset(RubricOf(db.rubrics, rubric))
    {
      criteria := if rubric in db.rubrics then db.rubrics[rubric] else [];
    }
  }

  datatype ScoreRow = ScoreRow(assignment: Id, criterion: Id, judge: Id, raw: int, notes: Option<string>)

  ghost predicate RowsFor(rows: seq<ScoreRow>, a: Id, judge: Id, entries: seq<ScoreInput>) {
    && |rows| == |entries|
    && forall i :: 0 <= i < |rows| ==>
       rows[i] == ScoreRow(a, entries[i].criterion, judge, entries[i].raw, entries[i].notes)
  }

  /** The foreign key to the criteria. */
  predicate AllKnown(rubrics: Rubrics, entries: seq<ScoreInput>) {
    forall k :: 0 <= k < |entries| ==> KnownCriterion(rubrics, entries[k].criterion)
  }

  predicate KnownCriterion(rubrics: Rubrics, id: Id) { exists r :: r in rubrics && id in IdSet(rubrics[r]) }

  class ScoreRepository {
    const db: Database

    constructor (db: Database)
      ensures this.db == db
    {
      this.db := db;
    }

    /** One statement for all rows: a key proposed twice, or no row at all, fails it. */
    method Exec(rows: array<ScoreRow>, ghost a: Id, ghost judge: Id, ghost entries: seq<ScoreInput>) returns (ok: bool)
      requires RowsFor(rows[..], a, judge, entries)
      modifies db`scores
      ensures ok <==> Upsertable(entries)
      ensures db.scores == if ok then Upserted(old(db.scores), a, judge, entries) else old(db.scores)
    {
      var table := db.scores;
      var proposed: set<Cell> := {};
      for i := 0 to rows.Length
        invariant table == Upserted(db.scores, a, judge, entries[..i]) && db.scores == old(db.scores)
        invariant forall cell :: cell in proposed <==> cell.assignment == a && cell.criterion in Scored(entries[..i])
        invariant DistinctEntries(entries[..i])
      {
        var row := rows[i];
        assert row == rows[..][i];
        var cell := Cell(row.assignment, row.criterion);
        assert entries[..i + 1][..i] == entries[..i];
        if cell in proposed {
          return false;
        }
        table := table[cell := StoredScore(if cell in table then table[cell].judge else row.judge, row.raw, row.notes)];
        proposed := proposed + {cell};
        assert Scored(entries[..i + 1]) == Scored(entries[..i]) + {row.criterion};
      }
      assert entries[..rows.Length] == entries;
      ok := rows.Length > 0;
      if ok {
        db.scores := table;
      }
    }

    method UpsertAll(a: Id, judge: Id, entries: seq<ScoreInput>) returns (ok: bool)
      modifies db`scores
      ensures ok <==> Upsertable(entries) && a in db.assignments && AllKnown(db.rubrics, entries)
      ensures db.scores == if ok then Upserted(old(db.scores), a, judge, entries) else old(db.scores)
    {
      var rows := new ScoreRow[|entries|];
      for i := 0 to |entries|
        invariant db.scores == old(db.scores)
        invariant forall k :: 0 <= k < i ==>
                  rows[k] == ScoreRow(a, entries[k].criterion, judge, entries[k].raw, entries[k].notes)
      {
        rows[i] := ScoreRow(a, entries[i].criterion, judge, entries[i].raw, entries[i].notes);
      }
      ok := a in db.assignments && AllKnown(db.rubrics, entries);
      if ok {
        ok := Exec(rows, a, judge, entries);
      }
    }
  }

  /** The conditions for a submission of scores: the judge's own assignment, in time, with
      one entry in range for each criterion of a rubric that has some. */
  ghost predicate Submittable(s: State, deadlines: map<Id, Option<int>>, id: Id, judge: Id, entries: seq<ScoreInput>,
          now: int) {
    && Owns(s, id, judge) && InTime(deadlines, s.assignments[id].event, now) && Fits(entries, RubricAt(s, id))
  }

  /** Which error a call that must fail reports: what comes first in the order of the checks. */
  ghost function ReasonNot(s: State, deadlines: map<Id, Option<int>>, id: Id, judge: Id, entries: seq<ScoreInput>,
          now: int): Error {
    if !Owns(s, id, judge) || !InTime(deadlines, s.assignments[id].event, now) then NotOpen(s, deadlines, id, judge)
    else if Accepts(entries, RubricAt(s, id)) then Internal else Invalid
  }

  /** Without an assignment, without its event, or after the event's deadline. */
  ghost function NotOpen(s: State, deadlines: map<Id, Option<int>>, id: Id, judge: Id): Error {
    if !Owns(s, id, judge) then NotFound
    else if s.assignments[id].event in deadlines then DeadlinePassed else Internal
  }

  ghost predicate Owns(s: State, id: Id, judge: Id) { id in s.assignments && s.assignments[id].judge == judge }

  ghost predicate Fits(entries: seq<ScoreInput>, rubric: seq<Criterion>) {
    rubric != [] && DistinctIds(rubric) && ListsEachOnce(entries, rubric) && InRange(entries, rubric)
  }

  predicate InTime(deadlines: map<Id, Option<int>>, event: Id, now: int) {
    event in deadlines && (deadlines[event].Some? ==> now <= deadlines[event].value)
  }

  lemma AcceptsEitherWay(entries: seq<ScoreInput>, criteria: seq<Criterion>, order: seq<Criterion>)
    requires multiset(criteria) == multiset(order)
    ensures Accepts(entries, criteria) <==> Accepts(entries, order)
  {
    if DistinctIds(criteria) {
      OrderKeepsDistinctIds(criteria, order);
    } else if DistinctIds(order) {
      OrderKeepsDistinctIds(order, criteria);
    }
    forall k | 0 <= k < |entries| ensures Allowed(criteria, entries[k]) <==> Allowed(order, entries[k]) {
      if Allowed(criteria, entries[k]) {
        AllowedInAnyOrder(criteria, order, entries[k], entries[k]);
      } else if Allowed(order, entries[k]) {
        AllowedInAnyOrder(order, criteria, entries[k], entries[k]);
      }
    }
  }

  /** Validated entries never run into the foreign keys. */
  lemma AcceptedAreKnown(rubrics: Rubrics, rubric: Id, entries: seq<ScoreInput>, criteria: seq<Criterion>)
    requires Accepts(entries, criteria) && multiset(criteria) == multiset(RubricOf(rubrics, rubric))
    ensures AllKnown(rubrics, entries)
  {
    var order := RubricOf(rubrics, rubric);
    AcceptsEitherWay(entries, criteria, order);
    ValidScoresAreListed(entries, order);
    forall k | 0 <= k < |entries| ensures KnownCriterion(rubrics, entries[k].criterion) {
      assert entries[k].criterion in Scored(entries);
      assert rubric in rubrics && entries[k].criterion in IdSet(rubrics[rubric]);
    }
  }

  /** Accepted by the validation and then by the upsert is what Submittable asks for. */
  lemma AcceptedAndUpsertable(entries: seq<ScoreInput>, criteria: seq<Criterion>, rubric: seq<Criterion>)
    requires multiset(criteria) == multiset(rubric)
    ensures Accepts(entries, criteria) && Upsertable(entries) <==>
            Fits(entries, rubric)
  {
    assert |multiset(rubric)| == |rubric| && |multiset(criteria)| == |criteria|;
    if Accepts(entries, criteria) && Upsertable(entries) {
      AcceptsEitherWay(entries, criteria, rubric);
      ValidScoresAreListed(entries, criteria);
      assert entries[0].criterion in IdSet(rubric);
    }
    if Fits(entries, rubric) {
      CoversIsEqual(entries, rubric);
      AcceptsEitherWay(entries, rubric, criteria);
      assert rubric[0].id in Scored(entries);
    }
  }

  /** Accepted scores always have a total. */
  method Tally(entries: seq<ScoreInput>, criteria: seq<Criterion>) returns (total: real)
    requires Accepts(entries, criteria)
    ensures total == Total(entries, criteria)
  {
    forall k | 0 <= k < |entries| ensures !NotANumber(criteria, entries[k]) {}
    var sum := WeightedTotal(entries, criteria);
    total := sum.value;
  }

  class SubmitScoresService {
    const db: Database
    const assignments: AssignmentRepository
    const rubrics: RubricReader
    const scores: ScoreRepository

    constructor (db: Database)
      ensures this.db == db && Wired()
    {
      this.db := db;
      assignments := new AssignmentRepository(db);
      rubrics := new RubricReader(db);
      scores := new ScoreRepository(db);
    }

    ghost predicate Wired() { assignments.db == db && rubrics.db == db && scores.db == db }

    method Load(me: Id, id: Id, judge: Id, entries: seq<ScoreInput>, others: seq<Action>)
      returns (a: Option<JudgeAssignment>, ghost at: State)
      requires Wired() && db.Valid() && me !in db.calls && NotMine(others, me)
      modifies db
      ensures db.Valid() && db.start == old(db.start) && at == Run(old(db.St()), others) && Keeps(at, db.St())
      ensures Own(db.trace, me) == old(Own(db.trace, me)) + [SubmitLoad(me, id, judge, entries)]
      ensures a == None <==> !Owns(at, id, judge)
      ensures a.Some? ==> a.value == at.assignments[id]
      ensures me in db.calls
      ensures db.calls[me] == if a.Some? then Loaded(id, judge, a.value.rubric, entries) else Failed
    {
      db.Others(others, me);
      at := db.St();
      a := assignments.FindByIDAndJudge(id, judge);
      db.calls := db.calls[me := if a.Some? then Loaded(id, judge, a.value.rubric, entries) else Failed];
      db.Advance(SubmitLoad(me, id, judge, entries), me, at);
    }

    /** `found` is what the event query returns: nothing, or the event's judging deadline. */
    method CheckDeadline(me: Id, id: Id, judge: Id, rubric: Id, entries: seq<ScoreInput>, found: Option<Option<int>>,
            now: int, others: seq<Action>)
      returns (err: Option<Error>, ghost step: Action)
      requires Wired() && db.Valid() && NotMine(others, me)
      requires me in db.calls && db.calls[me] == Loaded(id, judge, rubric, entries)
      modifies db
      ensures step == if found == None then Crash(me) else SubmitCheckDeadline(me, found.value, now)
      ensures db.Valid() && db.start == old(db.start) && Keeps(old(db.St()), db.St())
      ensures Own(db.trace, me) == old(Own(db.trace, me)) + [step]
      ensures err == None <==> found.Some? && (found.value.Some? ==> now <= found.value.value)
      ensures err.Some? ==> err.value == if found == None then Internal else DeadlinePassed
      ensures me in db.calls && db.calls[me] == if err == None then Timely(id, judge, rubric, entries) else Failed
    {
      db.Others(others, me);
      ghost var before := db.St();
      step := if found == None then Crash(me) else SubmitCheckDeadline(me, found.value, now);
      err := None;
      if found == None {
        err := Some(Internal);
      } else if found.value.Some? && now > found.value.value {
        err := Some(DeadlinePassed);
      }
      db.calls := db.calls[me := if err == None then Timely(id, judge, rubric, entries) else Failed];
      db.Advance(step, me, before);
    }

    /** Reading the rubric and judging the entries by it. */
    method Validate(me: Id, id: Id, judge: Id, rubric: Id, entries: seq<ScoreInput>, others: seq<Action>)
      returns (criteria: seq<Criterion>, ok: bool)
      requires Wired() && db.Valid() && NotMine(others, me)
      requires me in db.calls && db.calls[me] == Timely(id, judge, rubric, entries)
      modifies db
      ensures db.Valid() && db.start == old(db.start) && Keeps(old(db.St()), db.St())
      ensures Own(db.trace, me) == old(Own(db.trace, me)) + [SubmitValidate(me, criteria)]
      ensures multiset(criteria) == multiset(RubricOf(db.rubrics, rubric)) && (ok <==> Accepts(entries, criteria))
      ensures ok <==> Accepts(entries, RubricOf(db.rubrics, rubric))
      ensures ok && Upsertable(entries) <==> Fits(entries, RubricOf(db.rubrics, rubric))
      ensures me in db.calls && db.calls[me] == if ok then Validated(id, judge, entries, criteria) else Failed
    {
      db.Others(others, me);
      ghost var before := db.St();
      criteria := rubrics.FindCriteriaByRubricID(rubric);
      var err := ValidateScores(entries, criteria);
      ok := err == None;
      db.calls := db.calls[me := if ok then Validated(id, judge, entries, criteria) else Failed];
      db.Advance(SubmitValidate(me, criteria), me, before);
      AcceptedAndUpsertable(entries, criteria, RubricOf(db.rubrics, rubric));
      AcceptsEitherWay(entries, criteria, RubricOf(db.rubrics, rubric));
    }

    method Upsert(me: Id, id: Id, judge: Id, entries: seq<ScoreInput>, rubric: Id, criteria: seq<Criterion>,
            others: seq<Action>)
      returns (ok: bool)
      requires Wired() && db.Valid() && NotMine(others, me)
      requires me in db.calls && db.calls[me] == Validated(id, judge, entries, criteria)
      requires id in db.assignments && Accepts(entries, criteria)
      requires multiset(criteria) == multiset(RubricOf(db.rubrics, rubric))
      modifies db
      ensures db.Valid() && db.start == old(db.start) && Keeps(old(db.St()), db.St())
      ensures Own(db.trace, me) == old(Own(db.trace, me)) + [SubmitUpsert(me)]
      ensures ok <==> Upsertable(entries)
      ensures ok ==> HoldsEntries(db.scores, id, entries)
      ensures ok ==> Total(entries, criteria) == RubricTotal(RubricOf(db.rubrics, rubric), StoredRaws(db.scores, id))
      ensures me in db.calls && db.calls[me] == if ok then Stored(id, entries, criteria) else Failed
    {
      db.Others(others, me);
      ghost var before := db.St();
      AcceptedAreKnown(db.rubrics, rubric, entries, criteria);
      ok := scores.UpsertAll(id, judge, entries);
      if ok {
        StoresTotal(before.scores, id, judge, entries, criteria, RubricOf(db.rubrics, rubric));
      }
      db.calls := db.calls[me := if ok then Stored(id, entries, criteria) else Failed];
      db.Advance(SubmitUpsert(me), me, before);
    }

    method WriteStatus(me: Id, id: Id, entries: seq<ScoreInput>, criteria: seq<Criterion>, others: seq<Action>)
      requires Wired() && db.Valid() && NotMine(others, me)
      requires me in db.calls && db.calls[me] == Stored(id, entries, criteria)
      modifies db
      ensures db.Valid() && db.start == old(db.start) && Keeps(old(db.St()), db.St())
      ensures Own(db.trace, me) == old(Own(db.trace, me)) + [SubmitComplete(me)]
      ensures me in db.calls && db.calls[me] == Done(id, entries, criteria, Total(entries, criteria))
      ensures id in db.assignments ==> db.assignments[id].status == Completed
    {
      db.Others(others, me);
      ghost var before := db.St();
      assignments.UpdateStatus(id, Completed);
      db.calls := db.calls[me := Done(id, entries, criteria, Total(entries, criteria))];
      assert db.St() == CompleteAssignment(before, me, before.At(me));
      db.Advance(SubmitComplete(me), me, before);
    }

    method GiveUp(me: Id, others: seq<Action>)
      requires Wired() && db.Valid() && NotMine(others, me)
      modifies db
      ensures db.Valid() && db.start == old(db.start) && Keeps(old(db.St()), db.St())
      ensures Own(db.trace, me) == old(Own(db.trace, me)) + [Crash(me)]
      ensures me in db.calls && db.calls[me] == Failed
    {
      db.Others(others, me);
      ghost var before := db.St();
      db.calls := db.calls[me := Failed];
      db.Advance(Crash(me), me, before);
    }

    /** The first part: the assignment and the deadline. */
    method Begin(me: Id, id: Id, judge: Id, entries: seq<ScoreInput>, deadlines: map<Id, Option<int>>, now: int,
            env: seq<seq<Action>>)
      returns (r: Result<JudgeAssignment, Error>, ghost at: State, ghost steps: seq<Action>)
      requires Wired() && db.Valid() && me !in db.calls && Own(db.trace, me) == [] && Apart(env, me)
      modifies db
      ensures db.Valid() && db.start == old(db.start) && at == Run(old(db.St()), env[0]) && Keeps(at, db.St())
      ensures Own(db.trace, me) == steps && Opens(steps, me, id, judge, entries, now)
      ensures r.Ok? <==> Owns(at, id, judge) && InTime(deadlines, at.assignments[id].event, now)
      ensures r.Ok? ==> r.value == at.assignments[id] && |steps| == 2
      ensures r.Err? ==> r.error == NotOpen(at, deadlines, id, judge)
      ensures me in db.calls && db.calls[me] == if r.Ok? then Timely(id, judge, r.value.rubric, entries) else Failed
    {
      var a;
      a, at := Load(me, id, judge, entries, env[0]);
      steps := [SubmitLoad(me, id, judge, entries)];
      if a == None {
        return Err(NotFound), at, steps;
      }
      var event := a.value.event;
      var found := if event in deadlines then Some(deadlines[event]) else None;
      var err, step := CheckDeadline(me, id, judge, a.value.rubric, entries, found, now, env[1]);
      steps := steps + [step];
      r := if err == None then Ok(a.value) else Err(err.value);
    }

    /** The second part: the rubric and the scores. */
    method Store(me: Id, id: Id, judge: Id, entries: seq<ScoreInput>, rubric: Id, env: seq<seq<Action>>)
      returns (criteria: seq<Criterion>, err: Option<Error>, ghost steps: seq<Action>)
      requires Wired() && db.Valid() && Apart(env, me) && me in db.calls
               && db.calls[me] == Timely(id, judge, rubric, entries)
      requires id in db.assignments && db.assignments[id].rubric == rubric
      modifies db
      ensures db.Valid() && db.start == old(db.start) && Own(db.trace, me) == old(Own(db.trace, me)) + steps
      ensures Continues(steps, me) && |steps| <= 2 && (err == None ==> |steps| == 2)
      ensures err == None <==> Fits(entries, RubricOf(old(db.rubrics), rubric))
      ensures err.Some? ==>
                err.value == if Accepts(entries, RubricOf(old(db.rubrics), rubric)) then Internal else Invalid
      ensures err == None ==> Accepts(entries, criteria) && Upsertable(entries) && HoldsEntries(db.scores, id, entries)
      ensures id in db.assignments
      ensures err == None ==>
                Total(entries, criteria) == RubricTotal(RubricOf(old(db.rubrics), rubric), StoredRaws(db.scores, id))
      ensures me in db.calls && db.calls[me] == if err == None then Stored(id, entries, criteria) else Failed
    {
      var ok;
      criteria, ok := Validate(me, id, judge, rubric, entries, env[2]);
      steps := [SubmitValidate(me, criteria)];
      if !ok {
        return criteria, Some(Invalid), steps;
      }
      ok := Upsert(me, id, judge, entries, rubric, criteria, env[3]);
      steps := steps + [SubmitUpsert(me)];
      err := if ok then None else Some(Internal);
    }

    /** Up to the stored scores. */
    method Record(me: Id, id: Id, judge: Id, entries: seq<ScoreInput>, deadlines: map<Id, Option<int>>, now: int,
            env: seq<seq<Action>>)
      returns (r: Result<seq<Criterion>, Error>, ghost at: State, ghost first: seq<Action>, ghost more: seq<Action>)
      requires Wired() && db.Valid() && me !in db.calls && Own(db.trace, me) == [] && Apart(env, me)
      modifies db
      ensures db.Valid() && db.start == old(db.start) && at == Run(old(db.St()), env[0])
      ensures Own(db.trace, me) == first + more && Opens(first, me, id, judge, entries, now)
      ensures more != [] ==> |first| == 2 && |more| <= 2 && Continues(more, me)
      ensures r.Ok? <==> Submittable(at, deadlines, id, judge, entries, now)
      ensures r.Err? ==> r.error == ReasonNot(at, deadlines, id, judge, entries, now)
      ensures r.Ok? ==> |more| == 2 && Accepts(entries, r.value) && Upsertable(entries)
      ensures r.Ok? ==> HoldsEntries(db.scores, id, entries) && id in db.assignments
      ensures r.Ok? ==> Total(entries, r.value) == RubricTotal(RubricAt(at, id), StoredRaws(db.scores, id))
      ensures me in db.calls && db.calls[me] == if r.Ok? then Stored(id, entries, r.value) else Failed
    {
      var loaded;
      loaded, at, first := Begin(me, id, judge, entries, deadlines, now, env);
      more := [];
      if loaded.Err? {
        return Err(loaded.error), at, first, more;
      }
      var criteria, err;
      criteria, err, more := Store(me, id, judge, entries, loaded.value.rubric, env);
      r := if err == None then Ok(criteria) else Err(err.value);
    }

    /** From the stored scores on. If the status cannot be written, the request fails with
        its scores stored. */
    method Finish(me: Id, id: Id, entries: seq<ScoreInput>, criteria: seq<Criterion>, statusFails: bool,
            others: seq<Action>)
      returns (r: Result<real, Error>, ghost step: Action)
      requires Wired() && db.Valid() && NotMine(others, me) && Accepts(entries, criteria)
      requires me in db.calls && db.calls[me] == Stored(id, entries, criteria)
      modifies db
      ensures step == if statusFails then Crash(me) else SubmitComplete(me)
      ensures db.Valid() && db.start == old(db.start) && Keeps(old(db.St()), db.St())
      ensures Own(db.trace, me) == old(Own(db.trace, me)) + [step]
      ensures r == if statusFails then Err(Internal) else Ok(Total(entries, criteria))
      ensures r.Ok? && id in db.assignments ==> db.assignments[id].status == Completed
      ensures Outcome(db.St(), me, r)
    {
      if statusFails {
        GiveUp(me, others);
        return Err(Internal), Crash(me);
      }
      WriteStatus(me, id, entries, criteria, others);
      var total := Tally(entries, criteria);
      return Ok(total), SubmitComplete(me);
    }

    /** The same, after the `first` and `more` calls of the request. */
    method Close(me: Id, id: Id, judge: Id, entries: seq<ScoreInput>, now: int, criteria: seq<Criterion>,
            statusFails: bool, others: seq<Action>, ghost first: seq<Action>, ghost more: seq<Action>)
      returns (r: Result<real, Error>)
      requires Wired() && db.Valid() && NotMine(others, me) && Accepts(entries, criteria)
      requires me in db.calls && db.calls[me] == Stored(id, entries, criteria) && id in db.assignments
      requires Own(db.trace, me) == first + more && Opens(first, me, id, judge, entries, now) && |first| == 2
               && |more| == 2 && Continues(more, me)
      modifies db
      ensures db.Valid() && db.start == old(db.start) && Keeps(old(db.St()), db.St())
      ensures Script(Own(db.trace, me), me, id, judge, entries, now) && |Own(db.trace, me)| == 5
      ensures Own(db.trace, me)[4] == if statusFails then Crash(me) else SubmitComplete(me)
      ensures r == if statusFails then Err(Internal) else Ok(Total(entries, criteria))
      ensures r.Ok? ==> id in db.assignments && db.assignments[id].status == Completed
      ensures Outcome(db.St(), me, r)
    {
      ghost var step;
      r, step := Finish(me, id, entries, criteria, statusFails, others);
      Composes(first, more + [step], me, id, judge, entries, now);
      assert first + more + [step] == first + (more + [step]);
    }

    /** `deadlines` is what the events table holds when it is read, and `env[k]` what the other
        requests do before this one's k-th repository call. `at` is the state in which the
        assignment was read, `written` the one in which the scores have just been stored. */
    method SubmitScores(me: Id, id: Id, judge: Id, entries: seq<ScoreInput>, deadlines: map<Id, Option<int>>, now: int,
            statusFails: bool, env: seq<seq<Action>>)
      returns (r: Result<real, Error>, ghost at: State, ghost written: State)
      requires Wired() && db.Valid() && me !in db.calls && Own(db.trace, me) == [] && Apart(env, me)
      modifies db
      ensures db.Valid() && db.start == old(db.start) && at == Run(old(db.St()), env[0])
      ensures Script(Own(db.trace, me), me, id, judge, entries, now)
      ensures r.Ok? <==> Submittable(at, deadlines, id, judge, entries, now) && !statusFails
      ensures r.Err? ==> r.error == if Submittable(at, deadlines, id, judge, entries, now) then Internal
                                    else ReasonNot(at, deadlines, id, judge, entries, now)
      ensures |Own(db.trace, me)| == 5 <==> Submittable(at, deadlines, id, judge, entries, now)
      ensures |Own(db.trace, me)| == 5 ==> HoldsEntries(written.scores, id, entries) && Keeps(written, db.St())
      ensures r.Ok? ==> r.value == RubricTotal(RubricAt(at, id), StoredRaws(written.scores, id))
      ensures r.Ok? ==> Own(db.trace, me)[4] == SubmitComplete(me)
      ensures r.Ok? ==> id in db.assignments && db.assignments[id].status == Completed
      ensures Outcome(db.St(), me, r)
    {
      ghost var first, more;
      var recorded;
      recorded, at, first, more := Record(me, id, judge, entries, deadlines, now, env);
      written := db.St();
      Composes(first, more, me, id, judge, entries, now);
      if recorded.Err? {
        return Err(recorded.error), at, written;
      }
      r := Close(me, id, judge, entries, now, recorded.value, statusFails, env[4], first, more);
    }
  }

  /** The repository calls of one SubmitScores, in order, up to where it stops. */
  predicate Script(own: seq<Action>, me: Id, id: Id, judge: Id, entries: seq<ScoreInput>, now: int) {
    && Opens(own[..if |own| < 2 then |own| else 2], me, id, judge, entries, now)
    && (|own| > 2 ==> Continues(own[2..], me))
  }

  predicate Opens(own: seq<Action>, me: Id, id: Id, judge: Id, entries: seq<ScoreInput>, now: int) {
    && 1 <= |own| <= 2 && own[0] == SubmitLoad(me, id, judge, entries)
    && (|own| > 1 ==> own[1] == Crash(me) || (own[1].SubmitCheckDeadline? && own[1].call == me && own[1].now == now))
  }

  predicate Continues(own: seq<Action>, me: Id) {
    && 1 <= |own| <= 3 && own[0].SubmitValidate? && own[0].call == me
    && (|own| > 1 ==> own[1] == SubmitUpsert(me))
    && (|own| > 2 ==> own[2] == SubmitComplete(me) || own[2] == Crash(me))
  }

  lemma Composes(first: seq<Action>, more: seq<Action>, me: Id, id: Id, judge: Id, entries: seq<ScoreInput>, now: int)
    requires Opens(first, me, id, judge, entries, now) && (more != [] ==> |first| == 2 && Continues(more, me))
    ensures Script(first + more, me, id, judge, entries, now)
    ensures forall i :: 0 <= i < |more| ==> (first + more)[|first| + i] == more[i]
  {
    var own := first + more;
    if more == [] {
      assert own == first && own[..|own|] == own;
    } else {
      assert own[..2] == first && own[2..] == more;
    }
  }

  /** The machine's record of the call says what the call returns. */
  ghost predicate Outcome(s: State, me: Id, r: Result<real, Error>) {
    me in s.calls && match r
                     case Ok(total) => s.calls[me].Done? && s.calls[me].total == total
                     case Err(_) => s.calls[me] == Failed
  }

  ghost predicate Apart(env: seq<seq<Action>>, me: Id) {
    |env| == 5 && forall k :: 0 <= k < |env| ==> NotMine(env[k], me)
  }

  /** The rows of the assignment are those of the entries. */
  ghost predicate HoldsEntries(scores: Scores, id: Id, entries: seq<ScoreInput>) {
    forall i :: 0 <= i < |entries| ==>
      Cell(id, entries[i].criterion) in scores && scores[Cell(id, entries[i].criterion)].raw == entries[i].raw
  }

  lemma StoresTotal(table: Scores, id: Id, judge: Id, entries: seq<ScoreInput>, criteria: seq<Criterion>,
          order: seq<Criterion>)
    requires Accepts(entries, criteria) && Upsertable(entries) && multiset(order) == multiset(criteria)
    ensures var after := Upserted(table, id, judge, entries);
            HoldsEntries(after, id, entries) && Total(entries, criteria) == RubricTotal(order, StoredRaws(after, id))
  {
    forall i | 0 <= i < |entries|
      ensures var after := Upserted(table, id, judge, entries); var cell := Cell(id, entries[i].criterion);
              cell in after && after[cell].raw == entries[i].raw
    {
      UpsertWrites(table, id, judge, entries, i);
    }
    ValidScoresAreListed(entries, criteria);
    StoredTotal(table, id, judge, entries, criteria, order);
  }

  lemma {:induction false} RunInTwo(s: State, a: seq<Action>, b: seq<Action>)
    ensures Run(s, a + b) == Run(Run(s, a), b)
  {
    if b == [] {
      assert a + b == a;
    } else {
      RunInTwo(s, a, b[..|b| - 1]);
      assert (a + b)[..|a + b| - 1] == a + b[..|b| - 1];
    }
  }
}
