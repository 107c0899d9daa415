/** What overlapping changes do to a submission: each writes back the whole row that it
    loaded (internal/submissions/usecase, internal/submissions/repository/pg_submission.go). */
module StaleSubmissions {
  import opened Wrappers
  import opened PlatformModel
  import opened Interleaving
  import StaleWrites
  import L = LifecycleSafety

  /** The call has loaded the submission to change it, and not yet written it. */
  predicate OnSub(pc: Call, k: Id) { pc.SubLoaded? && pc.sub == k }

  /** The changes of a submission that are in flight. */
  function InFlight(s: State, k: Id): set<Id> { set c | c in s.calls && OnSub(s.calls[c], k) }

  lemma Members(s: State, k: Id, c: Id)
    ensures c in InFlight(s, k) <==> OnSub(s.At(c), k)
  {}

  /** At every point of the run at most `n` changes of the submission are in flight. */
  ghost predicate AtMost(s: State, actions: seq<Action>, k: Id, n: nat) {
    |InFlight(Run(s, actions), k)| <= n && (actions != [] ==> AtMost(s, actions[..|actions| - 1], k, n))
  }

  /** The step takes the status back, or changes a submission that is no draft any more
      otherwise than by a disqualification. */
  ghost predicate Breaks(s: State, t: State, k: Id) {
    k in s.subs && k in t.subs && !L.Aged(s.subs[k], t.subs[k])
  }

  ghost predicate Broken(s: State, actions: seq<Action>, k: Id) {
    && actions != []
    && (Broken(s, actions[..|actions| - 1], k) || Breaks(Run(s, actions[..|actions| - 1]), Run(s, actions), k))
  }

  // ------------------------------------------------------- what a step may do

  /** The submission and the changes in flight stay as they are, or end. */
  ghost predicate Leaves(s: State, t: State, k: Id) {
    && (k in s.subs ==> k in t.subs && t.subs[k] == s.subs[k])
    && forall c :: OnSub(t.At(c), k) ==> t.At(c) == s.At(c)
  }

  lemma OtherStepLeaves(s: State, a: Action, k: Id)
    requires !a.SubLoad? && !a.SubWrite?
    ensures Leaves(s, Step(s, a), k)
  {
    StepFrame(s, a);
    InsertsKeepRows(s, a);
    FrameLeaves(s, a, Step(s, a), k);
  }

  lemma FrameLeaves(s: State, a: Action, t: State, k: Id)
    requires Frame(s, a, t) && !a.SubLoad? && !a.SubWrite?
    requires a.DraftSave? && k in s.subs ==> k in t.subs && t.subs[k] == s.subs[k]
    ensures Leaves(s, t, k)
  {}

  lemma LoadStepIs(s: State, a: Action, k: Id)
    requires a.SubLoad?
    ensures Step(s, a).subs == s.subs && forall d :: d != a.call ==> Step(s, a).At(d) == s.At(d)
    ensures var pc := Step(s, a).At(a.call);
            OnSub(pc, k) && k in s.subs ==> pc == s.At(a.call) || pc.row == s.subs[k]
  {}

  /** A load takes the stored row; a write puts the changed copy in its place and ends. */
  lemma ChangeStep(s: State, a: Action, k: Id)
    requires (a.SubLoad? || a.SubWrite?) && k in s.subs
    ensures var t := Step(s, a);
            && k in t.subs && (forall d :: d != a.call ==> t.At(d) == s.At(d))
            && (OnSub(t.At(a.call), k) ==> t.At(a.call) == s.At(a.call) || t.At(a.call).row == s.subs[k])
            && (a.SubLoad? ==> t.subs == s.subs)
            && (a.SubWrite? ==> t.subs[k] == s.subs[k] || Writes(s, t, a, k))
  {
    if a.SubLoad? {
      LoadStepIs(s, a, k);
    }
  }

  ghost predicate Writes(s: State, t: State, a: Action, k: Id)
    requires a.SubWrite? && k in s.subs && k in t.subs
  {
    && OnSub(s.At(a.call), k) && Allows(s.At(a.call).row, a.change) && !OnSub(t.At(a.call), k)
    && t.subs[k] == Changed(s.At(a.call).row, a.change).(team := s.subs[k].team, event := s.subs[k].event)
  }

  // ------------------------------------------------------- one change at a time

  /** At most one change is in flight, and its copy is the stored row. */
  ghost predicate Alone(s: State, k: Id) {
    && k in s.subs && (forall c, d :: OnSub(s.At(c), k) && OnSub(s.At(d), k) ==> c == d)
    && forall c :: OnSub(s.At(c), k) ==> s.At(c).row == s.subs[k]
  }

  lemma StepStaysAlone(s: State, a: Action, k: Id)
    requires Alone(s, k) && |InFlight(Step(s, a), k)| <= 1
    ensures Alone(Step(s, a), k) && L.Aged(s.subs[k], Step(s, a).subs[k])
  {
    var t := Step(s, a);
    forall c, d | OnSub(t.At(c), k) && OnSub(t.At(d), k) ensures c == d {
      Members(t, k, c);
      Members(t, k, d);
      StaleWrites.AtMostOneIsUnique(InFlight(t, k), c, d);
    }
    if a.SubLoad? || a.SubWrite? {
      ChangeStep(s, a, k);
    } else {
      OtherStepLeaves(s, a, k);
    }
  }

  lemma {:induction false} OneAtATimeAges(s: State, actions: seq<Action>, k: Id)
    requires Alone(s, k) && AtMost(s, actions, k, 1)
    ensures Alone(Run(s, actions), k) && !Broken(s, actions, k)
  {
    if actions != [] {
      OneAtATimeAges(s, actions[..|actions| - 1], k);
      StepStaysAlone(Run(s, actions[..|actions| - 1]), actions[|actions| - 1], k);
    }
  }

  // --------------------------------------------------------- out of draft

  /** The row is no draft, and the copies in flight differ from it in status at most. */
  ghost predicate Fixed(s: State, k: Id) {
    && k in s.subs && s.subs[k].status != Editable
    && forall c :: OnSub(s.At(c), k) ==>
         s.At(c).row.status != Editable && s.At(c).row == s.subs[k].(status := s.At(c).row.status)
  }

  lemma StepStaysFixed(s: State, a: Action, k: Id)
    requires Fixed(s, k)
    ensures Fixed(Step(s, a), k) && L.Aged(s.subs[k], Step(s, a).subs[k])
  {
    if a.SubLoad? || a.SubWrite? {
      ChangeStep(s, a, k);
    } else {
      OtherStepLeaves(s, a, k);
    }
  }

  lemma {:induction false} SubmittedStays(s: State, actions: seq<Action>, k: Id)
    requires Fixed(s, k)
    ensures Fixed(Run(s, actions), k) && !Broken(s, actions, k)
  {
    if actions != [] {
      SubmittedStays(s, actions[..|actions| - 1], k);
      StepStaysFixed(Run(s, actions[..|actions| - 1]), actions[|actions| - 1], k);
    }
  }

  // ------------------------------------------------------ an edit over a submit

  const NO_EDIT: SubmissionEdit := SubmissionEdit(None, None, None, None)

  function BothLoaded(c: Id, d: Id, k: Id): seq<Action> { [SubLoad(c, k)] + [SubLoad(d, k)] }

  /** Both load the draft, one submits it, and the other saves its edit. */
  function LateEdit(c: Id, d: Id, k: Id, at: int): seq<Action> {
    BothLoaded(c, d, k) + [SubWrite(d, Submits(at))] + [SubWrite(c, Edits(NO_EDIT))]
  }

  lemma LoadStep(s: State, c: Id, k: Id)
    requires c !in s.calls && k in s.subs
    ensures Step(s, SubLoad(c, k)) == s.Become(c, SubLoaded(k, s.subs[k]))
  {}

  lemma WriteStep(s: State, c: Id, k: Id, row: Submission, change: SubmissionChange)
    requires s.At(c) == SubLoaded(k, row) && k in s.subs && Allows(row, change)
    ensures Step(s, SubWrite(c, change))
         == s.(subs := SubmissionUpdated(s.subs, k, Changed(row, change))).Become(c, Finished)
  {}

  /** A change stores the row that its call has loaded, with its own columns changed, if that
      row was still a draft or is to be disqualified. */
  lemma ChangeStores(s: State, c: Id, change: SubmissionChange)
    requires s.At(c).SubLoaded? && s.At(c).sub in s.subs
    ensures var SubLoaded(k, row) := s.At(c);
            var stored := match change
                          case Edits(e) => row.(
                            title := if e.title.Some? then e.title.value else row.title,
                            description := if e.description.Some? then e.description else row.description,
                            repoUrl := if e.repoUrl.Some? then e.repoUrl else row.repoUrl,
                            demoUrl := if e.demoUrl.Some? then e.demoUrl else row.demoUrl)
                          case Submits(at) => row.(status := Submitted, submittedAt := Some(at))
                          case Disqualifies => row.(status := Disqualified)
                          case Covers(url) => row.(coverUrl := Some(url));
            Step(s, SubWrite(c, change)).subs ==
            if change.Disqualifies? || row.status == Editable
            then s.subs[k := stored.(team := s.subs[k].team, event := s.subs[k].event)] else s.subs
  {}

  /** It happens to every draft: a submission is taken back by an edit that spans it. */
  lemma {:induction false} LateEditTakesBack(s: State, c: Id, d: Id, k: Id, at: int)
    requires c !in s.calls && d !in s.calls && c != d && k in s.subs && s.subs[k].status == Editable
    ensures var mid := Run(s, BothLoaded(c, d, k) + [SubWrite(d, Submits(at))]);
            k in mid.subs && mid.subs[k] == s.subs[k].(status := Submitted, submittedAt := Some(at))
    ensures var end := Run(s, LateEdit(c, d, k, at));
            k in end.subs && end.subs[k] == s.subs[k] && Broken(s, LateEdit(c, d, k, at), k)
  {
    var row := s.subs[k];
    var s1 := s.Become(c, SubLoaded(k, row));
    var s2 := s1.Become(d, SubLoaded(k, row));
    var submitted := row.(status := Submitted, submittedAt := Some(at));
    LoadStep(s, c, k);
    LoadStep(s1, d, k);
    WriteStep(s2, d, k, row, Submits(at));
    var s3 := s2.(subs := s2.subs[k := submitted]).Become(d, Finished);
    WriteStep(s3, c, k, row, Edits(NO_EDIT));
    StaleWrites.Extend(s, [], SubLoad(c, k));
    assert [] + [SubLoad(c, k)] == [SubLoad(c, k)];
    StaleWrites.Extend(s, [SubLoad(c, k)], SubLoad(d, k));
    StaleWrites.Extend(s, BothLoaded(c, d, k), SubWrite(d, Submits(at)));
    StaleWrites.Extend(s, BothLoaded(c, d, k) + [SubWrite(d, Submits(at))], SubWrite(c, Edits(NO_EDIT)));
    var front := BothLoaded(c, d, k) + [SubWrite(d, Submits(at))];
    assert LateEdit(c, d, k, at)[..|front|] == front && EditedRow(row, NO_EDIT) == row;
  }

  // --------------------------------------------------- exactly when it cannot

  /** No run with at most `n` changes of the submission in flight breaks it. */
  ghost predicate Safe(s: State, k: Id, n: nat) {
    forall actions: seq<Action> :: AtMost(s, actions, k, n) ==> !Broken(s, actions, k)
  }

  lemma ChangeOnlyAddsItself(s: State, a: Action, k: Id)
    requires (a.SubLoad? || a.SubWrite?) && k in s.subs
    ensures k in Step(s, a).subs && InFlight(Step(s, a), k) <= InFlight(s, k) + {a.call}
  {
    ChangeStep(s, a, k);
    forall c | c in InFlight(Step(s, a), k) ensures c in InFlight(s, k) + {a.call} {
      Members(Step(s, a), k, c);
      Members(s, k, c);
    }
  }

  lemma {:induction false} PairIsAtMostTwo(s: State, actions: seq<Action>, k: Id, c: Id, d: Id)
    requires InFlight(s, k) == {} && k in s.subs
    requires forall i :: 0 <= i < |actions| ==>
               (actions[i].SubLoad? || actions[i].SubWrite?) && actions[i].call in {c, d}
    ensures k in Run(s, actions).subs && InFlight(Run(s, actions), k) <= {c, d} && AtMost(s, actions, k, 2)
  {
    if actions != [] {
      PairIsAtMostTwo(s, actions[..|actions| - 1], k, c, d);
      ChangeOnlyAddsItself(Run(s, actions[..|actions| - 1]), actions[|actions| - 1], k);
    }
    StaleWrites.SubsetOfPair(InFlight(Run(s, actions), k), c, d);
  }

  lemma {:induction false} AtMostGrows(s: State, actions: seq<Action>, k: Id, m: nat, n: nat)
    requires AtMost(s, actions, k, m) && m <= n
    ensures AtMost(s, actions, k, n)
  {
    if actions != [] {
      AtMostGrows(s, actions[..|actions| - 1], k, m, n);
    }
  }

  /** The exact condition. From any state without a change of the submission in flight, no
      interleaving takes its status back or rewrites it out of draft if and only if its
      changes are kept from overlapping, or it has left draft already. */
  lemma {:induction false} NeverBreaksIff(s: State, c: Id, d: Id, k: Id, n: nat)
    requires c !in s.calls && d !in s.calls && c != d && k in s.subs && InFlight(s, k) == {}
    ensures Safe(s, k, n) <==> n <= 1 || s.subs[k].status != Editable
  {
    forall e ensures !OnSub(s.At(e), k) {
      Members(s, k, e);
    }
    if n <= 1 {
      forall actions: seq<Action> | AtMost(s, actions, k, n) ensures !Broken(s, actions, k) {
        AtMostGrows(s, actions, k, n, 1);
        OneAtATimeAges(s, actions, k);
      }
    } else if s.subs[k].status != Editable {
      forall actions: seq<Action> | AtMost(s, actions, k, n) ensures !Broken(s, actions, k) {
        SubmittedStays(s, actions, k);
      }
    } else {
      LateEditTakesBack(s, c, d, k, 0);
      PairIsAtMostTwo(s, LateEdit(c, d, k, 0), k, c, d);
      AtMostGrows(s, LateEdit(c, d, k, 0), k, 2, n);
    }
  }
}
