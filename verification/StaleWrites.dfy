/** Why the status of an event is only claimed to climb in serial runs: an update writes
    back the whole row that it loaded (internal/events/usecase/update.go,
    internal/events/repository/pg_event_repo.go). */
module StaleWrites {
  import opened Wrappers
  import opened PlatformModel
  import opened Interleaving

  ghost predicate Lowers(s: State, t: State, e: Id) {
    e in s.events && e in t.events && Rank(t.events[e].status) < Rank(s.events[e].status)
  }

  /** The call has loaded the event to update it, and not yet written it. */
  predicate OnEvent(pc: Call, e: Id) { (pc.EventLoaded? || pc.EventEdited?) && pc.event == e }

  /** The updates of an event that are in flight. */
  function InFlight(s: State, e: Id): set<Id> { set c | c in s.calls && OnEvent(s.calls[c], e) }

  predicate Updates(a: Action) { a.UpdateLoad? || a.UpdateAuthorize? || a.UpdateWrite? }

  // ------------------------------------------------------- what other steps do

  /** Nothing to the event, and nothing to the updates in flight but to end them. */
  ghost predicate LeavesUpdates(s: State, t: State, e: Id) {
    && s.calls.Keys <= t.calls.Keys && (e in s.events ==> e in t.events && t.events[e] == s.events[e])
    && forall c :: OnEvent(t.At(c), e) ==> t.At(c) == s.At(c)
  }

  lemma OtherStepLeaves(s: State, a: Action, e: Id)
    requires !Updates(a)
    ensures LeavesUpdates(s, Step(s, a), e)
  {
    StepFrame(s, a);
    InsertsKeepRows(s, a);
  }

  /** What the three steps of an update do: each moves its own call on, and only the
      write touches a row, by a copy that is in flight. */
  lemma UpdateStep(s: State, a: Action, e: Id)
    requires Updates(a)
    ensures var t := Step(s, a);
            && s.calls.Keys <= t.calls.Keys && (forall d :: d != a.call ==> t.At(d) == s.At(d))
            && (e in s.events ==> e in t.events)
            && (e in s.events && t.events[e] != s.events[e] ==> Writes(s, t, a, e))
  {}

  ghost predicate Writes(s: State, t: State, a: Action, e: Id)
    requires Updates(a)
  {
    && a.UpdateWrite? && s.At(a.call).EventEdited? && OnEvent(s.At(a.call), e) && e in t.events
    && t.events[e].status == s.At(a.call).copy.status && t.At(a.call) == Finished
  }

  /** How the acting call moves: it loads the stored row, edits its copy, or ends. */
  lemma UpdateMoves(s: State, a: Action, e: Id)
    requires Updates(a) && e in s.events
    ensures var pc := Step(s, a).At(a.call);
            OnEvent(pc, e) ==>
              || pc == s.At(a.call)
              || (pc.EventLoaded? && pc.copy == s.events[e] && a.call !in s.calls)
              || (pc.EventEdited? && s.At(a.call).EventLoaded? && s.At(a.call).event == e
                  && Edited(s.At(a.call).copy, s.At(a.call).edit) == Ok(pc.copy))
  {}

  lemma MoveClimbs(e: Event, edit: EventEdit)
    requires Edited(e, edit).Ok?
    ensures Rank(Edited(e, edit).value.status) >= Rank(e.status)
    ensures edit.newStatus.Some? ==> Rank(Edited(e, edit).value.status) > Rank(e.status)
    ensures Edited(e, edit).value.status == if edit.newStatus.Some? then edit.newStatus.value else e.status
  {}

  // ------------------------------------------------------- updates one at a time

  /** A loaded copy has the stored status, and an edited one is not behind it. */
  ghost predicate UpToDate(s: State, pc: Call, e: Id)
    requires e in s.events
  {
    OnEvent(pc, e) ==>
      if pc.EventLoaded? then pc.copy.status == s.events[e].status else Rank(pc.copy.status) >= Rank(s.events[e].status)
  }

  ghost predicate Alone(s: State, e: Id) {
    && e in s.events && (forall c, d :: OnEvent(s.At(c), e) && OnEvent(s.At(d), e) ==> c == d)
    && forall c :: UpToDate(s, s.At(c), e)
  }

  lemma Members(s: State, e: Id, c: Id)
    ensures c in InFlight(s, e) <==> OnEvent(s.At(c), e)
  {}

  lemma AtMostOneIsUnique(ids: set<Id>, c: Id, d: Id)
    requires |ids| <= 1 && c in ids && d in ids
    ensures c == d
  {
    var rest := ids - {c};
    assert ids == rest + {c};
  }

  lemma StepStaysAlone(s: State, a: Action, e: Id)
    requires Alone(s, e) && |InFlight(Step(s, a), e)| <= 1
    ensures Alone(Step(s, a), e) && Rank(Step(s, a).events[e].status) >= Rank(s.events[e].status)
  {
    var t := Step(s, a);
    forall c, d | OnEvent(t.At(c), e) && OnEvent(t.At(d), e) ensures c == d {
      Members(t, e, c);
      Members(t, e, d);
      AtMostOneIsUnique(InFlight(t, e), c, d);
    }
    if Updates(a) {
      UpdateStep(s, a, e);
      UpdateMoves(s, a, e);
      assert UpToDate(s, s.At(a.call), e);
    } else {
      OtherStepLeaves(s, a, e);
    }
    forall c ensures UpToDate(t, t.At(c), e) {
      assert UpToDate(s, s.At(c), e);
    }
  }

  /** At every point of the run at most `k` updates of the event are in flight. */
  ghost predicate AtMost(s: State, actions: seq<Action>, e: Id, k: nat) {
    |InFlight(Run(s, actions), e)| <= k && (actions != [] ==> AtMost(s, actions[..|actions| - 1], e, k))
  }

  /** Some step of the run lowers the event's status. */
  ghost predicate Falls(s: State, actions: seq<Action>, e: Id) {
    && actions != []
    && (Falls(s, actions[..|actions| - 1], e) || Lowers(Run(s, actions[..|actions| - 1]), Run(s, actions), e))
  }

  lemma {:induction false} OneAtATimeClimbs(s: State, actions: seq<Action>, e: Id)
    requires Alone(s, e) && AtMost(s, actions, e, 1)
    ensures Alone(Run(s, actions), e) && !Falls(s, actions, e)
  {
    if actions != [] {
      OneAtATimeClimbs(s, actions[..|actions| - 1], e);
      StepStaysAlone(Run(s, actions[..|actions| - 1]), actions[|actions| - 1], e);
    }
  }

  // ------------------------------------------------------------ archived events

  ghost predicate Buried(s: State, e: Id) {
    && e in s.events && s.events[e].status == Archived
    && forall c :: OnEvent(s.At(c), e) ==> s.At(c).copy.status == Archived
  }

  lemma UpdateStaysBuried(s: State, a: Action, e: Id)
    requires Buried(s, e) && Updates(a)
    ensures Buried(Step(s, a), e)
  {
    var t, c := Step(s, a), a.call;
    UpdateStep(s, a, e);
    UpdateMoves(s, a, e);
    if OnEvent(t.At(c), e) && s.At(c).EventLoaded? && Edited(s.At(c).copy, s.At(c).edit).Ok? {
      MoveClimbs(s.At(c).copy, s.At(c).edit);
    }
  }

  lemma StepStaysBuried(s: State, a: Action, e: Id)
    requires Buried(s, e)
    ensures Buried(Step(s, a), e)
  {
    if Updates(a) {
      UpdateStaysBuried(s, a, e);
    } else {
      OtherStepLeaves(s, a, e);
    }
  }

  lemma {:induction false} ArchivedStays(s: State, actions: seq<Action>, e: Id)
    requires Buried(s, e)
    ensures Buried(Run(s, actions), e) && !Falls(s, actions, e)
  {
    if actions != [] {
      ArchivedStays(s, actions[..|actions| - 1], e);
      StepStaysBuried(Run(s, actions[..|actions| - 1]), actions[|actions| - 1], e);
    }
  }

  // ------------------------------------------------- which late write lowers it

  /** The status that an update of a row asks for: the new one, or the one it read. */
  function Wanted(row: Event, edit: EventEdit): EventStatus {
    if edit.newStatus.Some? then edit.newStatus.value else row.status
  }

  /** Call `c` still carries the row it loaded, or that row edited. */
  ghost predicate Carries(s: State, c: Id, e: Id, row: Event, edit: EventEdit) {
    && e in s.events && c in s.calls
    && (OnEvent(s.At(c), e) ==>
         if s.At(c).EventLoaded? then s.At(c).copy == row && s.At(c).edit == edit
         else Edited(row, edit) == Ok(s.At(c).copy))
  }

  lemma {:induction false} RunCarries(s: State, actions: seq<Action>, c: Id, e: Id, row: Event, edit: EventEdit)
    requires Carries(s, c, e, row, edit)
    ensures Carries(Run(s, actions), c, e, row, edit)
  {
    if actions != [] {
      var front, a := actions[..|actions| - 1], actions[|actions| - 1];
      RunCarries(s, front, c, e, row, edit);
      StepCarries(Run(s, front), a, c, e, row, edit);
    }
  }

  lemma StepCarries(s: State, a: Action, c: Id, e: Id, row: Event, edit: EventEdit)
    requires Carries(s, c, e, row, edit)
    ensures Carries(Step(s, a), c, e, row, edit)
  {
    if Updates(a) {
      UpdateStep(s, a, e);
      UpdateMoves(s, a, e);
    } else {
      OtherStepLeaves(s, a, e);
    }
  }

  /** Whatever runs between an update's load and its write, the write lowers the event's
      status if and only if the table takes it and the event has meanwhile climbed above
      the status that the update asks for or, asking for none, the one it read. */
  lemma {:induction false} WriteLowersIff(s: State, c: Id, e: Id, slug: string, u: Id, edit: EventEdit,
          between: seq<Action>)
    requires c !in s.calls && SlugAnswer(s.events, slug, Some(e))
    requires OnEvent(Run(Step(s, UpdateLoad(c, Some(e), slug, u, edit)), between).At(c), e)
    requires Run(Step(s, UpdateLoad(c, Some(e), slug, u, edit)), between).At(c).EventEdited?
    ensures var t := Run(Step(s, UpdateLoad(c, Some(e), slug, u, edit)), between);
            Lowers(t, Step(t, UpdateWrite(c)), e) <==>
              && e in t.events && Step(t, UpdateWrite(c)).At(c) == Finished
              && Rank(t.events[e].status) > Rank(Wanted(s.events[e], edit))
  {
    LoadStep(s, c, e, slug, u, edit);
    var s1 := s.Become(c, EventLoaded(e, s.events[e], u, edit));
    RunCarries(s1, between, c, e, s.events[e], edit);
    MoveClimbs(s.events[e], edit);
    var t := Run(s1, between);
    WriteEnds(t, c, e, t.At(c).copy);
  }

  lemma WriteEnds(t: State, c: Id, e: Id, copy: Event)
    requires t.At(c) == EventEdited(e, copy) && e in t.events
    ensures var after := Step(t, UpdateWrite(c));
            && e in after.events && (after.At(c) == Finished <==> SizeOk(copy))
            && after.events[e].status == if SizeOk(copy) then copy.status else t.events[e].status
  {}

  // ----------------------------------------------------- two updates that overlap

  lemma LoadStep(s: State, c: Id, e: Id, slug: string, u: Id, edit: EventEdit)
    requires c !in s.calls && SlugAnswer(s.events, slug, Some(e))
    ensures Step(s, UpdateLoad(c, Some(e), slug, u, edit)) == s.Become(c, EventLoaded(e, s.events[e], u, edit))
  {}

  lemma AuthorizeStep(s: State, c: Id, e: Id, copy: Event, u: Id, edit: EventEdit)
    requires s.At(c) == EventLoaded(e, copy, u, edit) && Grant(e, u, Organizer) in s.roles && Edited(copy, edit).Ok?
    ensures Step(s, UpdateAuthorize(c, Some(Organizer))) == s.Become(c, EventEdited(e, Edited(copy, edit).value))
  {}

  lemma WriteStep(s: State, c: Id, e: Id, copy: Event)
    requires s.At(c) == EventEdited(e, copy) && SizeOk(copy)
    ensures Step(s, UpdateWrite(c)) == s.(events := EventUpdated(s.events, e, copy)).Become(c, Finished)
  {}

  /** Two updates of one organizer that overlap: `c` edits fields, `d` moves the event on. */
  function Overlap(c: Id, d: Id, e: Id, slug: string, u: Id, edit: EventEdit, move: EventEdit): seq<Action> {
    [UpdateLoad(c, Some(e), slug, u, edit)] + [UpdateLoad(d, Some(e), slug, u, move)]
    + [UpdateAuthorize(d, Some(Organizer))] + [UpdateWrite(d)]
  }

  function Late(c: Id): seq<Action> { [UpdateAuthorize(c, Some(Organizer))] + [UpdateWrite(c)] }

  lemma Extend(s: State, own: seq<Action>, a: Action)
    ensures Run(s, own + [a]) == Step(Run(s, own), a)
  {}

  /** Where the overlap leaves the machine: the event moved on, the first call still
      holds the row as it was. */
  lemma OverlapMoves(s: State, c: Id, d: Id, e: Id, slug: string, u: Id, edit: EventEdit, move: EventEdit)
    requires c !in s.calls && d !in s.calls && c != d && SlugAnswer(s.events, slug, Some(e))
    requires Grant(e, u, Organizer) in s.roles
    requires Edited(s.events[e], move).Ok? && SizeOk(Edited(s.events[e], move).value)
    ensures var t := Run(s, Overlap(c, d, e, slug, u, edit, move));
            && t.events == EventUpdated(s.events, e, Edited(s.events[e], move).value)
            && t.At(c) == EventLoaded(e, s.events[e], u, edit) && t.roles == s.roles
  {
    var a, b := UpdateLoad(c, Some(e), slug, u, edit), UpdateLoad(d, Some(e), slug, u, move);
    var copy := Edited(s.events[e], move).value;
    var s1 := s.Become(c, EventLoaded(e, s.events[e], u, edit));
    var s2 := s1.Become(d, EventLoaded(e, s.events[e], u, move));
    var s3 := s2.Become(d, EventEdited(e, copy));
    LoadStep(s, c, e, slug, u, edit);
    LoadStep(s1, d, e, slug, u, move);
    AuthorizeStep(s2, d, e, s.events[e], u, move);
    WriteStep(s3, d, e, copy);
    Extend(s, [], a);
    assert [] + [a] == [a];
    Extend(s, [a], b);
    Extend(s, [a] + [b], UpdateAuthorize(d, Some(Organizer)));
    Extend(s, [a] + [b] + [UpdateAuthorize(d, Some(Organizer))], UpdateWrite(d));
  }

  lemma LateRestores(t: State, c: Id, e: Id, copy: Event, u: Id, edit: EventEdit)
    requires e in t.events && t.At(c) == EventLoaded(e, copy, u, edit) && Grant(e, u, Organizer) in t.roles
    requires Edited(copy, edit).Ok? && SizeOk(Edited(copy, edit).value)
    ensures Run(t, Late(c)).events == EventUpdated(t.events, e, Edited(copy, edit).value)
  {
    var edited := Edited(copy, edit).value;
    AuthorizeStep(t, c, e, copy, u, edit);
    WriteStep(t.Become(c, EventEdited(e, edited)), c, e, edited);
    Extend(t, [], UpdateAuthorize(c, Some(Organizer)));
    assert [] + [UpdateAuthorize(c, Some(Organizer))] == [UpdateAuthorize(c, Some(Organizer))];
    Extend(t, [UpdateAuthorize(c, Some(Organizer))], UpdateWrite(c));
  }

  /** It happens for every event and every allowed move: an update that changes no status
      but spans the move takes the event back. */
  lemma OverlappingUpdateTakesBack(s: State, c: Id, d: Id, e: Id, slug: string, u: Id, edit: EventEdit, move: EventEdit)
    requires c !in s.calls && d !in s.calls && c != d && SlugAnswer(s.events, slug, Some(e))
    requires Grant(e, u, Organizer) in s.roles
    requires edit.newStatus == None && Edited(s.events[e], edit).Ok? && SizeOk(Edited(s.events[e], edit).value)
    requires move.newStatus.Some? && Edited(s.events[e], move).Ok? && SizeOk(Edited(s.events[e], move).value)
    ensures var t := Run(s, Overlap(c, d, e, slug, u, edit, move));
            e in t.events && Rank(t.events[e].status) > Rank(s.events[e].status)
            && e in Run(t, Late(c)).events && Run(t, Late(c)).events[e].status == s.events[e].status
  {
    MoveClimbs(s.events[e], edit);
    MoveClimbs(s.events[e], move);
    OverlapMoves(s, c, d, e, slug, u, edit, move);
    LateRestores(Run(s, Overlap(c, d, e, slug, u, edit, move)), c, e, s.events[e], u, edit);
  }

  // --------------------------------------------------- exactly when it cannot fall

  /** No run with at most `k` updates of the event in flight lowers its status. */
  ghost predicate Safe(s: State, e: Id, k: nat) {
    forall actions: seq<Action> :: AtMost(s, actions, e, k) ==> !Falls(s, actions, e)
  }

  lemma UpdateOnlyAddsItself(s: State, a: Action, e: Id)
    requires Updates(a)
    ensures InFlight(Step(s, a), e) <= InFlight(s, e) + {a.call}
  {
    UpdateStep(s, a, e);
    forall c | c in InFlight(Step(s, a), e) ensures c in InFlight(s, e) + {a.call} {
      Members(Step(s, a), e, c);
      Members(s, e, c);
    }
  }

  lemma {:induction false} PairIsAtMostTwo(s: State, actions: seq<Action>, e: Id, c: Id, d: Id)
    requires InFlight(s, e) == {}
    requires forall i :: 0 <= i < |actions| ==> Updates(actions[i]) && actions[i].call in {c, d}
    ensures InFlight(Run(s, actions), e) <= {c, d} && AtMost(s, actions, e, 2)
  {
    if actions != [] {
      PairIsAtMostTwo(s, actions[..|actions| - 1], e, c, d);
      UpdateOnlyAddsItself(Run(s, actions[..|actions| - 1]), actions[|actions| - 1], e);
    }
    SubsetOfPair(InFlight(Run(s, actions), e), c, d);
  }

  lemma SubsetOfPair(ids: set<Id>, c: Id, d: Id)
    requires ids <= {c, d}
    ensures |ids| <= 2
  {
    assert ids == (if c in ids then {c} else {}) + (if d in ids then {d} else {});
  }

  lemma {:induction false} AtMostGrows(s: State, actions: seq<Action>, e: Id, k: nat, n: nat)
    requires AtMost(s, actions, e, k) && k <= n
    ensures AtMost(s, actions, e, n)
  {
    if actions != [] {
      AtMostGrows(s, actions[..|actions| - 1], e, k, n);
    }
  }

  function Unchanged(): EventEdit { EventEdit(None, None, None, None, None, None, None, None, None, None) }

  function NextMove(e: Event): EventEdit
    requires e.status != Archived
  {
    Unchanged().(newStatus := Some(AllowedTransitions(e.status)[0]))
  }

  /** The witness: an update without changes that spans a move. */
  function TakesBack(s: State, c: Id, d: Id, e: Id, u: Id): seq<Action>
    requires e in s.events && s.events[e].status != Archived
  {
    Overlap(c, d, e, s.events[e].slug, u, Unchanged(), NextMove(s.events[e])) + Late(c)
  }

  lemma OnlyThePair(s: State, c: Id, d: Id, e: Id, u: Id)
    requires e in s.events && s.events[e].status != Archived
    ensures var actions := TakesBack(s, c, d, e, u);
            forall i :: 0 <= i < |actions| ==> Updates(actions[i]) && actions[i].call in {c, d}
  {}

  lemma OverlapFalls(s: State, c: Id, d: Id, e: Id, u: Id)
    requires c !in s.calls && d !in s.calls && c != d && e in s.events && s.events[e].status != Archived
    requires Grant(e, u, Organizer) in s.roles && SizeOk(s.events[e]) && InFlight(s, e) == {}
    ensures AtMost(s, TakesBack(s, c, d, e, u), e, 2) && Falls(s, TakesBack(s, c, d, e, u), e)
  {
    var row := s.events[e];
    var first := Overlap(c, d, e, row.slug, u, Unchanged(), NextMove(row));
    OverlappingUpdateTakesBack(s, c, d, e, row.slug, u, Unchanged(), NextMove(row));
    RunInTwo(s, first, Late(c));
    OnlyThePair(s, c, d, e, u);
    PairIsAtMostTwo(s, TakesBack(s, c, d, e, u), e, c, d);
    MustFall(s, first, Late(c), e);
  }

  /** A run whose second part ends below where it began has a step that lowers the status. */
  lemma MustFall(s: State, a: seq<Action>, b: seq<Action>, e: Id)
    requires e in s.events && e in Run(s, a).events && e in Run(s, a + b).events
    requires Rank(Run(s, a + b).events[e].status) < Rank(Run(s, a).events[e].status)
    ensures Falls(s, a + b, e)
  {
    if !Falls(s, a + b, e) {
      NoFallClimbs(s, a, b, e);
    }
  }

  lemma {:induction false} RunInTwo(s: State, a: seq<Action>, b: seq<Action>)
    ensures Run(s, a + b) == Run(Run(s, a), b)
  {
    if b == [] {
      assert a + b == a;
    } else {
      RunInTwo(s, a, b[..|b| - 1]);
      assert (a + b)[..|a + b| - 1] == a + b[..|b| - 1];
    }
  }

  lemma {:induction false} EventsStay(s: State, actions: seq<Action>, e: Id)
    requires e in s.events
    ensures e in Run(s, actions).events
  {
    if actions != [] {
      var front, a := actions[..|actions| - 1], actions[|actions| - 1];
      EventsStay(s, front, e);
      if Updates(a) {
        UpdateStep(Run(s, front), a, e);
      } else {
        OtherStepLeaves(Run(s, front), a, e);
      }
    }
  }

  /** If no step of a run lowers the status, its second part does not end below where it began. */
  lemma {:induction false} NoFallClimbs(s: State, a: seq<Action>, b: seq<Action>, e: Id)
    requires e in s.events && !Falls(s, a + b, e)
    ensures e in Run(s, a).events && e in Run(s, a + b).events
    ensures Rank(Run(s, a + b).events[e].status) >= Rank(Run(s, a).events[e].status)
  {
    EventsStay(s, a, e);
    EventsStay(s, a + b, e);
    if b == [] {
      assert a + b == a;
    } else {
      assert (a + b)[..|a + b| - 1] == a + b[..|b| - 1];
      NoFallClimbs(s, a, b[..|b| - 1], e);
    }
  }

  /** The exact condition. From any state without an update of the event in flight, its
      status never falls in any interleaving if and only if its updates are kept from
      overlapping, or it is archived. */
  lemma {:induction false} NeverFallsIff(s: State, c: Id, d: Id, e: Id, u: Id, k: nat)
    requires c !in s.calls && d !in s.calls && c != d && e in s.events && InFlight(s, e) == {}
    requires Grant(e, u, Organizer) in s.roles && SizeOk(s.events[e])
    ensures Safe(s, e, k) <==> k <= 1 || s.events[e].status == Archived
  {
    NoneInFlight(s, e);
    if k <= 1 {
      forall actions: seq<Action> | AtMost(s, actions, e, k) ensures !Falls(s, actions, e) {
        AtMostGrows(s, actions, e, k, 1);
        OneAtATimeClimbs(s, actions, e);
      }
    } else if s.events[e].status == Archived {
      forall actions: seq<Action> | AtMost(s, actions, e, k) ensures !Falls(s, actions, e) {
        ArchivedStays(s, actions, e);
      }
    } else {
      OverlapFalls(s, c, d, e, u);
      AtMostGrows(s, TakesBack(s, c, d, e, u), e, 2, k);
    }
  }

  lemma NoneInFlight(s: State, e: Id)
    requires e in s.events && InFlight(s, e) == {}
    ensures Alone(s, e) && (s.events[e].status == Archived ==> Buried(s, e))
  {
    forall c ensures !OnEvent(s.At(c), e) {
      Members(s, e, c);
    }
  }
}
