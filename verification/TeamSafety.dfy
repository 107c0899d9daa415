/** Registration counts and duplicated event ids under every interleaving. */
module TeamSafety {
  import opened Wrappers
  import opened PlatformModel
  import opened Interleaving

  // ------------------------------------------------------- counting registrations

  ghost predicate Registered(s: State, e: Id, u: Id) { Grant(e, u, Participant) in s.roles }

  /** The step is the write of a Register that succeeds. */
  ghost predicate Registers(s: State, a: Action, e: Id, u: Id) {
    a.RegisterGrant? && s.At(a.call) == Registering(e, u, 3) && !Registered(s, e, u)
  }

  /** The step is the write of an Unregister that succeeds. */
  ghost predicate Unregisters(s: State, a: Action, e: Id, u: Id) {
    a.UnregisterRevoke? && s.At(a.call) == Unregistering(e, u, 2) && Registered(s, e, u)
  }

  ghost function Registrations(s: State, actions: seq<Action>, e: Id, u: Id): nat {
    if actions == [] then 0
    else
      var front := actions[..|actions| - 1];
      Registrations(s, front, e, u) + if Registers(Run(s, front), actions[|actions| - 1], e, u) then 1 else 0
  }

  ghost function Unregistrations(s: State, actions: seq<Action>, e: Id, u: Id): nat {
    if actions == [] then 0
    else
      var front := actions[..|actions| - 1];
      Unregistrations(s, front, e, u) + if Unregisters(Run(s, front), actions[|actions| - 1], e, u) then 1 else 0
  }

  ghost predicate Counted(s: State, a: Action, e: Id, u: Id) {
    && (Registers(s, a, e, u) ==> Registered(Step(s, a), e, u))
    && (Unregisters(s, a, e, u) ==> !Registered(Step(s, a), e, u))
    && (!Registers(s, a, e, u) && !Unregisters(s, a, e, u) ==> (Registered(Step(s, a), e, u) <==> Registered(s, e, u)))
  }

  lemma UnregisterCounts(s: State, c: Id, e: Id, u: Id)
    ensures Counted(s, UnregisterRevoke(c), e, u)
  {}

  lemma OthersCount(s: State, a: Action, e: Id, u: Id)
    requires !a.RegisterGrant? && !a.UnregisterRevoke? && !a.CreateGrant?
    ensures Counted(s, a, e, u)
  {
    StepFrame(s, a);
  }

  lemma StepCounts(s: State, a: Action, e: Id, u: Id)
    ensures Counted(s, a, e, u)
  {
    match a
    case RegisterGrant(_) | CreateGrant(_) =>
    case UnregisterRevoke(c) => UnregisterCounts(s, c, e, u);
    case _ => OthersCount(s, a, e, u);
  }

  /** From a state without participant rows, successful Registers minus successful
      Unregisters is one exactly when the participant row exists, and zero otherwise. */
  lemma {:induction false} RegistrationsBalance(s: State, actions: seq<Action>, e: Id, u: Id)
    requires !Registered(s, e, u)
    ensures Registrations(s, actions, e, u) - Unregistrations(s, actions, e, u)
      == if Registered(Run(s, actions), e, u) then 1 else 0
  {
    if actions != [] {
      var front := actions[..|actions| - 1];
      RegistrationsBalance(s, front, e, u);
      StepCounts(Run(s, front), actions[|actions| - 1], e, u);
    }
  }

  // --------------------------------------------------- duplicated event ids

  ghost predicate TeamIn(s: State, t: Id, e: Id) { t in s.teams && s.teams[t].event == e }

  ghost predicate MemberOk(s: State, seat: Seat) {
    seat in s.members ==> TeamIn(s, s.members[seat], seat.event) && s.teams[s.members[seat]].createdBy == seat.user
  }

  ghost predicate TrackIn(s: State, track: Option<Id>, e: Id) {
    track.Some? ==> track.value in s.tracks && s.tracks[track.value] == e
  }

  ghost predicate SubOk(s: State, k: Id) {
    k in s.subs ==> TeamIn(s, s.subs[k].team, s.subs[k].event) && TrackIn(s, s.subs[k].track, s.subs[k].event)
  }

  ghost predicate LocalsOk(s: State, pc: Call) {
    match pc
    case TeamSaved(e, u, t) => TeamIn(s, t, e) && s.teams[t].createdBy == u
    case DraftTeam(e, t, _) => TeamIn(s, t, e)
    case DraftUnique(e, t, _) => TeamIn(s, t, e)
    case DraftReady(e, t, track) => TeamIn(s, t, e) && TrackIn(s, track, e)
    case SubLoaded(k, row) => k in s.subs && s.subs[k].track == row.track
    case _ => true
  }

  ghost predicate EventIdsAgree(s: State) {
    && (forall seat :: MemberOk(s, seat))
    && (forall k :: SubOk(s, k))
    && (forall c :: LocalsOk(s, s.At(c)))
  }

  /** Teams and tracks never change; a submission keeps its team, event and track. */
  ghost predicate Grows(s: State, t: State) {
    && (forall k :: k in s.teams ==> k in t.teams && t.teams[k] == s.teams[k])
    && (forall k :: k in s.tracks ==> k in t.tracks && t.tracks[k] == s.tracks[k])
    && (forall k :: k in s.subs ==> k in t.subs && SameHome(s.subs[k], t.subs[k]))
  }

  predicate SameHome(a: Submission, b: Submission) { a.team == b.team && a.event == b.event && a.track == b.track }

  ghost predicate Progress(s: State, t: State, c: Id) {
    && Grows(s, t)
    && (t.calls == s.calls || (c in t.calls && t.calls == s.calls[c := t.calls[c]]))
    && (forall seat :: seat in t.members ==>
       (seat in s.members && t.members[seat] == s.members[seat]) || MemberOk(t, seat))
    && (forall k :: k in t.subs ==> k in s.subs || SubOk(t, k))
    && LocalsOk(t, t.At(c))
  }

  lemma ProgressKeeps(s: State, t: State, c: Id)
    requires EventIdsAgree(s) && Progress(s, t, c)
    ensures EventIdsAgree(t)
  {
    forall seat ensures MemberOk(t, seat) {
      assert MemberOk(s, seat);
    }
    forall k ensures SubOk(t, k) {
      assert SubOk(s, k);
    }
    forall d ensures LocalsOk(t, t.At(d)) {
      if d != c {
        assert LocalsOk(s, s.At(d)) && t.At(d) == s.At(d);
      }
    }
  }

  lemma MoveProgress(s: State, t: State, c: Id, pc: Call)
    requires t.teams == s.teams && t.members == s.members && t.subs == s.subs && t.calls == s.calls[c := pc]
    requires t.tracks == s.tracks && LocalsOk(s, pc)
    ensures Progress(s, t, c)
  {}

  lemma SaveTeamProgress(s: State, c: Id, id: Id)
    requires s.At(c).TeamReady?
    ensures Progress(s, SaveTeam(s, c, id), c)
  {}

  lemma AddMemberProgress(s: State, c: Id)
    requires s.At(c).TeamSaved? && LocalsOk(s, s.At(c))
    ensures Progress(s, AddMember(s, c), c)
  {}

  lemma SaveDraftProgress(s: State, c: Id, id: Id, texts: Submission)
    requires s.At(c).DraftReady? && LocalsOk(s, s.At(c))
    ensures Progress(s, SaveDraft(s, c, id, texts), c)
  {
    var t := SaveDraft(s, c, id, texts);
    if t.calls[c] == Failed {
      MoveProgress(s, t, c, Failed);
    } else {
      assert t.At(c) == Finished;
      assert SubOk(t, id);
    }
  }

  lemma RewriteProgress(s: State, c: Id, k: Id, row: Submission)
    requires k in s.subs && row.track == s.subs[k].track
    ensures Progress(s, s.(subs := SubmissionUpdated(s.subs, k, row)).Become(c, Finished), c)
  {}

  lemma WriteSubProgress(s: State, c: Id, change: SubmissionChange)
    requires s.At(c).SubLoaded? && LocalsOk(s, s.At(c))
    ensures Progress(s, WriteSub(s, c, change), c)
  {
    var SubLoaded(k, row) := s.At(c);
    if Allows(row, change) {
      RewriteProgress(s, c, k, Changed(row, change));
    } else {
      MoveProgress(s, s.Become(c, Failed), c, Failed);
    }
  }

  predicate TouchesTeams(a: Action) {
    || a.TeamSave? || a.TeamAddMember? || a.DraftFindTeam? || a.DraftFindExisting? || a.DraftFindTracks?
    || a.DraftSave? || a.SubLoad? || a.SubWrite? || a.AddTrack?
  }

  lemma OtherStepsProgress(s: State, a: Action)
    requires !TouchesTeams(a) && LocalsOk(s, s.At(a.call))
    ensures Progress(s, Step(s, a), a.call)
  {
    StepFrame(s, a);
  }

  lemma TeamWriteSteps(s: State, a: Action)
    requires (a.TeamSave? || a.TeamAddMember? || a.AddTrack?) && LocalsOk(s, s.At(a.call)) && Step(s, a) != s
    ensures Progress(s, Step(s, a), a.call)
  {
    match a
    case TeamSave(c, id) => SaveTeamProgress(s, c, id);
    case TeamAddMember(c) => AddMemberProgress(s, c);
    case AddTrack(_, _, _) =>
  }

  lemma DraftReadSteps(s: State, a: Action)
    requires (a.DraftFindTeam? || a.DraftFindExisting? || a.DraftFindTracks?) && LocalsOk(s, s.At(a.call))
             && Step(s, a) != s
    requires a.DraftFindTeam? && s.At(a.call).Drafting? ==> MemberOk(s, Seat(s.At(a.call).user, s.At(a.call).event))
    ensures Progress(s, Step(s, a), a.call)
  {
    var t, c := Step(s, a), a.call;
    match a
    case DraftFindTeam(_) => MoveProgress(s, t, c, TeamFound(s, s.At(c)));
    case DraftFindExisting(_, fails) => MoveProgress(s, t, c, ExistingFound(s, s.At(c), fails));
    case DraftFindTracks(_) => MoveProgress(s, t, c, TracksFound(s, s.At(c)));
  }

  lemma SubmissionWriteSteps(s: State, a: Action)
    requires (a.DraftSave? || a.SubLoad? || a.SubWrite?) && LocalsOk(s, s.At(a.call)) && Step(s, a) != s
    ensures Progress(s, Step(s, a), a.call)
  {
    match a
    case DraftSave(c, id, texts) => SaveDraftProgress(s, c, id, texts);
    case SubLoad(c, id) => MoveProgress(s, Step(s, a), c, if id in s.subs then SubLoaded(id, s.subs[id]) else Failed);
    case SubWrite(c, change) => WriteSubProgress(s, c, change);
  }

  lemma TeamSteps(s: State, a: Action)
    requires TouchesTeams(a) && LocalsOk(s, s.At(a.call)) && Step(s, a) != s
    requires a.DraftFindTeam? && s.At(a.call).Drafting? ==> MemberOk(s, Seat(s.At(a.call).user, s.At(a.call).event))
    ensures Progress(s, Step(s, a), a.call)
  {
    if a.TeamSave? || a.TeamAddMember? || a.AddTrack? {
      TeamWriteSteps(s, a);
    } else if a.DraftFindTeam? || a.DraftFindExisting? || a.DraftFindTracks? {
      DraftReadSteps(s, a);
    } else {
      SubmissionWriteSteps(s, a);
    }
  }

  lemma StepKeepsEventIds(s: State, a: Action)
    requires EventIdsAgree(s)
    ensures EventIdsAgree(Step(s, a))
  {
    assert LocalsOk(s, s.At(a.call));
    if !TouchesTeams(a) {
      OtherStepsProgress(s, a);
      ProgressKeeps(s, Step(s, a), a.call);
    } else if Step(s, a) != s {
      TeamSteps(s, a);
      ProgressKeeps(s, Step(s, a), a.call);
    }
  }

  lemma {:induction false} RunKeepsEventIds(s: State, actions: seq<Action>)
    requires EventIdsAgree(s)
    ensures EventIdsAgree(Run(s, actions))
  {
    if actions != [] {
      RunKeepsEventIds(s, actions[..|actions| - 1]);
      StepKeepsEventIds(Run(s, actions[..|actions| - 1]), actions[|actions| - 1]);
    }
  }

  /** In every reachable state: a membership's event is its team's event and its
      user that team's creator; a submission's event is its team's event, and its
      track, if any, belongs to that event. */
  lemma {:induction false} EventIdsAlwaysAgree(s: State, actions: seq<Action>, seat: Seat, k: Id)
    requires Initial(s)
    ensures var t := Run(s, actions); seat in t.members ==>
              t.members[seat] in t.teams && t.teams[t.members[seat]].event == seat.event
              && t.teams[t.members[seat]].createdBy == seat.user
    ensures var t := Run(s, actions); k in t.subs ==>
              t.subs[k].team in t.teams && t.teams[t.subs[k].team].event == t.subs[k].event
              && (var track := t.subs[k].track;
                  track.Some? ==> track.value in t.tracks && t.tracks[track.value] == t.subs[k].event)
  {
    RunKeepsEventIds(s, actions);
    assert MemberOk(Run(s, actions), seat) && SubOk(Run(s, actions), k);
  }
}
