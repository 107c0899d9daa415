/** What whole runs of the platform keep: events only climb, their teams and
    submissions freeze with them, members are registered participants, judges never
    score their own team, and a submission that left draft is fixed for good. */
module LifecycleSafety {
  import opened Failures
  import opened Wrappers
  import opened PlatformModel
  import opened Lifecycle

  // ---------------------------------------------------------------- submissions

  function StatusRank(s: SubmissionStatus): nat {
    match s
    case Editable => 0
    case Submitted => 1
    case Disqualified => 2
  }

  /** How a submission may differ later on. */
  predicate Aged(a: Submission, b: Submission) {
    && a.team == b.team && a.event == b.event && a.track == b.track
    && StatusRank(a.status) <= StatusRank(b.status)
    && (a.status != Editable ==> b == a.(status := b.status))
  }

  predicate Timed(sub: Submission) {
    (sub.status == Submitted ==> sub.submittedAt.Some?) && (sub.submittedAt.Some? ==> sub.status != Editable)
  }

  predicate MayEdit(w: World, user: Id, sub: Submission, now: int) {
    OnTeam(w, user, sub) && sub.event in w.events && CanEdit(sub, w.events[sub.event].submissionDeadlineAt, now)
  }

  /** Who may do what to which submission, and when. */
  predicate Entitled(w: World, c: Command, s: Id)
    requires s in w.subs
  {
    match c
    case DoEdit(user, id, _, now) => id == s && MayEdit(w, user, w.subs[s], now)
    case DoSubmit(user, id, now, _) => id == s && MayEdit(w, user, w.subs[s], now)
    case DoUpload(cmd, _, _) => cmd.sub == s && cmd.kind == Cover && MayEdit(w, cmd.user, w.subs[s], cmd.now)
    case DoDisqualify(user, id, _) => id == s && IsAdmin(w, user)
    case _ => false
  }

  predicate InPhase(w: World, e: Id, rank: nat) { e in w.events && Rank(w.events[e].status) >= rank }

  predicate Rewrites(subs: Submissions, after: Submissions, id: Id) {
    && id in subs && id in after && after == subs[id := after[id]]
    && Aged(subs[id], after[id]) && (Timed(subs[id]) ==> Timed(after[id]))
  }

  /** Only an upload writes a cover URL, only a disqualification disqualifies. */
  predicate Marks(c: Command, a: Submission, b: Submission) {
    (!c.DoUpload? ==> b.coverUrl == a.coverUrl)
      && (!c.DoDisqualify? && b.status == Disqualified ==> a.status == Disqualified)
  }

  predicate Adds(w: World, after: Submissions, id: Id) {
    && id !in w.subs && id in after && after == w.subs[id := after[id]]
    && InPhase(w, after[id].event, 2) && Rank(w.events[after[id].event].status) == 2 && Timed(after[id])
    && after[id].coverUrl == None && after[id].status == Editable
  }

  /** What a step may do to the submissions. */
  ghost predicate SubsEffect(w: World, c: Command, after: Submissions) {
    || after == w.subs
    || (c.DoCreateSubmission? && exists id :: Adds(w, after, id))
    || (exists id :: Rewrites(w.subs, after, id) && Entitled(w, c, id) && Marks(c, w.subs[id], after[id]))
  }

  lemma CreateAdds(w: World, row: Option<Id>, user: Id, fields: Fields, id: Id, lookupFails: bool)
    requires row.Some? ==> row.value in w.events
    ensures var r := CreateSubmission(w, row, user, fields, id, lookupFails); r.Ok? ==> Adds(w, r.value.subs, id)
  {}

  lemma DisqualifyRewrites(w: World, admin: Id, id: Id, audit: Fault)
    ensures var after := Disqualify(w, admin, id, audit).0.subs;
            after == w.subs || (Rewrites(w.subs, after, id) && IsAdmin(w, admin)
              && after[id].coverUrl == w.subs[id].coverUrl)
  {}

  lemma UploadRewrites(w: World, cmd: UploadCommand, cover: Option<Id>, f: Faults)
    requires cover.Some? ==> cover.value in w.uploads
    ensures var after := UploadFile(w, cmd, cover, f).0.subs;
            after == w.subs || (Rewrites(w.subs, after, cmd.sub) && cmd.kind == Cover
              && MayEdit(w, cmd.user, w.subs[cmd.sub], cmd.now) && after[cmd.sub].status == w.subs[cmd.sub].status)
  {}

  lemma StepSubs(w: World, c: Command)
    ensures SubsEffect(w, c, Step(w, c).subs)
  {
    if Possible(w, c) {
      match c
      case DoCreateSubmission(row, _, caller, fields, id, fails) => CreateAdds(w, row, caller, fields, id, fails);
      case DoEdit(_, _, _, _) | DoSubmit(_, _, _, _) =>
      case DoDisqualify(caller, id, audit) => DisqualifyRewrites(w, caller, id, audit);
      case DoUpload(cmd, cover, f) => UploadRewrites(w, cmd, cover, f);
      case _ =>
    }
  }

  lemma StepAges(w: World, c: Command, s: Id)
    requires s in w.subs
    ensures s in Step(w, c).subs && Aged(w.subs[s], Step(w, c).subs[s])
  {
    StepSubs(w, c);
  }

  /** Status never moves back, and once a submission left draft nothing but its
      status ever changes. */
  lemma {:induction false} SubmissionsOnlyAge(w: World, cs: seq<Command>, s: Id)
    requires s in w.subs
    ensures s in Run(w, cs).subs && Aged(w.subs[s], Run(w, cs).subs[s])
  {
    if cs != [] {
      SubmissionsOnlyAge(w, cs[..|cs| - 1], s);
      StepAges(Run(w, cs[..|cs| - 1]), cs[|cs| - 1], s);
    }
  }

  ghost predicate AllTimed(subs: Submissions) { forall s :: s in subs ==> Timed(subs[s]) }

  lemma StepKeepsTimes(w: World, c: Command)
    requires AllTimed(w.subs)
    ensures AllTimed(Step(w, c).subs)
  {
    StepSubs(w, c);
  }

  /** A submitted row has a submission time, and a row with one is no draft. */
  lemma {:induction false} SubmittedMeansTimed(w: World, cs: seq<Command>)
    requires AllTimed(w.subs)
    ensures AllTimed(Run(w, cs).subs)
  {
    if cs != [] {
      SubmittedMeansTimed(w, cs[..|cs| - 1]);
      StepKeepsTimes(Run(w, cs[..|cs| - 1]), cs[|cs| - 1]);
    }
  }

  /** A stored submission changes only through a member of its own team, on a draft and
      by the event's deadline, or through an administrator's disqualification. */
  lemma OnlyTheEntitledChange(w: World, c: Command, s: Id)
    requires s in w.subs
    ensures s in Step(w, c).subs && (Step(w, c).subs[s] != w.subs[s] ==> Entitled(w, c, s))
  {
    StepSubs(w, c);
  }

  // -------------------------------------------------------------- event status

  /** How an event may differ later on. */
  predicate Grown(a: Event, b: Event) {
    && a.slug == b.slug && a.organizer == b.organizer && Rank(a.status) <= Rank(b.status)
    && (Rank(a.status) >= 2 ==> a.maxTeamSize == b.maxTeamSize)
  }

  lemma EditClimbs(e: Event, edit: EventEdit)
    requires Edited(e, edit).Ok?
    ensures Grown(e, Edited(e, edit).value)
    ensures e.status == Archived ==> Edited(e, edit).value.status == Archived
  {}

  ghost function TeamsOf(w: World, e: Id): map<Id, Team> {
    map t | t in w.teams && w.teams[t].event == e :: w.teams[t]
  }

  ghost function MembersOf(w: World, e: Id): map<Seat, Id> {
    map seat | seat in w.members && seat.event == e :: w.members[seat]
  }

  ghost function SubmissionsOf(w: World, e: Id): set<Id> {
    set s | s in w.subs && w.subs[s].event == e
  }

  /** What no later step undoes: the event's rank, from submissions_open on its teams
      and members, and from judging on its set of submissions. */
  ghost predicate Settled(w: World, v: World, e: Id) {
    && e in w.events && e in v.events && Grown(w.events[e], v.events[e])
    && (Rank(w.events[e].status) >= 2 ==> TeamsOf(v, e) == TeamsOf(w, e) && MembersOf(v, e) == MembersOf(w, e))
    && (Rank(w.events[e].status) >= 3 ==> SubmissionsOf(v, e) == SubmissionsOf(w, e))
  }

  lemma SameTablesSettle(w: World, v: World, e: Id)
    requires e in w.events && w.events == v.events && w.teams == v.teams && w.members == v.members
    requires w.subs.Keys == v.subs.Keys && forall s :: s in w.subs ==> w.subs[s].event == v.subs[s].event
    ensures Settled(w, v, e)
  {}

  /** Neither creates an event, a team or a submission nor updates an event. */
  predicate LeavesTables(c: Command) {
    !(c.DoCreateEvent? || c.DoUpdateEvent? || c.DoCreateTeam? || c.DoCreateSubmission?)
  }

  lemma RegisterLeavesTables(w: World, c: Command)
    requires c.DoRegister?
    ensures Step(w, c).events == w.events && Step(w, c).teams == w.teams && Step(w, c).members == w.members
  {}

  lemma UnregisterLeavesTables(w: World, c: Command)
    requires c.DoUnregister?
    ensures Step(w, c).events == w.events && Step(w, c).teams == w.teams && Step(w, c).members == w.members
  {}

  lemma MemberStepsLeaveTables(w: World, c: Command)
    requires c.DoEdit? || c.DoSubmit?
    ensures Step(w, c).events == w.events && Step(w, c).teams == w.teams && Step(w, c).members == w.members
  {}

  lemma SubmissionStepsLeaveTables(w: World, c: Command)
    requires c.DoDisqualify? || c.DoUpload?
    ensures Step(w, c).events == w.events && Step(w, c).teams == w.teams && Step(w, c).members == w.members
  {}

  lemma SubsKeepEvents(w: World, c: Command)
    requires !c.DoCreateSubmission?
    ensures Step(w, c).subs.Keys == w.subs.Keys
    ensures forall s :: s in w.subs ==> w.subs[s].event == Step(w, c).subs[s].event
  {
    StepSubs(w, c);
  }

  lemma OthersSettle(w: World, c: Command, e: Id)
    requires e in w.events && LeavesTables(c)
    ensures Settled(w, Step(w, c), e)
  {
    if c.DoRegister? {
      RegisterLeavesTables(w, c);
    } else if c.DoUnregister? {
      UnregisterLeavesTables(w, c);
    } else if c.DoEdit? || c.DoSubmit? {
      MemberStepsLeaveTables(w, c);
    } else if c.DoDisqualify? || c.DoUpload? {
      SubmissionStepsLeaveTables(w, c);
    }
    SubsKeepEvents(w, c);
    SameTablesSettle(w, Step(w, c), e);
  }

  /** What a creation may add: an event, perhaps with its organizer. */
  ghost predicate AddsEvent(w: World, v: World, id: Id, e: Event, granted: bool) {
    && id !in w.events && v.events == w.events[id := e]
    && v.roles == (if granted then w.roles + {Grant(id, e.organizer, Organizer)} else w.roles)
    && v == w.(events := v.events, roles := v.roles)
  }

  lemma CreateAddsEvent(w: World, id: Id, cmd: CreateEventCommand, now: int, grant: Fault)
    ensures var v := CreateEvent(w, id, cmd, now, grant).0;
            if EventRefusal(w, id, NewEvent(cmd, now)).Some? then v == w
            else AddsEvent(w, v, id, NewEvent(cmd, now), grant.Done())
  {}

  lemma CreateSettles(w: World, id: Id, cmd: CreateEventCommand, now: int, grant: Fault, e: Id)
    requires e in w.events
    ensures Settled(w, CreateEvent(w, id, cmd, now, grant).0, e)
  {
    var v := CreateEvent(w, id, cmd, now, grant).0;
    CreateAddsEvent(w, id, cmd, now, grant);
    if v == w {
      SameTablesSettle(w, w, e);
    }
  }

  lemma UpdateSettles(w: World, row: Option<Id>, role: Option<Role>, edit: EventEdit, e: Id)
    requires e in w.events && (row.Some? ==> row.value in w.events)
    ensures Settled(w, Or0(UpdateEvent(w, row, role, edit), w), e)
  {}

  /** What a creation may add: a team, perhaps with its first member. */
  ghost predicate AddsTeam(w: World, v: World, id: Id, t: Team, seated: bool) {
    && id !in w.teams && InPhase(w, t.event, 1) && w.events[t.event].status == RegistrationOpen
    && v.teams == w.teams[id := t] && (seated ==> Seat(t.createdBy, t.event) !in w.members)
    && v.members == (if seated then w.members[Seat(t.createdBy, t.event) := id] else w.members)
    && v == w.(teams := v.teams, members := v.members)
  }

  lemma CreateAddsTeam(w: World, row: Option<Id>, role: Option<Role>, cmd: CreateTeamCommand)
    requires (row.Some? ==> row.value in w.events) && |cmd.attempts| == 3
    ensures var v := CreateTeam(w, row, role, cmd).0;
            if TeamRefusal(w, row, role, cmd).Some? then v == w
            else AddsTeam(w, v, cmd.id, NewTeam(w, row.value, cmd),
                          cmd.faults.member.Done() && Seat(cmd.user, row.value) !in w.members)
  {}

  lemma OtherStepsKeepTeams(w: World, c: Command)
    requires !c.DoCreateTeam?
    ensures Step(w, c).teams == w.teams && Step(w, c).members == w.members
  {}

  lemma TeamSettles(w: World, row: Option<Id>, role: Option<Role>, cmd: CreateTeamCommand, e: Id)
    requires e in w.events && (row.Some? ==> row.value in w.events) && |cmd.attempts| == 3
    ensures Settled(w, CreateTeam(w, row, role, cmd).0, e)
  {
    CreateAddsTeam(w, row, role, cmd);
    if TeamRefusal(w, row, role, cmd).Some? {
      SameTablesSettle(w, w, e);
    }
  }

  lemma StepSettles(w: World, c: Command, e: Id)
    requires e in w.events
    ensures Settled(w, Step(w, c), e)
  {
    if Possible(w, c) {
      match c
      case DoUpdateEvent(row, _, _, role, edit) => UpdateSettles(w, row, role, edit, e);
      case DoCreateTeam(row, _, role, cmd) => TeamSettles(w, row, role, cmd, e);
      case DoCreateSubmission(_, _, _, _, _, _) =>
      case DoCreateEvent(id, cmd, now, grant) => CreateSettles(w, id, cmd, now, grant, e);
      case _ => OthersSettle(w, c, e);
    }
  }

  /** Over any run an event's status never falls, and once the event has opened for
      submissions its teams, members and team size stay as they are; once it is being
      judged, so does its set of submissions. */
  lemma {:induction false} EventsSettle(w: World, cs: seq<Command>, e: Id)
    requires e in w.events
    ensures Settled(w, Run(w, cs), e)
  {
    if cs == [] {
      SameTablesSettle(w, w, e);
    } else {
      var mid := Run(w, cs[..|cs| - 1]);
      EventsSettle(w, cs[..|cs| - 1], e);
      StepSettles(mid, cs[|cs| - 1], e);
    }
  }

  lemma {:induction false} RunInTwo(w: World, cs: seq<Command>, ds: seq<Command>)
    ensures Run(w, cs + ds) == Run(Run(w, cs), ds)
  {
    if ds == [] {
      assert cs + ds == cs;
    } else {
      RunInTwo(w, cs, ds[..|ds| - 1]);
      assert (cs + ds)[..|cs + ds| - 1] == cs + ds[..|ds| - 1];
    }
  }

  /** A status that was left is never seen again: if the status is the same at the two
      ends of a run, it was the same all along. In particular archived is final. */
  lemma NoStatusIsRevisited(w: World, cs: seq<Command>, ds: seq<Command>, e: Id)
    requires e in w.events
    requires w.events[e].status == Archived
             || (e in Run(w, cs + ds).events && Run(w, cs + ds).events[e].status == w.events[e].status)
    ensures e in Run(w, cs).events && Run(w, cs).events[e].status == w.events[e].status
  {
    EventsSettle(w, cs, e);
    RunInTwo(w, cs, ds);
    EventsSettle(Run(w, cs), ds, e);
    SameRank(w.events[e].status, Run(w, cs).events[e].status);
  }

  lemma SameRank(a: EventStatus, b: EventStatus)
    ensures Rank(a) == Rank(b) <==> a == b
    ensures Rank(a) <= 6 && (a == Archived <==> Rank(a) == 6)
  {}

  ghost function StatusChanges(w: World, cs: seq<Command>, e: Id): (n: nat)
    requires e in w.events
  {
    if cs == [] then 0
    else
      EventsSettle(w, cs[..|cs| - 1], e); EventsSettle(w, cs, e);
      StatusChanges(w, cs[..|cs| - 1], e) +
      if Run(w, cs).events[e].status != Run(w, cs[..|cs| - 1]).events[e].status then 1 else 0
  }

  /** Each change of status climbs, so there are never more than six. */
  lemma {:induction false} StatusChangesAreFew(w: World, cs: seq<Command>, e: Id)
    requires e in w.events
    ensures e in Run(w, cs).events
    ensures Rank(w.events[e].status) + StatusChanges(w, cs, e) <= Rank(Run(w, cs).events[e].status) <= 6
  {
    if cs != [] {
      var before := Run(w, cs[..|cs| - 1]);
      StatusChangesAreFew(w, cs[..|cs| - 1], e);
      StepSettles(before, cs[|cs| - 1], e);
      SameRank(before.events[e].status, Run(w, cs).events[e].status);
    }
  }

  // -------------------------------------------------------------------- phases

  ghost predicate TeamsInPhase(w: World) { forall t :: t in w.teams ==> InPhase(w, w.teams[t].event, 1) }

  ghost predicate MembersInPhase(w: World) { forall seat :: seat in w.members ==> InPhase(w, seat.event, 1) }

  ghost predicate SubsInPhase(w: World) { forall s :: s in w.subs ==> InPhase(w, w.subs[s].event, 2) }

  /** Teams exist only in events that opened for registration, submissions only in
      events that opened for submissions. */
  ghost predicate Phased(w: World) { TeamsInPhase(w) && MembersInPhase(w) && SubsInPhase(w) }

  lemma StepKeepsPhase(w: World, c: Command, e: Id, rank: nat)
    requires InPhase(w, e, rank)
    ensures InPhase(Step(w, c), e, rank)
  {
    StepSettles(w, c, e);
  }

  lemma StepAddsTeams(w: World, c: Command, t: Id)
    requires t in Step(w, c).teams
    ensures InPhase(w, Step(w, c).teams[t].event, 1) || (t in w.teams && w.teams[t] == Step(w, c).teams[t])
  {
    if !c.DoCreateTeam? {
      OtherStepsKeepTeams(w, c);
    } else if Possible(w, c) {
      CreateAddsTeam(w, c.row, c.role, c.team);
    }
  }

  lemma StepAddsSubs(w: World, c: Command, s: Id)
    requires s in Step(w, c).subs
    ensures InPhase(w, Step(w, c).subs[s].event, 2) || (s in w.subs && w.subs[s].event == Step(w, c).subs[s].event)
  {
    StepSubs(w, c);
  }

  lemma StepKeepsTeamsInPhase(w: World, c: Command)
    requires TeamsInPhase(w)
    ensures TeamsInPhase(Step(w, c))
  {
    var v := Step(w, c);
    forall t | t in v.teams ensures InPhase(v, v.teams[t].event, 1) {
      StepAddsTeams(w, c, t);
      StepKeepsPhase(w, c, v.teams[t].event, 1);
    }
  }

  lemma StepKeepsMembersInPhase(w: World, c: Command)
    requires MembersInPhase(w)
    ensures MembersInPhase(Step(w, c))
  {
    var v := Step(w, c);
    if !c.DoCreateTeam? {
      OtherStepsKeepTeams(w, c);
    } else if Possible(w, c) {
      CreateAddsTeam(w, c.row, c.role, c.team);
    }
    forall seat | seat in v.members ensures InPhase(v, seat.event, 1) {
      assert InPhase(w, seat.event, 1);
      StepKeepsPhase(w, c, seat.event, 1);
    }
  }

  lemma StepKeepsSubsInPhase(w: World, c: Command)
    requires SubsInPhase(w)
    ensures SubsInPhase(Step(w, c))
  {
    var v := Step(w, c);
    forall s | s in v.subs ensures InPhase(v, v.subs[s].event, 2) {
      StepAddsSubs(w, c, s);
      StepKeepsPhase(w, c, v.subs[s].event, 2);
    }
  }

  /** In every run from such a world a team or a membership implies that its event
      reached registration_open, and a submission that it reached submissions_open. */
  lemma {:induction false} RowsComeInPhase(w: World, cs: seq<Command>)
    requires Phased(w)
    ensures Phased(Run(w, cs))
  {
    if cs != [] {
      RowsComeInPhase(w, cs[..|cs| - 1]);
      var before := Run(w, cs[..|cs| - 1]);
      StepKeepsTeamsInPhase(before, cs[|cs| - 1]);
      StepKeepsMembersInPhase(before, cs[|cs| - 1]);
      StepKeepsSubsInPhase(before, cs[|cs| - 1]);
    }
  }

  // ----------------------------------------------- participants and judges

  ghost predicate Apart(roles: Roles) {
    forall g :: g in roles && g.role == Participant ==> Grant(g.event, g.user, Judge) !in roles
  }

  ghost predicate Seated(members: Members, roles: Roles) {
    forall seat :: seat in members ==> Grant(seat.event, seat.user, Participant) in roles
  }

  predicate ByJudge(a: Assignment, roles: Roles, subs: Submissions) {
    Grant(a.event, a.judge, Judge) in roles && a.submission in subs && subs[a.submission].event == a.event
  }

  ghost predicate Judged(assignments: map<Id, Assignment>, roles: Roles, subs: Submissions) {
    forall i :: i in assignments ==> ByJudge(assignments[i], roles, subs)
  }

  ghost predicate Fair(w: World) {
    Apart(w.roles) && Seated(w.members, w.roles) && Judged(w.assignments, w.roles, w.subs)
  }

  lemma StepKeepsApart(w: World, c: Command)
    requires Apart(w.roles)
    ensures Apart(Step(w, c).roles)
    ensures forall g :: g in w.roles && g.role == Judge ==> g in Step(w, c).roles
  {}

  lemma StepKeepsSeated(w: World, c: Command)
    requires Seated(w.members, w.roles)
    ensures Seated(Step(w, c).members, Step(w, c).roles)
  {}

  lemma StepAssigns(w: World, c: Command, i: Id)
    requires i in Step(w, c).assignments && (i in w.assignments ==> ByJudge(w.assignments[i], w.roles, w.subs))
    ensures ByJudge(Step(w, c).assignments[i], w.roles, w.subs)
  {}

  lemma StepKeepsJudged(w: World, c: Command)
    requires Fair(w)
    ensures Judged(Step(w, c).assignments, Step(w, c).roles, Step(w, c).subs)
  {
    var v := Step(w, c);
    StepKeepsApart(w, c);
    forall i | i in v.assignments ensures ByJudge(v.assignments[i], v.roles, v.subs) {
      StepAssigns(w, c, i);
      StepAges(w, c, v.assignments[i].submission);
    }
  }

  /** From any world where judges and participants are apart and members are
      participants, every run keeps it so; no use case grants the judge role. */
  lemma {:induction false} RunsStayFair(w: World, cs: seq<Command>)
    requires Fair(w)
    ensures Fair(Run(w, cs))
  {
    if cs != [] {
      var before := Run(w, cs[..|cs| - 1]);
      RunsStayFair(w, cs[..|cs| - 1]);
      StepKeepsApart(before, cs[|cs| - 1]);
      StepKeepsSeated(before, cs[|cs| - 1]);
      StepKeepsJudged(before, cs[|cs| - 1]);
    }
  }

  /** No assignment, however it was made, gives a judge a submission of a team that
      the judge is on: in the submission's event the judge has no seat at all. */
  lemma {:induction false} NobodyJudgesTheirOwnTeam(w: World, cs: seq<Command>, i: Id)
    requires Fair(w) && i in Run(w, cs).assignments
    ensures var v := Run(w, cs); var a := v.assignments[i];
            a.submission in v.subs && Seat(a.judge, v.subs[a.submission].event) !in v.members
              && !OnTeam(v, a.judge, v.subs[a.submission])
  {
    RunsStayFair(w, cs);
    var v := Run(w, cs);
    var a := v.assignments[i];
    assert ByJudge(a, v.roles, v.subs);
  }

  lemma StepKeepsAssignments(w: World, c: Command, i: Id)
    requires i in w.assignments
    ensures i in Step(w, c).assignments && Step(w, c).assignments[i] == w.assignments[i]
  {}

  /** No use case takes an assignment away. */
  lemma {:induction false} AssignedStays(w: World, cs: seq<Command>, judge: Id, sub: Id)
    requires Paired(w.assignments, judge, sub)
    ensures Paired(Run(w, cs).assignments, judge, sub)
  {
    if cs != [] {
      var before := Run(w, cs[..|cs| - 1]);
      AssignedStays(w, cs[..|cs| - 1], judge, sub);
      var i :| i in before.assignments && before.assignments[i].judge == judge
               && before.assignments[i].submission == sub;
      StepKeepsAssignments(before, cs[|cs| - 1], i);
    }
  }

  /** One bulk assignment covers every eligible pair for good: whatever runs afterwards, a
      later one inserts only pairs that were not eligible at the first. */
  lemma {:induction false} LaterAssignmentsAreNew(w: World, e: Id, added: map<Id, Assignment>, cs: seq<Command>,
          again: map<Id, Assignment>, i: Id, a: Assignment)
    requires BulkAnswer(w, e, added) && BulkAnswer(Run(Step(w, DoAssign(e, added)), cs), e, again)
    requires i in again && SamePair(a, again[i])
    ensures !Eligible(w, e, a)
  {
    var first := Step(w, DoAssign(e, added));
    if Eligible(w, e, a) {
      PairedInSum(w.assignments, added, a.judge, a.submission);
      AssignedStays(first, cs, a.judge, a.submission);
    }
  }

  /** In particular assigning twice in a row adds nothing. */
  lemma AssigningTwiceAddsNothing(w: World, e: Id, added: map<Id, Assignment>, again: map<Id, Assignment>)
    requires BulkAnswer(w, e, added) && BulkAnswer(Step(w, DoAssign(e, added)), e, again)
    ensures again == map[]
  {
    forall i | i in again ensures false {
      LaterAssignmentsAreNew(w, e, added, [], again, i, again[i]);
    }
  }

  // ------------------------------------------------------------- team creators

  /** The team's creator is a member of it. */
  predicate Led(teams: Teams, members: Members, t: Id)
    requires t in teams
  {
    Seat(teams[t].createdBy, teams[t].event) in members && members[Seat(teams[t].createdBy, teams[t].event)] == t
  }

  ghost predicate AllLed(w: World) { forall t :: t in w.teams ==> Led(w.teams, w.members, t) }

  /** The creation is refused, or its second insert is done on a free seat. */
  predicate Seats(w: World, c: Command)
    requires c.DoCreateTeam? && |c.team.attempts| == 3 && (c.row.Some? ==> c.row.value in w.events)
  {
    || TeamRefusal(w, c.row, c.role, c.team).Some?
    || (c.team.faults.member.Done() && Seat(c.team.user, c.row.value) !in w.members)
  }

  /** The step does not leave a new team without its creator. */
  ghost predicate Manned(w: World, c: Command) { c.DoCreateTeam? && Possible(w, c) ==> Seats(w, c) }

  /** Teams stay, seats are never given to another team. */
  lemma StepKeepsTeam(w: World, c: Command, t: Id)
    requires t in w.teams
    ensures t in Step(w, c).teams && Step(w, c).teams[t] == w.teams[t]
    ensures Led(Step(w, c).teams, Step(w, c).members, t) <==> Led(w.teams, w.members, t)
  {
    if !c.DoCreateTeam? {
      OtherStepsKeepTeams(w, c);
    } else if Possible(w, c) {
      CreateAddsTeam(w, c.row, c.role, c.team);
    }
  }

  /** The foreign key from members to teams. */
  ghost predicate Keyed(w: World) { forall seat :: seat in w.members ==> w.members[seat] in w.teams }

  lemma StepKeepsKeyed(w: World, c: Command)
    requires Keyed(w)
    ensures Keyed(Step(w, c))
  {
    if !c.DoCreateTeam? {
      OtherStepsKeepTeams(w, c);
    } else if Possible(w, c) {
      CreateAddsTeam(w, c.row, c.role, c.team);
    }
  }

  lemma NewTeamLedIff(w: World, c: Command)
    requires Keyed(w) && c.DoCreateTeam? && Possible(w, c) && TeamRefusal(w, c.row, c.role, c.team) == None
    ensures var v := Step(w, c);
            && v.teams == w.teams[c.team.id := NewTeam(w, c.row.value, c.team)] && c.team.id !in w.teams
            && (Led(v.teams, v.members, c.team.id) <==> Seats(w, c))
  {
    CreateAddsTeam(w, c.row, c.role, c.team);
  }

  /** Exactly which creations leave every team with its creator. */
  lemma {:induction false} TeamStepLeadsIff(w: World, c: Command)
    requires AllLed(w) && Keyed(w) && c.DoCreateTeam? && Possible(w, c)
    ensures AllLed(Step(w, c)) <==> Seats(w, c)
  {
    var v := Step(w, c);
    forall t | t in w.teams ensures t in v.teams && Led(v.teams, v.members, t) {
      StepKeepsTeam(w, c, t);
    }
    if TeamRefusal(w, c.row, c.role, c.team) == None {
      NewTeamLedIff(w, c);
    }
  }

  lemma StepLeadsIff(w: World, c: Command)
    requires Keyed(w)
    ensures AllLed(Step(w, c)) <==> AllLed(w) && Manned(w, c)
  {
    if !AllLed(w) {
      var t :| t in w.teams && !Led(w.teams, w.members, t);
      StepKeepsTeam(w, c, t);
    } else if c.DoCreateTeam? && Possible(w, c) {
      TeamStepLeadsIff(w, c);
    } else if !c.DoCreateTeam? {
      OtherStepsKeepTeams(w, c);
    }
  }

  /** No creation of the run leaves its team without its creator. */
  ghost predicate AllManned(w: World, cs: seq<Command>) {
    cs == [] || (AllManned(w, cs[..|cs| - 1]) && Manned(Run(w, cs[..|cs| - 1]), cs[|cs| - 1]))
  }

  /** The team and the membership are two separate inserts. Over any serial run every team
      keeps its creator as a member if and only if no creation saved its team and then did
      not insert the member; nothing repairs a team later on. */
  lemma {:induction false} TeamsKeepTheirCreatorsIff(w: World, cs: seq<Command>)
    requires AllLed(w) && Keyed(w)
    ensures Keyed(Run(w, cs)) && (AllLed(Run(w, cs)) <==> AllManned(w, cs))
  {
    if cs != [] {
      TeamsKeepTheirCreatorsIff(w, cs[..|cs| - 1]);
      StepKeepsKeyed(Run(w, cs[..|cs| - 1]), cs[|cs| - 1]);
      StepLeadsIff(Run(w, cs[..|cs| - 1]), cs[|cs| - 1]);
    }
  }

  const OPEN_EVENT: Event := Event("s", "t", None, 5, RegistrationOpen, None, None, None, None, None, None, 5)

  const NO_TEAM_FAULTS: TeamFaults := TeamFaults(false, false, false, NoFault)

  /** User 6 creates a team in event 1. */
  function CreatesTeam(id: Id, name: string, f: TeamFaults): Command {
    var a := Attempt(name, false);
    DoCreateTeam(Some(1), "s", Some(Participant), CreateTeamCommand(6, name, [a, a, a], id, f))
  }

  predicate JustOpened(w: World) {
    && w.events == map[1 := OPEN_EVENT] && w.roles == {Grant(1, 6, Participant)}
    && w.teams == map[] && w.members == map[]
  }

  lemma FirstTeam(w: World, f: TeamFaults)
    requires JustOpened(w) && !f.role
    ensures var c := CreatesTeam(7, "n7", f);
            Possible(w, c) && TeamRefusal(w, c.row, c.role, c.team) == None
            && NewTeam(w, 1, c.team) == Team(1, "n7", "n7", 6)
  {}

  /** It does happen: the member cannot be inserted. */
  lemma TeamsCanBeLeft(w: World)
    requires JustOpened(w)
    ensures AllLed(w) && !AllLed(Step(w, CreatesTeam(7, "n7", NO_TEAM_FAULTS.(member := NotDone))))
  {
    var f := NO_TEAM_FAULTS.(member := NotDone);
    FirstTeam(w, f);
    TeamStepLeadsIff(w, CreatesTeam(7, "n7", f));
  }

  lemma SecondTeam(v: World)
    requires v.events == map[1 := OPEN_EVENT] && v.roles == {Grant(1, 6, Participant)}
    requires v.members == map[Seat(6, 1) := 7] && v.teams == map[7 := Team(1, "n7", "n7", 6)]
    ensures var c := CreatesTeam(8, "n8", NO_TEAM_FAULTS.(seat := true));
            Possible(v, c) && TeamRefusal(v, c.row, c.role, c.team) == None
  {}

  /** Nor is it only the insert: a failed lookup of the creator's team suffices. */
  lemma SecondTeamsCanBeLeft(w: World)
    requires JustOpened(w)
    ensures var v := Step(w, CreatesTeam(7, "n7", NO_TEAM_FAULTS));
            AllLed(v) && !AllLed(Step(v, CreatesTeam(8, "n8", NO_TEAM_FAULTS.(seat := true))))
  {
    var first, second := CreatesTeam(7, "n7", NO_TEAM_FAULTS), CreatesTeam(8, "n8", NO_TEAM_FAULTS.(seat := true));
    FirstTeam(w, NO_TEAM_FAULTS);
    TeamStepLeadsIff(w, first);
    var v := Step(w, first);
    assert v.members == map[Seat(6, 1) := 7] && v.teams == map[7 := Team(1, "n7", "n7", 6)];
    SecondTeam(v);
    TeamStepLeadsIff(v, second);
  }

  // ---------------------------------------------------------- event organizers

  predicate Organized(roles: Roles, e: Id, user: Id) { Grant(e, user, Organizer) in roles }

  /** The creator is an organizer. */
  ghost predicate AllOrganized(w: World) { forall e :: e in w.events ==> Organized(w.roles, e, w.events[e].organizer) }

  /** The event is refused, or its organizer's row is inserted. */
  predicate Grants(w: World, c: Command)
    requires c.DoCreateEvent?
  {
    EventRefusal(w, c.id, NewEvent(c.cmd, c.now)).Some? || c.grant.Done()
  }

  lemma OtherStepsKeepOrganizers(w: World, c: Command)
    requires !c.DoCreateEvent?
    ensures Step(w, c).events.Keys == w.events.Keys
    ensures forall e :: e in w.events ==> Step(w, c).events[e].organizer == w.events[e].organizer
    ensures forall g: Grant :: g.role == Organizer ==> (g in Step(w, c).roles <==> g in w.roles)
  {}

  /** The foreign key from roles to events. */
  ghost predicate RolesKeyed(w: World) { forall g :: g in w.roles ==> g.event in w.events }

  lemma StepKeepsRolesKeyed(w: World, c: Command)
    requires RolesKeyed(w)
    ensures RolesKeyed(Step(w, c))
  {
    if c.DoCreateEvent? {
      CreateAddsEvent(w, c.id, c.cmd, c.now, c.grant);
    } else {
      OtherStepsKeepOrganizers(w, c);
      forall g | g in Step(w, c).roles ensures g.event in w.events {}
    }
  }

  /** Exactly which creations leave every event with its creator as organizer. */
  lemma EventStepOrganizesIff(w: World, c: Command)
    requires AllOrganized(w) && RolesKeyed(w) && c.DoCreateEvent?
    ensures AllOrganized(Step(w, c)) <==> Grants(w, c)
  {
    var v := Step(w, c);
    CreateAddsEvent(w, c.id, c.cmd, c.now, c.grant);
    if Grants(w, c) {
      forall e | e in v.events ensures Organized(v.roles, e, v.events[e].organizer) {
        assert e in w.events ==> Organized(w.roles, e, w.events[e].organizer);
      }
    } else {
      assert c.id in v.events && !Organized(v.roles, c.id, v.events[c.id].organizer);
    }
  }

  lemma StepOrganizesIff(w: World, c: Command)
    requires RolesKeyed(w)
    ensures AllOrganized(Step(w, c)) <==> AllOrganized(w) && (c.DoCreateEvent? ==> Grants(w, c))
  {
    if c.DoCreateEvent? && AllOrganized(w) {
      EventStepOrganizesIff(w, c);
    } else if c.DoCreateEvent? {
      CreateAddsEvent(w, c.id, c.cmd, c.now, c.grant);
      var e :| e in w.events && !Organized(w.roles, e, w.events[e].organizer);
      assert e in Step(w, c).events && !Organized(Step(w, c).roles, e, w.events[e].organizer);
    } else {
      OtherStepsKeepOrganizers(w, c);
      forall e | e in w.events
        ensures Organized(Step(w, c).roles, e, Step(w, c).events[e].organizer) <==>
                Organized(w.roles, e, w.events[e].organizer)
      {}
    }
  }

  ghost predicate AllGranted(w: World, cs: seq<Command>) {
    cs == [] ||
    (AllGranted(w, cs[..|cs| - 1]) && (cs[|cs| - 1].DoCreateEvent? ==> Grants(Run(w, cs[..|cs| - 1]), cs[|cs| - 1])))
  }

  /** The event and its organizer's row are two inserts as well. Over any serial run every
      event keeps its creator as organizer if and only if each creation that saved its event
      inserted the row. */
  lemma {:induction false} EventsKeepTheirOrganizersIff(w: World, cs: seq<Command>)
    requires AllOrganized(w) && RolesKeyed(w)
    ensures RolesKeyed(Run(w, cs)) && (AllOrganized(Run(w, cs)) <==> AllGranted(w, cs))
  {
    if cs != [] {
      EventsKeepTheirOrganizersIff(w, cs[..|cs| - 1]);
      StepKeepsRolesKeyed(Run(w, cs[..|cs| - 1]), cs[|cs| - 1]);
      StepOrganizesIff(Run(w, cs[..|cs| - 1]), cs[|cs| - 1]);
    }
  }

  /** An event without an organizer: nobody may update it. */
  ghost predicate Unowned(w: World, e: Id) { e in w.events && forall u :: !Organized(w.roles, e, u) }

  lemma OtherStepsKeepEvents(w: World, c: Command)
    requires !c.DoCreateEvent? && !c.DoUpdateEvent?
    ensures Step(w, c).events == w.events
  {}

  lemma UpdateNeedsOrganizer(w: World, c: Command, e: Id)
    requires Unowned(w, e) && c.DoUpdateEvent?
    ensures Step(w, c).events.Keys == w.events.Keys && Step(w, c).events[e] == w.events[e]
  {
    if Possible(w, c) {
      if c.row == Some(e) {
        assert !Organized(w.roles, e, c.caller);
        assert UpdateEvent(w, c.row, c.role, c.edit).Err?;
      } else {
        UpdateTouchesOne(w, c.row, c.role, c.edit, e);
      }
    }
  }

  lemma UpdateTouchesOne(w: World, row: Option<Id>, role: Option<Role>, edit: EventEdit, e: Id)
    requires (row.Some? ==> row.value in w.events) && row != Some(e) && e in w.events
    ensures var v := Or0(UpdateEvent(w, row, role, edit), w);
            v.events.Keys == w.events.Keys && v.events[e] == w.events[e]
  {}

  lemma StepLeavesUnowned(w: World, c: Command, e: Id)
    requires Unowned(w, e)
    ensures Unowned(Step(w, c), e) && Step(w, c).events[e] == w.events[e]
  {
    if c.DoCreateEvent? {
      CreateAddsEvent(w, c.id, c.cmd, c.now, c.grant);
    } else {
      OtherStepsKeepOrganizers(w, c);
      if c.DoUpdateEvent? {
        UpdateNeedsOrganizer(w, c, e);
      } else {
        OtherStepsKeepEvents(w, c);
      }
    }
    forall u ensures !Organized(Step(w, c).roles, e, u) {
      assert !Organized(w.roles, e, u);
    }
  }

  /** An event whose organizer's row was not inserted stays the draft it is for good. */
  lemma {:induction false} UnownedEventsNeverChange(w: World, cs: seq<Command>, e: Id)
    requires Unowned(w, e)
    ensures Unowned(Run(w, cs), e) && Run(w, cs).events[e] == w.events[e]
  {
    if cs != [] {
      UnownedEventsNeverChange(w, cs[..|cs| - 1], e);
      StepLeavesUnowned(Run(w, cs[..|cs| - 1]), cs[|cs| - 1], e);
    }
  }

  // ------------------------------------------------------------------- the audit

  ghost predicate Logged(audit: seq<AuditEntry>, s: Id) { exists i :: 0 <= i < |audit| && audit[i].submission == s }

  /** Every disqualified submission has an audit entry. */
  ghost predicate AllLogged(w: World) {
    forall s :: s in w.subs && w.subs[s].status == Disqualified ==> Logged(w.audit, s)
  }

  /** A disqualification keeps it so exactly unless it goes through, is the submission's
      first, and its audit entry cannot be written. */
  lemma DisqualifyLogsIff(w: World, admin: Id, id: Id, audit: Fault)
    requires AllLogged(w)
    ensures AllLogged(Disqualify(w, admin, id, audit).0) <==>
            DisqualifyRefusal(w, admin, id).Some? || audit.Done() || Logged(w.audit, id)
  {
    var v := Disqualify(w, admin, id, audit).0;
    if DisqualifyRefusal(w, admin, id) == None {
      forall s | Logged(w.audit, s) ensures Logged(v.audit, s) {
        var i :| 0 <= i < |w.audit| && w.audit[i].submission == s;
        assert v.audit[i] == w.audit[i];
      }
      if !audit.Done() {
        assert v.subs[id].status == Disqualified && v.audit == w.audit;
      } else {
        assert v.audit[|w.audit|].submission == id;
      }
    }
  }

  /** It does happen: an administrator's disqualification of a draft, with the log down. */
  lemma DisqualificationCanGoUnlogged(w: World, draft: Submission)
    requires w.subs == map[1 := draft] && draft.status == Editable && w.admins == map[9 := true] && w.audit == []
    ensures AllLogged(w) && !AllLogged(Step(w, DoDisqualify(9, 1, NotDone)))
  {
    DisqualifyLogsIff(w, 9, 1, NotDone);
  }

  lemma OtherStepDisqualifies(w: World, c: Command, s: Id)
    requires !c.DoDisqualify? && s in Step(w, c).subs && Step(w, c).subs[s].status == Disqualified
    ensures s in w.subs && w.subs[s].status == Disqualified
  {
    StepSubs(w, c);
  }

  lemma StepKeepsLogged(w: World, c: Command)
    requires AllLogged(w) && (c.DoDisqualify? ==> c.audit.Done())
    ensures AllLogged(Step(w, c))
  {
    if c.DoDisqualify? {
      DisqualifyLogsIff(w, c.caller, c.id, c.audit);
    } else {
      forall s | s in Step(w, c).subs && Step(w, c).subs[s].status == Disqualified ensures Logged(w.audit, s) {
        OtherStepDisqualifies(w, c, s);
      }
    }
  }

  /** Over any run whose audit writes are done every disqualification is on record. */
  lemma {:induction false} DisqualificationsAreLogged(w: World, cs: seq<Command>)
    requires AllLogged(w) && forall i :: 0 <= i < |cs| && cs[i].DoDisqualify? ==> cs[i].audit.Done()
    ensures AllLogged(Run(w, cs))
  {
    if cs != [] {
      DisqualificationsAreLogged(w, cs[..|cs| - 1]);
      StepKeepsLogged(Run(w, cs[..|cs| - 1]), cs[|cs| - 1]);
    }
  }

  // -------------------------------------------------------------------- the start

  /** No teams, submissions, files or assignments yet, and no user who is both a judge
      and a participant of one event. */
  ghost predicate Started(w: World) {
    && w.teams == map[] && w.members == map[] && w.subs == map[] && w.uploads == map[] && w.objects == {}
    && w.assignments == map[] && Apart(w.roles)
  }

  /** Everything above, for every serial run from the start. */
  lemma {:induction false} SerialRunsAreSound(w: World, cs: seq<Command>)
    requires Started(w)
    ensures Phased(Run(w, cs)) && Fair(Run(w, cs)) && AllTimed(Run(w, cs).subs)
    ensures AllLed(Run(w, cs)) <==> AllManned(w, cs)
  {
    RowsComeInPhase(w, cs);
    RunsStayFair(w, cs);
    SubmittedMeansTimed(w, cs);
    TeamsKeepTheirCreatorsIff(w, cs);
  }
}
