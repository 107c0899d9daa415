/** Roles, teams and submissions under arbitrary interleaving: each action is one
    repository call of one use case, with the checks that follow it
    (internal/events/usecase, internal/teams/usecase, internal/submissions/usecase). */
module Interleaving {
  import opened Wrappers
  import opened PlatformModel

  /** How far a use-case call has come, and the local variables it still needs. */
  datatype Call =
    | SlugFree(draft: Event)                               // create event: must save
    | EventSaved(event: Id, user: Id)                      // create event: must grant organizer
    | EventLoaded(event: Id, copy: Event, user: Id, edit: EventEdit)
    | EventEdited(event: Id, copy: Event)                  // update event: authorized and edited, must write
    | Registering(event: Id, user: Id, checked: nat)       // `checked` of the three role lookups are done
    | Unregistering(event: Id, user: Id, checked: nat)     // of the two lookups
    | Teaming(event: Id, user: Id, name: string, checked: nat)         // of the three lookups
    | Coding(event: Id, user: Id, name: string, tries: nat)            // invite codes tried
    | TeamReady(event: Id, user: Id, name: string, code: string)
    | TeamSaved(event: Id, user: Id, team: Id)             // must add the creator as a member
    | Drafting(event: Id, user: Id, track: Option<Id>)     // create submission: the event accepts
    | DraftTeam(event: Id, team: Id, track: Option<Id>)
    | DraftUnique(event: Id, team: Id, track: Option<Id>)
    | DraftReady(event: Id, team: Id, track: Option<Id>)
    | SubLoaded(sub: Id, row: Submission)                  // any later change writes the whole copy
    | Finished
    | Failed

  datatype State = State(
    events: Events, roles: Roles, tracks: Tracks, teams: Teams, members: Members, subs: Submissions,
    calls: map<Id, Call>)
  {
    function At(c: Id): Call { if c in calls then calls[c] else Failed }

    function Become(c: Id, pc: Call): State { this.(calls := calls[c := pc]) }
  }

  datatype Action =
    | CreateCheck(call: Id, draft: Event)
    | CreateSave(call: Id, id: Id)
    | CreateGrant(call: Id)
    | UpdateLoad(call: Id, row: Option<Id>, slug: string, user: Id, edit: EventEdit)
    | UpdateAuthorize(call: Id, role: Option<Role>)
    | UpdateWrite(call: Id)
    | RegisterLoad(call: Id, row: Option<Id>, slug: string, user: Id, now: int)
    | RegisterCheck(call: Id)
    | RegisterGrant(call: Id)
    | UnregisterLoad(call: Id, row: Option<Id>, slug: string, user: Id)
    | UnregisterCheck(call: Id)
    | UnregisterRevoke(call: Id)
    | TeamLoad(call: Id, row: Option<Id>, slug: string, user: Id, name: string)
    | TeamCheck(call: Id, role: Option<Role>, fails: bool)            // the errors of these lookups are dropped
    | TeamTryCode(call: Id, code: string, fails: bool)
    | TeamSave(call: Id, id: Id)
    | TeamAddMember(call: Id)
    | DraftLoad(call: Id, row: Option<Id>, slug: string, user: Id, track: Option<Id>)
    | DraftFindTeam(call: Id)
    | DraftFindExisting(call: Id, fails: bool)
    | DraftFindTracks(call: Id)
    | DraftSave(call: Id, id: Id, texts: Submission)
    | SubLoad(call: Id, id: Id)
    | SubWrite(call: Id, change: SubmissionChange)
    | AddTrack(call: Id, id: Id, event: Id)
    | Abort(call: Id)

  // ---------------------------------------------------------- create an event

  function SlugChecked(s: State, draft: Event): (r: Call)
    ensures r.SlugFree? || r.Failed?
  {
    if draft.slug != "" && draft.title != "" && !SlugTaken(s.events, draft.slug) then SlugFree(draft) else Failed
  }

  function SaveEvent(s: State, c: Id, id: Id): (t: State)
    requires s.At(c).SlugFree?
    ensures t == s.(events := t.events, calls := t.calls) && c in t.calls && t.calls == s.calls[c := t.calls[c]]
    ensures t.calls[c].EventSaved? || t.calls[c].Failed?
  {
    var draft := s.At(c).draft;
    if EventInsertable(s.events, id, draft)
    then s.(events := s.events[id := draft]).Become(c, EventSaved(id, draft.organizer))
    else s.Become(c, Failed)
  }

  function GrantOrganizer(s: State, c: Id): (t: State)
    requires s.At(c).EventSaved?
    ensures t == s.(roles := t.roles, calls := t.calls) && c in t.calls && t.calls == s.calls[c := t.calls[c]]
    ensures t.calls[c].Finished?
  {
    s.(roles := s.roles + {Grant(s.At(c).event, s.At(c).user, Organizer)}).Become(c, Finished)
  }

  // ---------------------------------------------------------- update an event

  function Authorized(pc: Call, role: Option<Role>): (r: Call)
    requires pc.EventLoaded?
    ensures r.EventEdited? || r.Failed?
  {
    if role == Some(Organizer) && Edited(pc.copy, pc.edit).Ok?
    then EventEdited(pc.event, Edited(pc.copy, pc.edit).value) else Failed
  }

  function WriteEvent(s: State, c: Id): (t: State)
    requires s.At(c).EventEdited?
    ensures t == s.(events := t.events, calls := t.calls) && c in t.calls && t.calls == s.calls[c := t.calls[c]]
    ensures t.calls[c].Finished? || t.calls[c].Failed?
  {
    var EventEdited(id, copy) := s.At(c);
    if SizeOk(copy)
    then s.(events := EventUpdated(s.events, id, copy)).Become(c, Finished) else s.Become(c, Failed)
  }

  // ------------------------------------------------ register and unregister

  /** The roles Register looks up, in order. */
  const LOOKUPS: seq<Role> := [Judge, Organizer, Participant]

  function RoleChecked(s: State, pc: Call): (r: Call)
    requires pc.Registering? && pc.checked < 3
    ensures r.Registering? || r.Failed?
  {
    if Grant(pc.event, pc.user, LOOKUPS[pc.checked]) in s.roles then Failed
    else Registering(pc.event, pc.user, pc.checked + 1)
  }

  /** INSERT … ON CONFLICT DO NOTHING RETURNING: no row returned is a duplicate. */
  function GrantParticipant(s: State, c: Id): (t: State)
    requires s.At(c).Registering?
    ensures t == s.(roles := t.roles, calls := t.calls) && c in t.calls && t.calls == s.calls[c := t.calls[c]]
    ensures t.calls[c].Finished? || t.calls[c].Failed?
  {
    var g := Grant(s.At(c).event, s.At(c).user, Participant);
    if g in s.roles then s.Become(c, Failed) else s.(roles := s.roles + {g}).Become(c, Finished)
  }

  function UnregisterChecked(s: State, pc: Call): (r: Call)
    requires pc.Unregistering? && pc.checked < 2
    ensures r.Unregistering? || r.Failed?
  {
    var refused := if pc.checked == 0 then Grant(pc.event, pc.user, Participant) !in s.roles
                   else Seat(pc.user, pc.event) in s.members;
    if refused then Failed else Unregistering(pc.event, pc.user, pc.checked + 1)
  }

  function RevokeParticipant(s: State, c: Id): (t: State)
    requires s.At(c).Unregistering?
    ensures t == s.(roles := t.roles, calls := t.calls) && c in t.calls && t.calls == s.calls[c := t.calls[c]]
    ensures t.calls[c].Finished? || t.calls[c].Failed?
  {
    var g := Grant(s.At(c).event, s.At(c).user, Participant);
    if g in s.roles then s.(roles := s.roles - {g}).Become(c, Finished) else s.Become(c, Failed)
  }

  // ------------------------------------------------------------ create a team

  /** A lookup that fails finds no role, no team and no such name. */
  function TeamChecked(s: State, pc: Call, role: Option<Role>, fails: bool): (r: Call)
    requires pc.Teaming? && pc.checked < 3
    ensures r.Teaming? || r.Coding? || r.Failed?
  {
    var refused :=
      if pc.checked == 0 then fails || role != Some(Participant)
      else if pc.checked == 1 then !fails && Seat(pc.user, pc.event) in s.members
      else !fails && NameTaken(s.teams, pc.event, pc.name);
    if refused then Failed
    else if pc.checked == 2 then Coding(pc.event, pc.user, pc.name, 0)
    else Teaming(pc.event, pc.user, pc.name, pc.checked + 1)
  }

  /** Three codes at most; the last one is used even if it is taken. */
  function CodeTried(s: State, pc: Call, code: string, fails: bool): (r: Call)
    requires pc.Coding?
    ensures r.Coding? || r.TeamReady?
  {
    if pc.tries < 2 && !fails && CodeTaken(s.teams, code)
    then Coding(pc.event, pc.user, pc.name, pc.tries + 1) else TeamReady(pc.event, pc.user, pc.name, code)
  }

  function SaveTeam(s: State, c: Id, id: Id): (t: State)
    requires s.At(c).TeamReady?
    ensures t == s.(teams := t.teams, calls := t.calls) && c in t.calls && t.calls == s.calls[c := t.calls[c]]
    ensures t.calls[c].TeamSaved? || t.calls[c].Failed?
  {
    var TeamReady(event, user, name, code) := s.At(c);
    var t := Team(event, name, code, user);
    if TeamInsertable(s.teams, s.events, id, t)
    then s.(teams := s.teams[id := t]).Become(c, TeamSaved(event, user, id)) else s.Become(c, Failed)
  }

  function AddMember(s: State, c: Id): (t: State)
    requires s.At(c).TeamSaved?
    ensures t == s.(members := t.members, calls := t.calls) && c in t.calls && t.calls == s.calls[c := t.calls[c]]
    ensures t.calls[c].Finished? || t.calls[c].Failed?
  {
    var TeamSaved(event, user, team) := s.At(c);
    if !MemberInsertable(s.members, s.teams, s.events, Seat(user, event), team) then s.Become(c, Failed)
    else s.(members := s.members[Seat(user, event) := team]).Become(c, Finished)
  }

  // ------------------------------------------------------ create a submission

  function TeamFound(s: State, pc: Call): (r: Call)
    requires pc.Drafting?
    ensures r.DraftTeam? || r.Failed?
  {
    if Seat(pc.user, pc.event) in s.members
    then DraftTeam(pc.event, s.members[Seat(pc.user, pc.event)], pc.track) else Failed
  }

  function ExistingFound(s: State, pc: Call, fails: bool): (r: Call)
    requires pc.DraftTeam?
    ensures r.DraftUnique? || r.Failed?
  {
    if !fails && HasSubmission(s.subs, pc.team, pc.event) then Failed
    else DraftUnique(pc.event, pc.team, pc.track)
  }

  function TracksFound(s: State, pc: Call): (r: Call)
    requires pc.DraftUnique?
    ensures r.DraftReady? || r.Failed?
  {
    if pc.track.Some? && !(pc.track.value in s.tracks && s.tracks[pc.track.value] == pc.event) then Failed
    else DraftReady(pc.event, pc.team, pc.track)
  }

  /** Of the new row only its title, description and links are the caller's. */
  function SaveDraft(s: State, c: Id, id: Id, texts: Submission): (t: State)
    requires s.At(c).DraftReady?
    ensures t == s.(subs := t.subs, calls := t.calls) && c in t.calls && t.calls == s.calls[c := t.calls[c]]
    ensures t.calls[c].Finished? || t.calls[c].Failed?
  {
    var DraftReady(event, team, track) := s.At(c);
    var sub := texts.(team := team, event := event, track := track, coverUrl := None, status := Editable,
      submittedAt := None);
    if sub.title != "" && SubmissionInsertable(s.subs, s.teams, s.events, s.tracks, id, sub)
    then s.(subs := s.subs[id := sub]).Become(c, Finished) else s.Become(c, Failed)
  }

  /** Edits, submits, disqualifications and cover uploads all load a row, change some of its
      fields and write it back. */
  datatype SubmissionChange = Edits(edit: SubmissionEdit) | Submits(at: int) | Disqualifies | Covers(url: Object)

  function Changed(row: Submission, change: SubmissionChange): Submission {
    match change
    case Edits(edit) => EditedRow(row, edit)
    case Submits(at) => row.(status := Submitted, submittedAt := Some(at))
    case Disqualifies => row.(status := Disqualified)
    case Covers(url) => row.(coverUrl := Some(url))
  }

  /** All but a disqualification ask for a draft, and look at the loaded copy. */
  predicate Allows(row: Submission, change: SubmissionChange) { change.Disqualifies? || row.status == Editable }

  function WriteSub(s: State, c: Id, change: SubmissionChange): (t: State)
    requires s.At(c).SubLoaded?
    ensures t == s.(subs := t.subs, calls := t.calls) && c in t.calls && t.calls == s.calls[c := t.calls[c]]
    ensures t.calls[c].Finished? || t.calls[c].Failed?
  {
    var SubLoaded(id, row) := s.At(c);
    if Allows(row, change)
    then s.(subs := SubmissionUpdated(s.subs, id, Changed(row, change))).Become(c, Finished) else s.Become(c, Failed)
  }

  // ------------------------------------------------------------------ the machine

  /** An impossible action changes nothing, so every sequence of actions is a run. */
  function Step(s: State, a: Action): State {
    match a
    case CreateCheck(c, draft) =>
      if c !in s.calls && draft.status == Draft then s.Become(c, SlugChecked(s, draft)) else s
    case CreateSave(c, id) => if s.At(c).SlugFree? then SaveEvent(s, c, id) else s
    case CreateGrant(c) => if s.At(c).EventSaved? then GrantOrganizer(s, c) else s
    case UpdateLoad(c, row, slug, user, edit) =>
      if c !in s.calls && SlugAnswer(s.events, slug, row)
      then s.Become(c, if row.Some? then EventLoaded(row.value, s.events[row.value], user, edit) else Failed) else s
    case UpdateAuthorize(c, role) =>
      if s.At(c).EventLoaded? && RoleAnswer(s.roles, s.At(c).user, s.At(c).event, role)
      then s.Become(c, Authorized(s.At(c), role)) else s
    case UpdateWrite(c) => if s.At(c).EventEdited? then WriteEvent(s, c) else s
    case RegisterLoad(c, row, slug, user, now) =>
      if c !in s.calls && SlugAnswer(s.events, slug, row)
      then s.Become(c, if row.Some? && CanRegister(s.events[row.value], now)
                       then Registering(row.value, user, 0) else Failed)
      else s
    case RegisterCheck(c) =>
      if s.At(c).Registering? && s.At(c).checked < 3 then s.Become(c, RoleChecked(s, s.At(c))) else s
    case RegisterGrant(c) => if s.At(c).Registering? && s.At(c).checked == 3 then GrantParticipant(s, c) else s
    case UnregisterLoad(c, row, slug, user) =>
      if c !in s.calls && SlugAnswer(s.events, slug, row)
      then s.Become(c, if row.Some? then Unregistering(row.value, user, 0) else Failed) else s
    case UnregisterCheck(c) =>
      if s.At(c).Unregistering? && s.At(c).checked < 2 then s.Become(c, UnregisterChecked(s, s.At(c))) else s
    case UnregisterRevoke(c) => if s.At(c).Unregistering? && s.At(c).checked == 2 then RevokeParticipant(s, c) else s
    case TeamLoad(c, row, slug, user, name) =>
      if c !in s.calls && SlugAnswer(s.events, slug, row)
      then s.Become(c, if row.Some? && s.events[row.value].status == RegistrationOpen
                       then Teaming(row.value, user, name, 0) else Failed) else s
    case TeamCheck(c, role, fails) =>
      if s.At(c).Teaming? && s.At(c).checked < 3
         && (s.At(c).checked == 0 ==> RoleAnswer(s.roles, s.At(c).user, s.At(c).event, role))
      then s.Become(c, TeamChecked(s, s.At(c), role, fails)) else s
    case TeamTryCode(c, code, fails) => if s.At(c).Coding? then s.Become(c, CodeTried(s, s.At(c), code, fails)) else s
    case TeamSave(c, id) => if s.At(c).TeamReady? then SaveTeam(s, c, id) else s
    case TeamAddMember(c) => if s.At(c).TeamSaved? then AddMember(s, c) else s
    case DraftLoad(c, row, slug, user, track) =>
      if c !in s.calls && SlugAnswer(s.events, slug, row)
      then s.Become(c, if row.Some? && s.events[row.value].status == SubmissionsOpen
                       then Drafting(row.value, user, track) else Failed) else s
    case DraftFindTeam(c) => if s.At(c).Drafting? then s.Become(c, TeamFound(s, s.At(c))) else s
    case DraftFindExisting(c, fails) =>
      if s.At(c).DraftTeam? then s.Become(c, ExistingFound(s, s.At(c), fails)) else s
    case DraftFindTracks(c) => if s.At(c).DraftUnique? then s.Become(c, TracksFound(s, s.At(c))) else s
    case DraftSave(c, id, texts) => if s.At(c).DraftReady? then SaveDraft(s, c, id, texts) else s
    case SubLoad(c, id) =>
      if c !in s.calls then s.Become(c, if id in s.subs then SubLoaded(id, s.subs[id]) else Failed) else s
    case SubWrite(c, change) => if s.At(c).SubLoaded? then WriteSub(s, c, change) else s
    case AddTrack(c, id, event) =>
      if c !in s.calls && id !in s.tracks && event in s.events
      then s.(tracks := s.tracks[id := event]).Become(c, Finished) else s
    case Abort(c) => s.Become(c, Failed)
  }

  // ----------------------------------------------------- what a step may touch

  predicate OnEvents(a: Action) {
    a.CreateCheck? || a.CreateSave? || a.CreateGrant? || a.UpdateLoad? || a.UpdateAuthorize? || a.UpdateWrite?
  }

  predicate OnRoles(a: Action) {
    || a.RegisterLoad? || a.RegisterCheck? || a.RegisterGrant?
    || a.UnregisterLoad? || a.UnregisterCheck? || a.UnregisterRevoke?
  }

  /** Which action can take a call to a point, and from the one between the two inserts of a team. */
  predicate Leads(a: Action, from: Call, to: Call) {
    && (from.TeamSaved? ==> a.TeamAddMember? || a.Abort?)
    && match to
       case SlugFree(_) => a.CreateCheck?
       case EventSaved(_, _) => a.CreateSave?
       case EventLoaded(_, _, _, _) => a.UpdateLoad?
       case EventEdited(_, _) => a.UpdateAuthorize?
       case Registering(_, _, _) => OnRoles(a)
       case TeamSaved(_, _, _) => a.TeamSave?
       case DraftTeam(_, _, _) => a.DraftFindTeam?
       case DraftUnique(_, _, _) => a.DraftFindExisting?
       case DraftReady(_, _, _) => a.DraftFindTracks?
       case SubLoaded(_, _) => a.SubLoad?
       case _ => true
  }

  /** Only the acting call moves. */
  ghost predicate Moves(s: State, a: Action, t: State) {
    t.calls == s.calls || (a.call in t.calls && t.calls == s.calls[a.call := t.calls[a.call]])
  }

  /** Only its own kind of action writes a table. */
  ghost predicate EventTables(s: State, a: Action, t: State) {
    && (t.events == s.events || a.CreateSave? || a.UpdateWrite?)
    && (t.roles == s.roles || a.CreateGrant? || a.RegisterGrant? || a.UnregisterRevoke?)
    && (t.tracks == s.tracks || a.AddTrack?)
  }

  ghost predicate TeamTables(s: State, a: Action, t: State) {
    && (t.teams == s.teams || a.TeamSave?) && (t.members == s.members || a.TeamAddMember?)
    && (t.subs == s.subs || a.DraftSave? || a.SubWrite?)
  }

  ghost predicate Frame(s: State, a: Action, t: State) {
    && Moves(s, a, t) && EventTables(s, a, t) && TeamTables(s, a, t)
    && (t.calls == s.calls || Leads(a, s.At(a.call), t.At(a.call)))
  }

  lemma StepMoves(s: State, a: Action)
    ensures Moves(s, a, Step(s, a))
  {}

  lemma CreateTables(s: State, a: Action)
    requires a.CreateCheck? || a.CreateSave? || a.CreateGrant?
    ensures EventTables(s, a, Step(s, a)) && TeamTables(s, a, Step(s, a))
  {}

  lemma UpdateTables(s: State, a: Action)
    requires a.UpdateLoad? || a.UpdateAuthorize? || a.UpdateWrite?
    ensures EventTables(s, a, Step(s, a)) && TeamTables(s, a, Step(s, a))
  {}

  lemma RegisterTables(s: State, a: Action)
    requires a.RegisterLoad? || a.RegisterCheck? || a.RegisterGrant?
    ensures EventTables(s, a, Step(s, a)) && TeamTables(s, a, Step(s, a))
  {}

  lemma LateEventTables(s: State, a: Action)
    requires !OnEvents(a) && !OnRoles(a)
    ensures EventTables(s, a, Step(s, a))
  {}

  lemma LateTeamTables(s: State, a: Action)
    requires !OnEvents(a) && !OnRoles(a)
    ensures TeamTables(s, a, Step(s, a))
  {}

  lemma CreateLeads(s: State, a: Action)
    requires a.CreateCheck? || a.CreateSave? || a.CreateGrant? || a.AddTrack? || a.Abort?
    ensures Step(s, a).calls == s.calls || Leads(a, s.At(a.call), Step(s, a).At(a.call))
  {}

  lemma UpdateLeads(s: State, a: Action)
    requires a.UpdateLoad? || a.UpdateAuthorize? || a.UpdateWrite?
    ensures Step(s, a).calls == s.calls || Leads(a, s.At(a.call), Step(s, a).At(a.call))
  {}

  lemma RegisterLeads(s: State, a: Action)
    requires a.RegisterLoad? || a.RegisterCheck? || a.RegisterGrant?
    ensures Step(s, a).calls == s.calls || Leads(a, s.At(a.call), Step(s, a).At(a.call))
  {}

  lemma UnregisterLeads(s: State, a: Action)
    requires a.UnregisterLoad? || a.UnregisterCheck? || a.UnregisterRevoke?
    ensures Step(s, a).calls == s.calls || Leads(a, s.At(a.call), Step(s, a).At(a.call))
  {}

  lemma TeamLeads(s: State, a: Action)
    requires a.TeamLoad? || a.TeamCheck? || a.TeamTryCode?
    ensures Step(s, a).calls == s.calls || Leads(a, s.At(a.call), Step(s, a).At(a.call))
  {}

  lemma TeamWriteLeads(s: State, a: Action)
    requires a.TeamSave? || a.TeamAddMember?
    ensures Step(s, a).calls == s.calls || Leads(a, s.At(a.call), Step(s, a).At(a.call))
  {}

  lemma DraftLoadLeads(s: State, a: Action)
    requires a.DraftLoad? || a.DraftFindTeam?
    ensures Step(s, a).calls == s.calls || Leads(a, s.At(a.call), Step(s, a).At(a.call))
  {}

  lemma DraftLeads(s: State, a: Action)
    requires a.DraftFindExisting? || a.DraftFindTracks?
    ensures Step(s, a).calls == s.calls || Leads(a, s.At(a.call), Step(s, a).At(a.call))
  {}

  lemma SubmissionLeads(s: State, a: Action)
    requires a.DraftSave? || a.SubWrite?
    ensures Step(s, a).calls == s.calls || Leads(a, s.At(a.call), Step(s, a).At(a.call))
  {}

  lemma StepLeads(s: State, a: Action)
    ensures Step(s, a).calls == s.calls || Leads(a, s.At(a.call), Step(s, a).At(a.call))
  {
    match a
    case UpdateLoad(_, _, _, _, _) | UpdateAuthorize(_, _) | UpdateWrite(_) => UpdateLeads(s, a);
    case RegisterLoad(_, _, _, _, _) | RegisterCheck(_) | RegisterGrant(_) => RegisterLeads(s, a);
    case UnregisterLoad(_, _, _, _) | UnregisterCheck(_) | UnregisterRevoke(_) => UnregisterLeads(s, a);
    case SubLoad(_, _) =>
    case DraftSave(_, _, _) | SubWrite(_, _) => SubmissionLeads(s, a);
    case DraftLoad(_, _, _, _, _) | DraftFindTeam(_) => DraftLoadLeads(s, a);
    case DraftFindExisting(_, _) | DraftFindTracks(_) => DraftLeads(s, a);
    case CreateCheck(_, _) | CreateSave(_, _) | CreateGrant(_) | AddTrack(_, _, _) | Abort(_) => CreateLeads(s, a);
    case TeamSave(_, _) | TeamAddMember(_) => TeamWriteLeads(s, a);
    case _ => TeamLeads(s, a);
  }

  lemma StepFrame(s: State, a: Action)
    ensures Frame(s, a, Step(s, a))
  {
    StepMoves(s, a);
    StepLeads(s, a);
    if a.CreateCheck? || a.CreateSave? || a.CreateGrant? {
      CreateTables(s, a);
    } else if OnEvents(a) {
      UpdateTables(s, a);
    } else if a.RegisterLoad? || a.RegisterCheck? || a.RegisterGrant? {
      RegisterTables(s, a);
    } else if !OnRoles(a) {
      LateEventTables(s, a);
      LateTeamTables(s, a);
    }
  }

  /** New events and new drafts get new identifiers. */
  lemma InsertsKeepRows(s: State, a: Action)
    ensures var t := Step(s, a);
            a.CreateSave? ==> forall e :: e in s.events ==> e in t.events && t.events[e] == s.events[e]
    ensures var t := Step(s, a);
            a.DraftSave? ==> forall k :: k in s.subs ==> k in t.subs && t.subs[k] == s.subs[k]
  {}

  function Run(s: State, actions: seq<Action>): State {
    if actions == [] then s
    else Step(Run(s, actions[..|actions| - 1]), actions[|actions| - 1])
  }

  /** Where runs start: no calls, only draft events, no teams or submissions, and no
      roles except judges that an operator seated on events that are not their own. */
  ghost predicate Initial(s: State) {
    && s.calls == map[] && s.teams == map[] && s.members == map[] && s.subs == map[]
    && (forall e :: e in s.events ==> s.events[e].status == Draft)
    && (forall g :: g in s.roles ==> g.role == Judge && g.event in s.events && s.events[g.event].organizer != g.user)
    && (forall k :: k in s.tracks ==> s.tracks[k] in s.events)
  }
}
