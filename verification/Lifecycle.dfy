/** The platform's life, one whole use case per step: events, registrations, teams,
    submissions, uploads and judge assignments. A use case that writes once changes
    nothing when it fails. The four that write more than once (a new event, a new team,
    a disqualification, an upload) can stop half-way, and their commands say which of
    their calls fail. */
module Lifecycle {
  import opened Failures
  import opened Wrappers
  import opened PlatformModel

  datatype Assignment = Assignment(event: Id, judge: Id, submission: Id, rubric: Id)

  datatype AuditEntry = AuditEntry(actor: Id, submission: Id)

  /** `admins` holds every user, and whether they are an administrator. */
  datatype World = World(
    events: Events, roles: Roles, tracks: Tracks, teams: Teams, members: Members, subs: Submissions,
    uploads: map<Id, Upload>, objects: set<Object>, rubrics: map<Id, Id>, assignments: map<Id, Assignment>,
    admins: map<Id, bool>, audit: seq<AuditEntry>)

  datatype Error =
    | NotFound | Forbidden | Duplicate | InvariantViolated | DeadlinePassed | BadTransition | BadFile | Internal

  // ------------------------------------------------------------------- events

  /** Times are in nanoseconds. */
  const DAY := 86_400_000_000_000

  datatype CreateEventCommand = CreateEventCommand(
    slug: string, title: string, description: Option<string>, organizer: Id, maxTeamSize: int,
    registrationOpensAt: Option<int>, registrationClosesAt: Option<int>, submissionDeadlineAt: Option<int>,
    judgingDeadlineAt: Option<int>, votingOpensAt: Option<int>, votingClosesAt: Option<int>)

  /** A new event is a draft; a missing team size is five, missing deadlines are 30 and 45 days ahead. */
  function NewEvent(cmd: CreateEventCommand, now: int): Event {
    Event(cmd.slug, cmd.title, cmd.description, cmd.organizer, EventStatus.Draft,
          cmd.registrationOpensAt, cmd.registrationClosesAt, Or(cmd.submissionDeadlineAt, Some(now + 30 * DAY)),
          Or(cmd.judgingDeadlineAt, Some(now + 45 * DAY)), cmd.votingOpensAt, cmd.votingClosesAt,
          if cmd.maxTeamSize < 1 then 5 else cmd.maxTeamSize)
  }

  /** The world a creation leaves, and the error it reports: the organizer's row is a
      second insert, and its failure is reported with the event already stored. */
  function CreateEvent(w: World, id: Id, cmd: CreateEventCommand, now: int, grant: Fault): (r: (World, Option<Error>))
    ensures r.0 == w.(events := r.0.events, roles := r.0.roles)
  {
    InsertEvent(w, id, NewEvent(cmd, now), grant)
  }

  /** A taken slug is refused first, then an empty slug or title, then by the table itself. */
  function EventRefusal(w: World, id: Id, e: Event): Option<Error> {
    if SlugTaken(w.events, e.slug) then Some(InvariantViolated)
    else if e.slug == "" || e.title == "" || !EventInsertable(w.events, id, e) then Some(Internal)
    else None
  }

  function InsertEvent(w: World, id: Id, e: Event, grant: Fault): (r: (World, Option<Error>))
    ensures r.0 == w.(events := r.0.events, roles := r.0.roles)
  {
    if EventRefusal(w, id, e).Some? then (w, EventRefusal(w, id, e))
    else
      (w.(events := w.events[id := e],
          roles := if grant.Done() then w.roles + {Grant(id, e.organizer, Organizer)} else w.roles),
       if grant.Failed() then Some(Internal) else None)
  }

  function UpdateEvent(w: World, row: Option<Id>, role: Option<Role>, edit: EventEdit): (r: Result<World, Error>)
    requires row.Some? ==> row.value in w.events
    ensures r.Ok? ==> r.value == w.(events := r.value.events)
  {
    if row == None then Err(NotFound)
    else if role != Some(Organizer) then Err(Forbidden)
    else match Edited(w.events[row.value], edit)
      case Err(InvalidTransition) => Err(BadTransition)
      case Err(TeamSizeLocked) => Err(InvariantViolated)
      case Ok(copy) =>
        if !SizeOk(copy) then Err(Internal)
        else Ok(w.(events := EventUpdated(w.events, row.value, copy)))
  }

  // ------------------------------------------------------- registration, teams

  function Register(w: World, row: Option<Id>, user: Id, now: int): (r: Result<World, Error>)
    requires row.Some? ==> row.value in w.events
    ensures r.Ok? ==> r.value == w.(roles := r.value.roles)
  {
    if row == None then Err(NotFound)
    else
      var e := row.value;
      if w.events[e].status != RegistrationOpen then Err(InvariantViolated)
      else if !CanRegister(w.events[e], now) then Err(DeadlinePassed)
      else if Grant(e, user, Judge) in w.roles || Grant(e, user, Organizer) in w.roles then Err(InvariantViolated)
      else if Grant(e, user, Participant) in w.roles then Err(Duplicate)
      else Ok(w.(roles := w.roles + {Grant(e, user, Participant)}))
  }

  function Unregister(w: World, row: Option<Id>, user: Id): (r: Result<World, Error>)
    ensures r.Ok? ==> r.value == w.(roles := r.value.roles)
  {
    if row == None || Grant(row.value, user, Participant) !in w.roles then Err(NotFound)
    else if Seat(user, row.value) in w.members then Err(InvariantViolated)
    else Ok(w.(roles := w.roles - {Grant(row.value, user, Participant)}))
  }

  /** A generated code, and whether looking it up fails; a failed lookup counts as free. */
  datatype Attempt = Attempt(code: string, lookupFails: bool)

  predicate Usable(teams: Teams, a: Attempt) { a.lookupFails || !CodeTaken(teams, a.code) }

  /** The code the three attempts end with. */
  function ChosenCode(teams: Teams, attempts: seq<Attempt>): string
    requires |attempts| == 3
  {
    if Usable(teams, attempts[0]) then attempts[0].code
    else if Usable(teams, attempts[1]) then attempts[1].code else attempts[2].code
  }

  /** Which lookups fail, and how the insert of the member does. The use case drops the
      errors of its lookups: without an answer the caller has no role, no team, and the
      name is free. */
  datatype TeamFaults = TeamFaults(role: bool, seat: bool, name: bool, member: Fault)

  datatype CreateTeamCommand = CreateTeamCommand(
    user: Id, name: string, attempts: seq<Attempt>, id: Id, faults: TeamFaults)

  function NewTeam(w: World, e: Id, cmd: CreateTeamCommand): Team
    requires |cmd.attempts| == 3
  {
    Team(e, cmd.name, ChosenCode(w.teams, cmd.attempts), cmd.user)
  }

  /** Why no team is saved. */
  function TeamRefusal(w: World, row: Option<Id>, role: Option<Role>, cmd: CreateTeamCommand): Option<Error>
    requires |cmd.attempts| == 3 && (row.Some? ==> row.value in w.events)
  {
    if row == None then Some(NotFound)
    else
      var e := row.value;
      if w.events[e].status != RegistrationOpen then Some(InvariantViolated)
      else if cmd.faults.role || role != Some(Participant) then Some(Forbidden)
      else if !cmd.faults.seat && Seat(cmd.user, e) in w.members then Some(Duplicate)
      else if !cmd.faults.name && NameTaken(w.teams, e, cmd.name) then Some(Duplicate)
      else if !TeamInsertable(w.teams, w.events, cmd.id, NewTeam(w, e, cmd)) then Some(Internal)
      else None
  }

  /** The world a creation leaves, and the error it reports: the member is a second insert,
      which fails on a seat that is taken, with the team already stored. */
  function CreateTeam(w: World, row: Option<Id>, role: Option<Role>, cmd: CreateTeamCommand)
    : (r: (World, Option<Error>))
    requires |cmd.attempts| == 3 && (row.Some? ==> row.value in w.events)
    ensures r.0 == w.(teams := r.0.teams, members := r.0.members)
  {
    if TeamRefusal(w, row, role, cmd).Some? then (w, TeamRefusal(w, row, role, cmd))
    else
      var seat := Seat(cmd.user, row.value);
      var w1 := w.(teams := w.teams[cmd.id := NewTeam(w, row.value, cmd)]);
      if seat in w.members || !cmd.faults.member.Done() then (w1, Some(Internal))
      else (w1.(members := w.members[seat := cmd.id]), if cmd.faults.member.Failed() then Some(Internal) else None)
  }

  // -------------------------------------------------------------- submissions

  /** The fields a new submission may set. */
  datatype Fields = Fields(title: string, description: Option<string>, repoUrl: Option<string>,
                           demoUrl: Option<string>, videoUrl: Option<string>, track: Option<Id>)

  function NewRow(team: Id, e: Id, fields: Fields): Submission {
    Submission(team, e, fields.track, fields.title, fields.description, fields.repoUrl, fields.demoUrl, fields.videoUrl,
               None, Editable, None)
  }

  /** A lookup of an existing submission that fails counts as finding none; the table then
      refuses a second one. */
  function CreateSubmission(w: World, row: Option<Id>, user: Id, fields: Fields, id: Id, lookupFails: bool)
    : (r: Result<World, Error>)
    requires row.Some? ==> row.value in w.events
    ensures r.Ok? ==> r.value == w.(subs := r.value.subs)
  {
    if row == None then Err(Internal)
    else
      var e := row.value;
      if w.events[e].status != SubmissionsOpen then Err(InvariantViolated)
      else if Seat(user, e) !in w.members then Err(Forbidden)
      else
        var team := w.members[Seat(user, e)];
        var sub := NewRow(team, e, fields);
        if !lookupFails && HasSubmission(w.subs, team, e) then Err(InvariantViolated)
        else if fields.track.Some? && !(fields.track.value in w.tracks && w.tracks[fields.track.value] == e)
          then Err(Internal)
        else if fields.title == "" || !SubmissionInsertable(w.subs, w.teams, w.events, w.tracks, id, sub)
          then Err(Internal)
        else Ok(w.(subs := w.subs[id := sub]))
  }

  /** The caller's team in the submission's event is the submission's team. */
  predicate OnTeam(w: World, user: Id, sub: Submission) {
    Seat(user, sub.event) in w.members && w.members[Seat(user, sub.event)] == sub.team
  }

  /** The checks that Update, Submit and Upload share, in order. */
  function Refusal(w: World, user: Id, id: Id, now: int): Option<Error> {
    if id !in w.subs then Some(NotFound)
    else if !OnTeam(w, user, w.subs[id]) then Some(Forbidden)
    else if w.subs[id].event !in w.events then Some(Internal)
    else if w.subs[id].status != Editable then Some(InvariantViolated)
    else if !CanEdit(w.subs[id], w.events[w.subs[id].event].submissionDeadlineAt, now) then Some(DeadlinePassed)
    else None
  }

  function EditSubmission(w: World, user: Id, id: Id, edit: SubmissionEdit, now: int): (r: Result<World, Error>)
    ensures r.Ok? ==> r.value == w.(subs := r.value.subs)
  {
    if Refusal(w, user, id, now).Some? then Err(Refusal(w, user, id, now).value)
    else Ok(w.(subs := SubmissionUpdated(w.subs, id, EditedRow(w.subs[id], edit))))
  }

  /** The deadline is checked at `now`; the submission time is read afterwards. */
  function SubmitSubmission(w: World, user: Id, id: Id, now: int, later: int): (r: Result<World, Error>)
    ensures r.Ok? ==> r.value == w.(subs := r.value.subs)
  {
    if Refusal(w, user, id, now).Some? then Err(Refusal(w, user, id, now).value)
    else Ok(w.(subs := SubmissionUpdated(w.subs, id, w.subs[id].(status := Submitted, submittedAt := Some(later)))))
  }

  predicate IsAdmin(w: World, user: Id) { user in w.admins && w.admins[user] }

  /** Why a disqualification is refused: asking about an unknown user is itself an error. */
  function DisqualifyRefusal(w: World, admin: Id, id: Id): Option<Error> {
    if admin !in w.admins then Some(Internal)
    else if !IsAdmin(w, admin) then Some(Forbidden)
    else if id !in w.subs then Some(NotFound)
    else None
  }

  /** The world a disqualification leaves, and the error it reports: the audit entry is
      written last, and its failure is reported with the status already stored. */
  function Disqualify(w: World, admin: Id, id: Id, audit: Fault): (r: (World, Option<Error>))
    ensures r.0 == w.(subs := r.0.subs, audit := r.0.audit)
  {
    if DisqualifyRefusal(w, admin, id).Some? then (w, DisqualifyRefusal(w, admin, id))
    else
      var w1 := w.(subs := SubmissionUpdated(w.subs, id, w.subs[id].(status := Disqualified)));
      (if audit.Done() then w1.(audit := w.audit + [AuditEntry(admin, id)]) else w1,
       if audit.Failed() then Some(Internal) else None)
  }

  // ------------------------------------------------------------------ uploads

  const MAX_FILE_SIZE := 52_428_800

  /** `allowed` says whether the upload type accepts the content type. */
  datatype UploadCommand = UploadCommand(
    user: Id, sub: Id, kind: UploadType, extension: string, size: int, allowed: bool, upload: Id, now: int)

  /** How the five writes fail; the service ignores the failures of the first two. */
  datatype Faults = Faults(deleteObject: Fault, deleteRow: Fault, put: Fault, saveRow: Fault, writeCover: Fault)

  const NO_FAULTS := Faults(NoFault, NoFault, NoFault, NoFault, NoFault)

  /** The newest cover row; `cover` is the query's answer. */
  predicate CoverAnswer(uploads: map<Id, Upload>, sub: Id, cover: Option<Id>) {
    match cover
    case Some(u) => u in uploads && IsCoverOf(uploads[u], sub)
    case None => forall u :: u in uploads ==> !IsCoverOf(uploads[u], sub)
  }

  predicate IsCoverOf(row: Upload, sub: Id) { row.submission == sub && row.kind == Cover }

  function NewObject(cmd: UploadCommand): Object {
    Object(if cmd.kind == Attachment then "uploads" else "uploads-covers", cmd.sub, cmd.kind, cmd.upload, cmd.extension)
  }

  function FileRefusal(cmd: UploadCommand): Option<Error> {
    if cmd.size > MAX_FILE_SIZE then Some(InvariantViolated)
    else if cmd.kind != OtherType && !cmd.allowed then Some(BadFile)
    else None
  }

  predicate Replaces(cmd: UploadCommand, cover: Option<Id>) { cmd.kind == Cover && cover.Some? }

  function WithoutOldCover(w: World, cmd: UploadCommand, cover: Option<Id>, f: Faults): World
    requires cover.Some? ==> cover.value in w.uploads
  {
    if !Replaces(cmd, cover) then w
    else w.(objects := if f.deleteObject.Done() then w.objects - {w.uploads[cover.value].stored} else w.objects,
            uploads := if f.deleteRow.Done() then w.uploads - {cover.value} else w.uploads)
  }

  /** The URL of a stored cover. */
  function RecordCover(w: World, cmd: UploadCommand, f: Faults): (r: (World, Option<Error>))
    requires cmd.sub in w.subs
    ensures r.0 == w.(subs := r.0.subs)
  {
    (if !f.writeCover.Done() then w
     else w.(subs := SubmissionUpdated(w.subs, cmd.sub, w.subs[cmd.sub].(coverUrl := Some(NewObject(cmd))))),
     if f.writeCover.Failed() then Some(Internal) else None)
  }

  /** The row of a stored object and, for a cover, its URL. */
  function RecordUpload(w: World, cmd: UploadCommand, f: Faults): (r: (World, Option<Error>))
    ensures r.0 == w.(subs := r.0.subs, uploads := r.0.uploads)
  {
    if !f.saveRow.Done() || cmd.upload in w.uploads || cmd.sub !in w.subs then (w, Some(Internal))
    else
      var row := PlatformModel.Upload(cmd.sub, cmd.user, NewObject(cmd), cmd.kind);
      var w1 := w.(uploads := w.uploads[cmd.upload := row]);
      if f.saveRow.Failed() then (w1, Some(Internal))
      else if cmd.kind != Cover then (w1, None)
      else RecordCover(w1, cmd, f)
  }

  function StoreUpload(w: World, cmd: UploadCommand, f: Faults): (r: (World, Option<Error>))
    ensures r.0 == w.(subs := r.0.subs, uploads := r.0.uploads, objects := r.0.objects)
  {
    if !f.put.Done() then (w, Some(Internal))
    else
      var w1 := w.(objects := w.objects + {NewObject(cmd)});
      if f.put.Failed() then (w1, Some(Internal)) else RecordUpload(w1, cmd, f)
  }

  /** The world an upload leaves, and the error it reports. */
  function UploadFile(w: World, cmd: UploadCommand, cover: Option<Id>, f: Faults): (r: (World, Option<Error>))
    requires cover.Some? ==> cover.value in w.uploads
    ensures r.0 == w.(subs := r.0.subs, uploads := r.0.uploads, objects := r.0.objects)
  {
    if Refusal(w, cmd.user, cmd.sub, cmd.now).Some? then (w, Refusal(w, cmd.user, cmd.sub, cmd.now))
    else if FileRefusal(cmd).Some? then (w, FileRefusal(cmd))
    else StoreUpload(WithoutOldCover(w, cmd, cover, f), cmd, f)
  }

  // -------------------------------------------------------------- assignments

  /** `added` are the rows of one bulk INSERT … SELECT: every judge of the event with
      every submitted submission of it and one of its rubrics, once per pair,
      skipping the pairs that exist. */
  ghost predicate BulkAnswer(w: World, e: Id, added: map<Id, Assignment>) {
    && (forall i :: i in added ==>
          && i !in w.assignments && Eligible(w, e, added[i])
          && !Paired(w.assignments, added[i].judge, added[i].submission))
    && OncePerPair(added)
    && (forall a: Assignment | Eligible(w, e, a) ::
          Paired(w.assignments, a.judge, a.submission) || Paired(added, a.judge, a.submission))
  }

  ghost predicate OncePerPair(added: map<Id, Assignment>) {
    forall i, j :: i in added && j in added && SamePair(added[i], added[j]) ==> i == j
  }

  predicate SamePair(a: Assignment, b: Assignment) { a.judge == b.judge && a.submission == b.submission }

  predicate Eligible(w: World, e: Id, a: Assignment) {
    && a.event == e && Grant(e, a.judge, Judge) in w.roles
    && a.submission in w.subs && w.subs[a.submission].event == e && w.subs[a.submission].status == Submitted
    && a.rubric in w.rubrics && w.rubrics[a.rubric] == e
  }

  predicate Paired(assignments: map<Id, Assignment>, judge: Id, sub: Id) {
    exists i :: i in assignments && assignments[i].judge == judge && assignments[i].submission == sub
  }

  lemma PairedInSum(a: map<Id, Assignment>, b: map<Id, Assignment>, judge: Id, sub: Id)
    requires a.Keys !! b.Keys
    ensures Paired(a + b, judge, sub) <==> Paired(a, judge, sub) || Paired(b, judge, sub)
  {
    if i :| i in a && a[i].judge == judge && a[i].submission == sub {
      assert i in a + b && (a + b)[i] == a[i];
    }
    if i :| i in b && b[i].judge == judge && b[i].submission == sub {
      assert i in a + b && (a + b)[i] == b[i];
    }
  }

  // --------------------------------------------------------------- whole runs

  datatype Command =
    | DoCreateEvent(id: Id, cmd: CreateEventCommand, now: int, grant: Fault)
    | DoUpdateEvent(row: Option<Id>, slug: string, caller: Id, role: Option<Role>, edit: EventEdit)
    | DoRegister(row: Option<Id>, slug: string, caller: Id, now: int)
    | DoUnregister(row: Option<Id>, slug: string, caller: Id)
    | DoCreateTeam(row: Option<Id>, slug: string, role: Option<Role>, team: CreateTeamCommand)
    | DoCreateSubmission(row: Option<Id>, slug: string, caller: Id, fields: Fields, id: Id, lookupFails: bool)
    | DoEdit(caller: Id, id: Id, changes: SubmissionEdit, now: int)
    | DoSubmit(caller: Id, id: Id, now: int, later: int)
    | DoDisqualify(caller: Id, id: Id, audit: Fault)
    | DoUpload(upload: UploadCommand, cover: Option<Id>, faults: Faults)
    | DoAssign(event: Id, added: map<Id, Assignment>)

  function Or0(r: Result<World, Error>, w: World): World { if r.Ok? then r.value else w }

  /** What a use case reports. */
  function ErrorOf(r: Result<World, Error>): Option<Error> { if r.Err? then Some(r.error) else None }

  /** The lookups in the command are answers the tables can give. */
  ghost predicate Possible(w: World, c: Command) {
    match c
    case DoUpdateEvent(row, slug, caller, role, _) =>
      SlugAnswer(w.events, slug, row) && (row.Some? ==> RoleAnswer(w.roles, caller, row.value, role))
    case DoRegister(row, slug, _, _) => SlugAnswer(w.events, slug, row)
    case DoUnregister(row, slug, _) => SlugAnswer(w.events, slug, row)
    case DoCreateTeam(row, slug, role, cmd) =>
      && SlugAnswer(w.events, slug, row) && (row.Some? ==> RoleAnswer(w.roles, cmd.user, row.value, role))
      && |cmd.attempts| == 3
    case DoCreateSubmission(row, slug, _, _, _, _) => SlugAnswer(w.events, slug, row)
    case DoUpload(cmd, cover, _) => CoverAnswer(w.uploads, cmd.sub, cover)
    case DoAssign(e, added) => BulkAnswer(w, e, added)
    case _ => true
  }

  ghost function Step(w: World, c: Command): World {
    if !Possible(w, c) then w
    else match c
      case DoCreateEvent(id, cmd, now, grant) => CreateEvent(w, id, cmd, now, grant).0
      case DoUpdateEvent(row, _, _, role, edit) => Or0(UpdateEvent(w, row, role, edit), w)
      case DoRegister(row, _, caller, now) => Or0(Register(w, row, caller, now), w)
      case DoUnregister(row, _, caller) => Or0(Unregister(w, row, caller), w)
      case DoCreateTeam(row, _, role, cmd) => CreateTeam(w, row, role, cmd).0
      case DoCreateSubmission(row, _, caller, fields, id, fails) =>
        Or0(CreateSubmission(w, row, caller, fields, id, fails), w)
      case DoEdit(caller, id, changes, now) => Or0(EditSubmission(w, caller, id, changes, now), w)
      case DoSubmit(caller, id, now, later) => Or0(SubmitSubmission(w, caller, id, now, later), w)
      case DoDisqualify(caller, id, audit) => Disqualify(w, caller, id, audit).0
      case DoUpload(cmd, cover, f) => UploadFile(w, cmd, cover, f).0
      case DoAssign(_, added) => w.(assignments := w.assignments + added)
  }

  ghost function Run(w: World, cs: seq<Command>): World {
    if cs == [] then w else Step(Run(w, cs[..|cs| - 1]), cs[|cs| - 1])
  }
}
