/** The tables of the platform: events, event_roles, tracks, teams, team_members
    and submissions, with their unique indexes, and the domain rules that every
    use case applies to them. */
module PlatformModel {
  import opened Wrappers

  type Id = nat

  // -------------------------------------------------------------------- events

  datatype EventStatus =
    | Draft | RegistrationOpen | SubmissionsOpen | JudgingOpen | VotingOpen | ResultsPublished | Archived

  /** internal/events/domain/event.go: allowedTransitions. */
  function AllowedTransitions(s: EventStatus): seq<EventStatus> {
    match s
    case Draft => [RegistrationOpen]
    case RegistrationOpen => [SubmissionsOpen]
    case SubmissionsOpen => [JudgingOpen]
    case JudgingOpen => [VotingOpen, ResultsPublished]
    case VotingOpen => [ResultsPublished]
    case ResultsPublished => [Archived]
    case Archived => []
  }

  function Rank(s: EventStatus): nat {
    match s
    case Draft => 0
    case RegistrationOpen => 1
    case SubmissionsOpen => 2
    case JudgingOpen => 3
    case VotingOpen => 4
    case ResultsPublished => 5
    case Archived => 6
  }

  datatype Event = Event(
    slug: string, title: string, description: Option<string>, organizer: Id, status: EventStatus,
    registrationOpensAt: Option<int>, registrationClosesAt: Option<int>, submissionDeadlineAt: Option<int>,
    judgingDeadlineAt: Option<int>, votingOpensAt: Option<int>, votingClosesAt: Option<int>, maxTeamSize: int)

  datatype Role = Participant | Judge | Organizer

  datatype Grant = Grant(event: Id, user: Id, role: Role)

  // --------------------------------------------------------- teams, submissions

  datatype Team = Team(event: Id, name: string, inviteCode: string, createdBy: Id)

  /** team_members is unique on (user, event). */
  datatype Seat = Seat(user: Id, event: Id)

  /** An object's name is built from the submission, the upload type, a fresh
      upload identifier and the file's extension; its URL adds the bucket. */
  datatype UploadType = Cover | Attachment | OtherType

  datatype Object = Object(bucket: string, submission: Id, kind: UploadType, upload: Id, extension: string)

  datatype Upload = Upload(submission: Id, user: Id, stored: Object, kind: UploadType)

  datatype SubmissionStatus = Editable | Submitted | Disqualified

  datatype Submission = Submission(
    team: Id, event: Id, track: Option<Id>, title: string, description: Option<string>,
    repoUrl: Option<string>, demoUrl: Option<string>, videoUrl: Option<string>, coverUrl: Option<Object>,
    status: SubmissionStatus, submittedAt: Option<int>)

  type Events = map<Id, Event>
  type Roles = set<Grant>
  type Tracks = map<Id, Id>
  type Teams = map<Id, Team>
  type Members = map<Seat, Id>
  type Submissions = map<Id, Submission>

  // ------------------------------------------------------------ table functions

  /** The unique slug. A fresh identifier never takes the ON CONFLICT branch. */
  predicate EventInsertable(events: Events, id: Id, draft: Event) {
    id !in events && SizeOk(draft) && !SlugTaken(events, draft.slug)
  }

  predicate SlugTaken(events: Events, slug: string) {
    exists e :: e in events && events[e].slug == slug
  }

  /** The team size column has a check. */
  predicate SizeOk(e: Event) { 1 <= e.maxTeamSize <= 10 }

  /** UPDATE events sets everything but the slug and the creator. */
  function EventUpdated(events: Events, id: Id, copy: Event): Events {
    if id in events
    then events[id := copy.(slug := events[id].slug, organizer := events[id].organizer)] else events
  }

  predicate CodeTaken(teams: Teams, code: string) {
    exists t :: t in teams && teams[t].inviteCode == code
  }

  predicate NameTaken(teams: Teams, e: Id, name: string) {
    exists t :: t in teams && teams[t].event == e && teams[t].name == name
  }

  /** The primary key, the unique invite code and the unique (event, name). */
  predicate TeamInsertable(teams: Teams, events: Events, id: Id, t: Team) {
    id !in teams && t.event in events && !CodeTaken(teams, t.inviteCode) && !NameTaken(teams, t.event, t.name)
  }

  /** The unique (user, event) and the foreign keys to teams and events. */
  predicate MemberInsertable(members: Members, teams: Teams, events: Events, seat: Seat, team: Id) {
    seat !in members && team in teams && seat.event in events
  }

  predicate HasSubmission(subs: Submissions, team: Id, event: Id) {
    exists k :: k in subs && subs[k].team == team && subs[k].event == event
  }

  /** The primary key, the unique (team, event) and the foreign keys. */
  predicate SubmissionInsertable(subs: Submissions, teams: Teams, events: Events, tracks: Tracks, id: Id,
          sub: Submission) {
    && id !in subs && sub.team in teams && sub.event in events && (sub.track.Some? ==> sub.track.value in tracks)
    && !HasSubmission(subs, sub.team, sub.event)
  }

  /** UPDATE submissions sets everything but the team and the event. */
  function SubmissionUpdated(subs: Submissions, id: Id, copy: Submission): Submissions {
    if id in subs then subs[id := copy.(team := subs[id].team, event := subs[id].event)] else subs
  }

  /** `role` is an answer to the unordered SELECT role … WHERE user AND event. */
  predicate RoleAnswer(roles: Roles, user: Id, event: Id, role: Option<Role>) {
    match role
    case Some(r) => Grant(event, user, r) in roles
    case None => forall r: Role :: Grant(event, user, r) !in roles
  }

  predicate SlugAnswer(events: Events, slug: string, row: Option<Id>) {
    match row
    case Some(e) => e in events && events[e].slug == slug
    case None => forall e :: e in events ==> events[e].slug != slug
  }

  // -------------------------------------------------------------- domain rules

  /** internal/teams/domain/registration.go */
  predicate CanRegister(e: Event, now: int) {
    e.status == RegistrationOpen && (e.registrationClosesAt.Some? ==> now <= e.registrationClosesAt.value)
  }

  /** internal/submissions/domain/submission.go: CheckCanEdit. */
  predicate CanEdit(sub: Submission, deadline: Option<int>, now: int) {
    sub.status == Editable && (deadline.Some? ==> now <= deadline.value)
  }

  /** What an edit may ask for; an absent field leaves its column alone. */
  datatype SubmissionEdit = SubmissionEdit(
    title: Option<string>, description: Option<string>, repoUrl: Option<string>, demoUrl: Option<string>)

  function EditedRow(sub: Submission, edit: SubmissionEdit): Submission {
    sub.(title := if edit.title.Some? then edit.title.value else sub.title,
         description := Or(edit.description, sub.description),
         repoUrl := Or(edit.repoUrl, sub.repoUrl), demoUrl := Or(edit.demoUrl, sub.demoUrl))
  }

  /** What an update command may ask for; an absent field leaves its column alone. */
  datatype EventEdit = EventEdit(
    newStatus: Option<EventStatus>, maxTeamSize: Option<int>, title: Option<string>, description: Option<string>,
    registrationOpensAt: Option<int>, registrationClosesAt: Option<int>, submissionDeadlineAt: Option<int>,
    judgingDeadlineAt: Option<int>, votingOpensAt: Option<int>, votingClosesAt: Option<int>)

  function Or<T>(a: Option<T>, b: Option<T>): Option<T> { if a.Some? then a else b }

  datatype EditError = InvalidTransition | TeamSizeLocked

  /** internal/events/usecase/update.go, steps 3 and 4: the transition first, then
      the fields, judged against the status the transition reached. */
  function Edited(e: Event, edit: EventEdit): Result<Event, EditError> {
    if edit.newStatus.Some? && edit.newStatus.value !in AllowedTransitions(e.status) then Err(InvalidTransition)
    else
      var status := if edit.newStatus.Some? then edit.newStatus.value else e.status;
      if edit.maxTeamSize.Some? && status != Draft && status != RegistrationOpen then Err(TeamSizeLocked)
      else Ok(Event(
        e.slug, if edit.title.Some? then edit.title.value else e.title, Or(edit.description, e.description),
        e.organizer, status, Or(edit.registrationOpensAt, e.registrationOpensAt),
        Or(edit.registrationClosesAt, e.registrationClosesAt), Or(edit.submissionDeadlineAt, e.submissionDeadlineAt),
        Or(edit.judgingDeadlineAt, e.judgingDeadlineAt), Or(edit.votingOpensAt, e.votingOpensAt),
        Or(edit.votingClosesAt, e.votingClosesAt),
        if edit.maxTeamSize.Some? then edit.maxTeamSize.value else e.maxTeamSize))
  }
}
