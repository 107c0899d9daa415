/** The database and the object store as the repositories change them, and the
    domain objects that the use cases load, change in memory and write back. */
module PlatformStore {
  import opened Failures
  import opened Wrappers
  import opened PlatformModel
  import opened Lifecycle

  class Database {
    var events: Events
    var roles: Roles
    var tracks: Tracks
    var teams: Teams
    var members: Members
    var subs: Submissions
    var uploads: map<Id, Upload>
    var objects: set<Object>
    var rubrics: map<Id, Id>
    var assignments: map<Id, Assignment>
    var admins: map<Id, bool>
    var audit: seq<AuditEntry>

    ghost function W(): World
      reads this
    {
      World(events, roles, tracks, teams, members, subs, uploads, objects, rubrics, assignments, admins, audit)
    }
  }

  // ------------------------------------------------------------ domain objects

  /** internal/events/domain/event.go: Event. */
  class LoadedEvent {
    const id: Id
    const slug: string
    const organizer: Id
    var title: string
    var description: Option<string>
    var status: EventStatus
    var registrationOpensAt: Option<int>
    var registrationClosesAt: Option<int>
    var submissionDeadlineAt: Option<int>
    var judgingDeadlineAt: Option<int>
    var votingOpensAt: Option<int>
    var votingClosesAt: Option<int>
    var maxTeamSize: int

    ghost function Value(): Event
      reads this
    {
      Event(slug, title, description, organizer, status, registrationOpensAt, registrationClosesAt,
            submissionDeadlineAt, judgingDeadlineAt, votingOpensAt, votingClosesAt, maxTeamSize)
    }

    constructor (id: Id, e: Event)
      ensures this.id == id && Value() == e
    {
      this.id, slug, title, description, organizer := id, e.slug, e.title, e.description, e.organizer;
      status, maxTeamSize := e.status, e.maxTeamSize;
      registrationOpensAt, registrationClosesAt := e.registrationOpensAt, e.registrationClosesAt;
      submissionDeadlineAt, judgingDeadlineAt := e.submissionDeadlineAt, e.judgingDeadlineAt;
      votingOpensAt, votingClosesAt := e.votingOpensAt, e.votingClosesAt;
    }

    /** The slug and title must not be empty. */
    constructor New(id: Id, cmd: CreateEventCommand, now: int)
      ensures this.id == id && Value() == NewEvent(cmd, now)
    {
      this.id, slug, title, description, organizer := id, cmd.slug, cmd.title, cmd.description, cmd.organizer;
      status := EventStatus.Draft;
      maxTeamSize := cmd.maxTeamSize;
      submissionDeadlineAt, judgingDeadlineAt := Some(now + 30 * DAY), Some(now + 45 * DAY);
      registrationOpensAt, registrationClosesAt := cmd.registrationOpensAt, cmd.registrationClosesAt;
      votingOpensAt, votingClosesAt := cmd.votingOpensAt, cmd.votingClosesAt;
      new;
      if maxTeamSize < 1 {
        maxTeamSize := 5;
      }
      if cmd.submissionDeadlineAt.Some? {
        submissionDeadlineAt := cmd.submissionDeadlineAt;
      }
      if cmd.judgingDeadlineAt.Some? {
        judgingDeadlineAt := cmd.judgingDeadlineAt;
      }
    }

    method Transition(target: EventStatus) returns (ok: bool)
      modifies this`status
      ensures ok <==> target in AllowedTransitions(old(status))
      ensures status == if ok then target else old(status)
    {
      var allowed := AllowedTransitions(status);
      for i := 0 to |allowed|
        invariant target !in allowed[..i] && status == old(status)
      {
        if allowed[i] == target {
          status := target;
          return true;
        }
      }
      ok := false;
    }
  }

  /** internal/submissions/domain/submission.go: Submission. */
  class LoadedSubmission {
    const id: Id
    const team: Id
    const event: Id
    const track: Option<Id>
    var title: string
    var description: Option<string>
    var repoUrl: Option<string>
    var demoUrl: Option<string>
    var videoUrl: Option<string>
    var coverUrl: Option<Object>
    var status: SubmissionStatus
    var submittedAt: Option<int>

    ghost function Value(): Submission
      reads this
    {
      Submission(team, event, track, title, description, repoUrl, demoUrl, videoUrl, coverUrl, status, submittedAt)
    }

    constructor (id: Id, s: Submission)
      ensures this.id == id && Value() == s
    {
      this.id, team, event, track, title, description := id, s.team, s.event, s.track, s.title, s.description;
      repoUrl, demoUrl, videoUrl, coverUrl := s.repoUrl, s.demoUrl, s.videoUrl, s.coverUrl;
      status, submittedAt := s.status, s.submittedAt;
    }

    constructor NewDraft(id: Id, team: Id, event: Id, track: Option<Id>, title: string)
      ensures this.id == id
      ensures Value() == Submission(team, event, track, title, None, None, None, None, None, Editable, None)
    {
      this.id, this.team, this.event, this.track, this.title := id, team, event, track, title;
      description, repoUrl, demoUrl, videoUrl, coverUrl := None, None, None, None, None;
      status, submittedAt := Editable, None;
    }

    method CheckCanEdit(deadline: Option<int>, now: int) returns (err: Option<Error>)
      ensures err == None <==> CanEdit(Value(), deadline, now)
      ensures err != None ==> err == Some(if status != Editable then InvariantViolated else DeadlinePassed)
    {
      if status != Editable {
        return Some(InvariantViolated);
      }
      if deadline.Some? && now > deadline.value {
        return Some(DeadlinePassed);
      }
      err := None;
    }

    /** The clock is read again, at `later`, for the submission time. */
    method Submit(deadline: Option<int>, now: int, later: int) returns (err: Option<Error>)
      modifies this`status, this`submittedAt
      ensures err == None <==> CanEdit(old(Value()), deadline, now)
      ensures err == None ==> Value() == old(Value()).(status := Submitted, submittedAt := Some(later))
      ensures err != None ==> Value() == old(Value())
      ensures err != None ==> err == Some(if status != Editable then InvariantViolated else DeadlinePassed)
    {
      err := CheckCanEdit(deadline, now);
      if err == None {
        status := Submitted;
        submittedAt := Some(later);
      }
    }
  }

  // -------------------------------------------------------------- repositories

  class EventRepository {
    const db: Database

    constructor (db: Database)
      ensures this.db == db
    {
      this.db := db;
    }

    method FindBySlug(slug: string) returns (row: Option<Id>)
      ensures SlugAnswer(db.events, slug, row)
    {
      if id :| id in db.events && db.events[id].slug == slug {
        row := Some(id);
      } else {
        row := None;
      }
    }

    method Load(slug: string) returns (row: Option<Id>, e: LoadedEvent?)
      ensures SlugAnswer(db.events, slug, row) && (row == None <==> e == null)
      ensures e != null ==> fresh(e) && row == Some(e.id) && e.Value() == db.events[e.id]
    {
      row := FindBySlug(slug);
      if row.Some? {
        e := new LoadedEvent(row.value, db.events[row.value]);
      } else {
        e := null;
      }
    }

    method ExistsBySlug(slug: string) returns (taken: bool)
      ensures taken <==> SlugTaken(db.events, slug)
    {
      taken := exists e :: e in db.events && db.events[e].slug == slug;
    }

    /** INSERT … ON CONFLICT (id) DO UPDATE: an identifier that exists gets the columns of an
        update instead. */
    method Save(e: LoadedEvent) returns (ok: bool)
      modifies db`events
      ensures e.id !in old(db.events) ==> ok == EventInsertable(old(db.events), e.id, e.Value())
      ensures e.id !in old(db.events) ==> db.events == if ok then old(db.events)[e.id := e.Value()] else old(db.events)
      ensures e.id in old(db.events) ==> ok == SizeOk(e.Value())
      ensures e.id in old(db.events) ==>
                db.events == if ok then EventUpdated(old(db.events), e.id, e.Value()) else old(db.events)
    {
      if e.id in db.events {
        ok := Update(e);
        return;
      }
      ok := 1 <= e.maxTeamSize <= 10 && !exists k :: k in db.events && db.events[k].slug == e.slug;
      if ok {
        db.events := db.events[e.id := Event(
          e.slug, e.title, e.description, e.organizer, e.status, e.registrationOpensAt, e.registrationClosesAt,
          e.submissionDeadlineAt, e.judgingDeadlineAt, e.votingOpensAt, e.votingClosesAt, e.maxTeamSize)];
      }
    }

    method Update(e: LoadedEvent) returns (ok: bool)
      modifies db`events
      ensures ok == SizeOk(e.Value())
      ensures db.events == if ok then EventUpdated(old(db.events), e.id, e.Value()) else old(db.events)
    {
      ok := 1 <= e.maxTeamSize <= 10;
      if ok && e.id in db.events {
        var row := db.events[e.id];
        db.events := db.events[e.id := row.(
          title := e.title, description := e.description, status := e.status, maxTeamSize := e.maxTeamSize,
          registrationOpensAt := e.registrationOpensAt, registrationClosesAt := e.registrationClosesAt,
          submissionDeadlineAt := e.submissionDeadlineAt, judgingDeadlineAt := e.judgingDeadlineAt,
          votingOpensAt := e.votingOpensAt, votingClosesAt := e.votingClosesAt)];
      }
    }
  }

  class RoleRepository {
    const db: Database

    constructor (db: Database)
      ensures this.db == db
    {
      this.db := db;
    }

    method HasRole(user: Id, event: Id, role: Role) returns (has: bool)
      ensures has <==> Grant(event, user, role) in db.roles
    {
      has := Grant(event, user, role) in db.roles;
    }

    /** SELECT role … LIMIT 1: any of the user's rows in the event. */
    method GetRole(user: Id, event: Id) returns (role: Option<Role>)
      ensures RoleAnswer(db.roles, user, event, role)
    {
      if g :| g in db.roles && g.event == event && g.user == user {
        role := Some(g.role);
      } else {
        role := None;
      }
    }

    /** INSERT … ON CONFLICT DO NOTHING. */
    method GrantRole(user: Id, event: Id, role: Role, fault: Fault) returns (ok: bool)
      modifies db`roles
      ensures ok == !fault.Failed()
      ensures db.roles == if fault.Done() then old(db.roles) + {Grant(event, user, role)} else old(db.roles)
    {
      if fault.Done() {
        db.roles := db.roles + {Grant(event, user, role)};
      }
      ok := !fault.Failed();
    }

    /** The same for a participant, with RETURNING: no row returned is a duplicate. */
    method GrantParticipantRole(user: Id, event: Id) returns (inserted: bool)
      modifies db`roles
      ensures inserted <==> Grant(event, user, Participant) !in old(db.roles)
      ensures db.roles == old(db.roles) + {Grant(event, user, Participant)}
    {
      inserted := Grant(event, user, Participant) !in db.roles;
      db.roles := db.roles + {Grant(event, user, Participant)};
    }

    method RevokeParticipant(user: Id, event: Id) returns (deleted: bool)
      modifies db`roles
      ensures deleted <==> Grant(event, user, Participant) in old(db.roles)
      ensures db.roles == old(db.roles) - {Grant(event, user, Participant)}
    {
      deleted := Grant(event, user, Participant) in db.roles;
      db.roles := db.roles - {Grant(event, user, Participant)};
    }
  }

  class TeamRepository {
    const db: Database

    constructor (db: Database)
      ensures this.db == db
    {
      this.db := db;
    }

    method FindByEventAndUser(event: Id, user: Id) returns (team: Option<Id>)
      ensures team == None <==> Seat(user, event) !in db.members
      ensures team.Some? ==> db.members[Seat(user, event)] == team.value
    {
      team := if Seat(user, event) in db.members then Some(db.members[Seat(user, event)]) else None;
    }

    method ExistsByName(event: Id, name: string) returns (taken: bool)
      ensures taken <==> exists k :: k in db.teams && db.teams[k].event == event && db.teams[k].name == name
    {
      taken := exists k :: k in db.teams && db.teams[k].event == event && db.teams[k].name == name;
    }

    method FindByInviteCode(code: string) returns (found: bool)
      ensures found <==> CodeTaken(db.teams, code)
    {
      found := exists t :: t in db.teams && db.teams[t].inviteCode == code;
    }

    method Save(id: Id, t: Team) returns (ok: bool)
      modifies db`teams
      ensures ok == TeamInsertable(old(db.teams), db.events, id, t)
      ensures db.teams == if ok then old(db.teams)[id := t] else old(db.teams)
    {
      ok := TeamInsertable(db.teams, db.events, id, t);
      if ok {
        db.teams := db.teams[id := t];
      }
    }

    method AddMember(team: Id, user: Id, event: Id, fault: Fault) returns (ok: bool)
      modifies db`members
      ensures var fits := MemberInsertable(old(db.members), db.teams, db.events, Seat(user, event), team);
              && ok == (fits && !fault.Failed())
              && db.members == if fits && fault.Done() then old(db.members)[Seat(user, event) := team]
                               else old(db.members)
    {
      ok := Seat(user, event) !in db.members && team in db.teams && event in db.events;
      if ok && fault.Done() {
        db.members := db.members[Seat(user, event) := team];
      }
      ok := ok && !fault.Failed();
    }
  }

  class TrackRepository {
    const db: Database

    constructor (db: Database)
      ensures this.db == db
    {
      this.db := db;
    }

    /** The event's tracks, in some order. */
    method FindByEventID(event: Id) returns (ts: seq<Id>)
      ensures forall t :: t in ts <==> t in db.tracks && db.tracks[t] == event
    {
      var rest := set t | t in db.tracks && db.tracks[t] == event;
      ts := [];
      while rest != {}
        invariant forall t :: t in ts || t in rest <==> t in db.tracks && db.tracks[t] == event
        decreases |rest|
      {
        var t :| t in rest;
        ts := ts + [t];
        rest := rest - {t};
      }
    }
  }

  class SubmissionRepository {
    const db: Database

    constructor (db: Database)
      ensures this.db == db
    {
      this.db := db;
    }

    method FindByID(id: Id) returns (s: LoadedSubmission?)
      ensures s == null <==> id !in db.subs
      ensures s != null ==> fresh(s) && s.id == id && s.Value() == db.subs[id]
    {
      if id in db.subs {
        s := new LoadedSubmission(id, db.subs[id]);
      } else {
        s := null;
      }
    }

    method FindByTeamAndEvent(team: Id, event: Id) returns (found: bool)
      ensures found <==> HasSubmission(db.subs, team, event)
    {
      found := exists k :: k in db.subs && db.subs[k].team == team && db.subs[k].event == event;
    }

    /** The INSERT does not mention submitted_at. */
    method Save(s: LoadedSubmission) returns (ok: bool)
      modifies db`subs
      ensures ok == SubmissionInsertable(old(db.subs), db.teams, db.events, db.tracks, s.id, s.Value())
      ensures db.subs == if ok then old(db.subs)[s.id := s.Value().(submittedAt := None)] else old(db.subs)
    {
      var row := Submission(s.team, s.event, s.track, s.title, s.description, s.repoUrl, s.demoUrl, s.videoUrl,
        s.coverUrl, s.status, None);
      ok := SubmissionInsertable(db.subs, db.teams, db.events, db.tracks, s.id, row);
      if ok {
        db.subs := db.subs[s.id := row];
      }
    }

    /** The UPDATE mentions neither the team nor the event. */
    method Update(s: LoadedSubmission)
      modifies db`subs
      ensures db.subs == SubmissionUpdated(old(db.subs), s.id, s.Value())
    {
      if s.id in db.subs {
        db.subs := db.subs[s.id := db.subs[s.id].(
          track := s.track, title := s.title, description := s.description, demoUrl := s.demoUrl, repoUrl := s.repoUrl,
          videoUrl := s.videoUrl, coverUrl := s.coverUrl, status := s.status, submittedAt := s.submittedAt)];
      }
    }
  }

  class UserReader {
    const db: Database

    constructor (db: Database)
      ensures this.db == db
    {
      this.db := db;
    }

    /** None for a user that does not exist: the query returns an error then. */
    method IsAdmin(user: Id) returns (isAdmin: Option<bool>)
      ensures isAdmin == None <==> user !in db.admins
      ensures isAdmin.Some? ==> (isAdmin.value <==> Lifecycle.IsAdmin(db.W(), user))
    {
      isAdmin := if user in db.admins then Some(db.admins[user]) else None;
    }
  }

  class AuditLogWriter {
    const db: Database

    constructor (db: Database)
      ensures this.db == db
    {
      this.db := db;
    }

    method Write(entry: AuditEntry, fault: Fault) returns (ok: bool)
      modifies db`audit
      ensures ok == !fault.Failed()
      ensures db.audit == if fault.Done() then old(db.audit) + [entry] else old(db.audit)
    {
      if fault.Done() {
        db.audit := db.audit + [entry];
      }
      ok := !fault.Failed();
    }
  }

  class UploadRepository {
    const db: Database

    constructor (db: Database)
      ensures this.db == db
    {
      this.db := db;
    }

    method FindCoverBySubmissionID(sub: Id) returns (cover: Option<Id>)
      ensures CoverAnswer(db.uploads, sub, cover)
    {
      if u :| u in db.uploads && IsCoverOf(db.uploads[u], sub) {
        cover := Some(u);
      } else {
        cover := None;
      }
    }

    method Save(id: Id, row: Upload, fault: Fault) returns (ok: bool)
      modifies db`uploads
      ensures var fits := id !in old(db.uploads) && row.submission in db.subs;
              && ok == (fits && !fault.Failed())
              && db.uploads == if fits && fault.Done() then old(db.uploads)[id := row] else old(db.uploads)
    {
      ok := id !in db.uploads && row.submission in db.subs;
      if ok && fault.Done() {
        db.uploads := db.uploads[id := row];
      }
      ok := ok && !fault.Failed();
    }

    method Delete(id: Id, fault: Fault)
      modifies db`uploads
      ensures db.uploads == if fault.Done() then old(db.uploads) - {id} else old(db.uploads)
    {
      if fault.Done() {
        db.uploads := db.uploads - {id};
      }
    }
  }

  class FileStorage {
    const db: Database

    constructor (db: Database)
      ensures this.db == db
    {
      this.db := db;
    }

    method Put(o: Object, fault: Fault) returns (ok: bool)
      modifies db`objects
      ensures ok == !fault.Failed()
      ensures db.objects == if fault.Done() then old(db.objects) + {o} else old(db.objects)
    {
      if fault.Done() {
        db.objects := db.objects + {o};
      }
      ok := !fault.Failed();
    }

    method Delete(o: Object, fault: Fault)
      modifies db`objects
      ensures db.objects == if fault.Done() then old(db.objects) - {o} else old(db.objects)
    {
      if fault.Done() {
        db.objects := db.objects - {o};
      }
    }
  }

  /** The bulk half of internal/judging/repository/pg_assignment_repo.go. */
  class AssignmentRepository {
    const db: Database

    constructor (db: Database)
      ensures this.db == db
    {
      this.db := db;
    }

    /** INSERT … SELECT … ON CONFLICT DO NOTHING, one proposed row after another; `next`
        and above are fresh identifiers. */
    method BulkCreateForEvent(e: Id, next: Id) returns (ghost added: map<Id, Assignment>)
      requires forall i :: i in db.assignments ==> i < next
      modifies db`assignments
      ensures db.assignments == old(db.assignments) + added
      ensures BulkAnswer(old(db.W()), e, added)
      ensures db.W() == Step(old(db.W()), DoAssign(e, added))
    {
      added := map[];
      ghost var w := db.W();
      if r :| r in db.rubrics && db.rubrics[r] == e {
        var pairs := set g, s | g in db.roles && s in db.subs && Selected(g, db.subs[s], e) :: (g.user, s);
        added := InsertPairs(e, r, pairs, next);
        PairsAnswer(w, e, r, pairs, added);
      }
      AssignStep(w, e, added);
    }

    /** ON CONFLICT (judge, submission) DO NOTHING. */
    method InsertPair(id: Id, row: Assignment) returns (inserted: bool)
      modifies db`assignments
      ensures inserted <==> !Paired(old(db.assignments), row.judge, row.submission)
      ensures db.assignments == if inserted then old(db.assignments)[id := row] else old(db.assignments)
    {
      inserted := !exists i :: i in db.assignments && SamePair(db.assignments[i], row);
      if inserted {
        db.assignments := db.assignments[id := row];
      }
    }

    method InsertPairs(e: Id, r: Id, pairs: set<(Id, Id)>, next: Id) returns (ghost added: map<Id, Assignment>)
      requires forall i :: i in db.assignments ==> i < next
      requires forall p :: p in pairs ==> Eligible(db.W(), e, Assignment(e, p.0, p.1, r))
      modifies db`assignments
      ensures db.assignments == old(db.assignments) + added && OncePerPair(added)
      ensures forall i :: i in added ==> i !in old(db.assignments) && Eligible(old(db.W()), e, added[i])
      ensures forall i :: i in added ==> !Paired(old(db.assignments), added[i].judge, added[i].submission)
      ensures forall p :: p in pairs ==> Paired(old(db.assignments), p.0, p.1) || Paired(added, p.0, p.1)
    {
      ghost var w, stored := db.W(), db.assignments;
      added := map[];
      var rest, id := pairs, next;
      while rest != {}
        invariant rest <= pairs && next <= id && db.assignments == stored + added && OncePerPair(added)
        invariant forall i :: i in added ==> next <= i < id && Eligible(w, e, added[i])
        invariant forall i :: i in added ==> !Paired(stored, added[i].judge, added[i].submission)
        invariant forall p :: p in pairs - rest ==> Paired(stored, p.0, p.1) || Paired(added, p.0, p.1)
        decreases |rest|
      {
        var p :| p in rest;
        rest := rest - {p};
        PairedInSum(stored, added, p.0, p.1);
        var inserted := InsertPair(id, Assignment(e, p.0, p.1, r));
        if inserted {
          PairedStays(added, id, Assignment(e, p.0, p.1, r));
          added := added[id := Assignment(e, p.0, p.1, r)];
          id := id + 1;
        }
      }
    }
  }

  /** The rows that the bulk SELECT joins. */
  predicate Selected(g: Grant, sub: Submission, e: Id) {
    g.event == e && g.role == Judge && sub.event == e && sub.status == Submitted
  }

  lemma PairsAnswer(w: World, e: Id, r: Id, pairs: set<(Id, Id)>, added: map<Id, Assignment>)
    requires pairs == set g, s | g in w.roles && s in w.subs && Selected(g, w.subs[s], e) :: (g.user, s)
    requires OncePerPair(added)
    requires forall i :: i in added ==> i !in w.assignments && Eligible(w, e, added[i])
    requires forall i :: i in added ==> !Paired(w.assignments, added[i].judge, added[i].submission)
    requires forall p :: p in pairs ==> Paired(w.assignments, p.0, p.1) || Paired(added, p.0, p.1)
    ensures BulkAnswer(w, e, added)
  {}

  /** Every inserted row is due, none repeats a pair, and no due pair is left out. */
  lemma RowsAnswer(w: World, e: Id, added: map<Id, Assignment>)
    requires BulkAnswer(w, e, added)
    ensures forall i :: i in added ==>
              var a := added[i];
              && i !in w.assignments && a.event == e && Grant(e, a.judge, Judge) in w.roles
              && a.submission in w.subs && w.subs[a.submission].event == e && w.subs[a.submission].status == Submitted
              && a.rubric in w.rubrics && w.rubrics[a.rubric] == e
    ensures var all := w.assignments + added;
            forall i, j :: i in added && j in all && i != j ==>
              added[i].judge != all[j].judge || added[i].submission != all[j].submission
    ensures var all := w.assignments + added;
            forall j, s, r ::
              && Grant(e, j, Judge) in w.roles && s in w.subs && w.subs[s].event == e && w.subs[s].status == Submitted
              && r in w.rubrics && w.rubrics[r] == e ==>
              exists i :: i in all && all[i].judge == j && all[i].submission == s
  {
    var all := w.assignments + added;
    forall i, j | i in added && j in all && i != j
      ensures added[i].judge != all[j].judge || added[i].submission != all[j].submission
    {
      if j in added {
        assert !SamePair(added[i], added[j]);
      } else {
        assert !Paired(w.assignments, added[i].judge, added[i].submission);
      }
    }
    forall j, s, r | && Grant(e, j, Judge) in w.roles && s in w.subs && w.subs[s].event == e
                     && w.subs[s].status == Submitted && r in w.rubrics && w.rubrics[r] == e
      ensures exists i :: i in all && all[i].judge == j && all[i].submission == s
    {
      assert Eligible(w, e, Assignment(e, j, s, r));
      PairedInSum(w.assignments, added, j, s);
      assert Paired(all, j, s);
    }
  }

  lemma AssignStep(w: World, e: Id, added: map<Id, Assignment>)
    requires BulkAnswer(w, e, added)
    ensures Step(w, DoAssign(e, added)) == w.(assignments := w.assignments + added)
  {}

  lemma PairedStays(added: map<Id, Assignment>, id: Id, a: Assignment)
    requires id !in added
    ensures Paired(added[id := a], a.judge, a.submission)
    ensures forall j, s :: Paired(added, j, s) ==> Paired(added[id := a], j, s)
  {
    assert id in added[id := a];
    forall j, s | Paired(added, j, s) ensures Paired(added[id := a], j, s) {
      var i :| i in added && added[i].judge == j && added[i].submission == s;
      assert i in added[id := a];
    }
  }
}
