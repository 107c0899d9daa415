/** The submission use cases as they are written, each proved to make the one step of
    the machine in Lifecycle that its command stands for. */
module SubmissionServices {
  import opened Failures
  import opened Wrappers
  import opened PlatformModel
  import opened Lifecycle
  import opened PlatformStore
  import opened EventServices

  // -------------------------------------------------------------------- create

  class CreateSubmissionService {
    const db: Database
    const events: EventRepository
    const teams: TeamRepository
    const tracks: TrackRepository
    const subs: SubmissionRepository

    constructor (db: Database)
      ensures this.db == db && Wired()
    {
      this.db := db;
      events := new EventRepository(db);
      teams := new TeamRepository(db);
      tracks := new TrackRepository(db);
      subs := new SubmissionRepository(db);
    }

    ghost predicate Wired() { events.db == db && teams.db == db && tracks.db == db && subs.db == db }

    /** The search for the track among the event's tracks. */
    method TrackBelongs(event: Id, track: Id) returns (matched: bool)
      requires Wired()
      ensures matched <==> track in db.tracks && db.tracks[track] == event
    {
      var ts := tracks.FindByEventID(event);
      matched := false;
      for i := 0 to |ts|
        invariant matched <==> track in ts[..i]
      {
        if ts[i] == track {
          matched := true;
          assert track in ts;
          break;
        }
      }
    }

    method Insert(team: Id, event: Id, fields: Fields, id: Id) returns (ok: bool)
      requires Wired()
      modifies db`subs
      ensures ok == SubmissionInsertable(old(db.subs), db.teams, db.events, db.tracks, id, NewRow(team, event, fields))
      ensures db.subs == if ok then old(db.subs)[id := NewRow(team, event, fields)] else old(db.subs)
    {
      var s := new LoadedSubmission.NewDraft(id, team, event, fields.track, fields.title);
      s.description, s.repoUrl := fields.description, fields.repoUrl;
      s.demoUrl, s.videoUrl := fields.demoUrl, fields.videoUrl;
      ok := subs.Save(s);
    }

    /** `lookupFails` says whether looking for an existing submission fails; the error is dropped. */
    method Create(slug: string, user: Id, fields: Fields, id: Id, lookupFails: bool)
      returns (err: Option<Error>, ghost row: Option<Id>)
      requires Wired()
      modifies db
      ensures var rows := old(db.events);
              && (row.Some? ==> row.value in rows && rows[row.value].slug == slug)
              && (row == None ==> forall e :: e in rows ==> rows[e].slug != slug)
      ensures row == None ==> err == Some(Internal)
      ensures row.Some? ==>
                var e := row.value; var rows, seat := old(db.subs), Seat(user, e);
                if old(db.events)[e].status != SubmissionsOpen then err == Some(InvariantViolated)
                else if seat !in old(db.members) then err == Some(Forbidden)
                else
                  var team := old(db.members)[seat];
                  var second := exists k :: k in rows && rows[k].team == team && rows[k].event == e;
                  var known := fields.track.Some? ==>
                                 fields.track.value in old(db.tracks) && old(db.tracks)[fields.track.value] == e;
                  && err == (if !lookupFails && second then Some(InvariantViolated)
                             else if known && fields.title != "" && id !in rows && team in old(db.teams) && !second
                               then None
                             else Some(Internal))
                  && (err == None ==> db.subs == rows[id := Submission(
                        team, e, fields.track, fields.title, fields.description, fields.repoUrl, fields.demoUrl,
                        fields.videoUrl, None, Editable, None)])
      ensures err != None ==> db.W() == old(db.W())
      ensures db.W() == old(db.W()).(subs := db.subs)
      ensures Possible(old(db.W()), DoCreateSubmission(row, slug, user, fields, id, lookupFails))
      ensures err == ErrorOf(CreateSubmission(old(db.W()), row, user, fields, id, lookupFails))
      ensures db.W() == Step(old(db.W()), DoCreateSubmission(row, slug, user, fields, id, lookupFails))
    {
      var found := events.FindBySlug(slug);
      row := found;
      if found == None {
        return Some(Internal), row;
      }
      var event := found.value;
      if db.events[event].status != SubmissionsOpen {
        return Some(InvariantViolated), row;
      }
      var team := teams.FindByEventAndUser(event, user);
      if team == None {
        return Some(Forbidden), row;
      }
      var existing := false;
      if !lookupFails {
        existing := subs.FindByTeamAndEvent(team.value, event);
      }
      if existing {
        return Some(InvariantViolated), row;
      }
      if fields.track.Some? {
        var matched := TrackBelongs(event, fields.track.value);
        if !matched {
          return Some(Internal), row;
        }
      }
      if fields.title == "" {
        return Some(Internal), row;
      }
      var saved := Insert(team.value, event, fields, id);
      if !saved {
        return Some(Internal), row;
      }
      err := None;
    }
  }

  // ------------------------------------------------------ edit, submit, disqualify

  class EditingService {
    const db: Database
    const teams: TeamRepository
    const subs: SubmissionRepository

    constructor (db: Database)
      ensures this.db == db && Wired()
    {
      this.db := db;
      teams := new TeamRepository(db);
      subs := new SubmissionRepository(db);
    }

    ghost predicate Wired() { teams.db == db && subs.db == db }

    /** Loading a submission for a member of its team, with its event's deadline. */
    method LoadForMember(user: Id, id: Id) returns (s: LoadedSubmission?, deadline: Option<int>, err: Option<Error>)
      requires Wired()
      ensures s == null <==> err != None
      ensures s != null ==> fresh(s) && s.id == id && id in db.subs && s.Value() == db.subs[id]
      ensures s != null ==> OnTeam(db.W(), user, s.Value())
      ensures s != null ==> s.event in db.events && deadline == db.events[s.event].submissionDeadlineAt
      ensures err != None ==> forall now :: Refusal(db.W(), user, id, now) == err
    {
      deadline := None;
      s := subs.FindByID(id);
      if s == null {
        return s, deadline, Some(NotFound);
      }
      var team := teams.FindByEventAndUser(s.event, user);
      if team == None || team.value != s.team {
        return null, deadline, Some(Forbidden);
      }
      if s.event !in db.events {
        return null, deadline, Some(Internal);
      }
      deadline := db.events[s.event].submissionDeadlineAt;
      err := None;
    }

    /** Overwrites the fields that the command names, and writes the row. */
    method Apply(s: LoadedSubmission, edit: SubmissionEdit)
      requires Wired()
      modifies s, db`subs
      ensures db.subs == SubmissionUpdated(old(db.subs), s.id, EditedRow(old(s.Value()), edit))
    {
      if edit.title.Some? {
        s.title := edit.title.value;
      }
      if edit.description.Some? {
        s.description := edit.description;
      }
      if edit.repoUrl.Some? {
        s.repoUrl := edit.repoUrl;
      }
      if edit.demoUrl.Some? {
        s.demoUrl := edit.demoUrl;
      }
      subs.Update(s);
    }

    method Update(user: Id, id: Id, edit: SubmissionEdit, now: int) returns (err: Option<Error>)
      requires Wired()
      modifies db
      ensures err == if id !in old(db.subs) then Some(NotFound)
                       else
                         var sub := old(db.subs)[id]; var seat := Seat(user, sub.event);
                         if seat !in old(db.members) || old(db.members)[seat] != sub.team then Some(Forbidden)
                         else if sub.event !in old(db.events) then Some(Internal)
                         else if sub.status != Editable then Some(InvariantViolated)
                         else
                           var deadline := old(db.events)[sub.event].submissionDeadlineAt;
                           if deadline.Some? && now > deadline.value then Some(DeadlinePassed) else None
      ensures db.W() == if err != None then old(db.W())
                        else
                          var sub := old(db.subs)[id];
                          old(db.W()).(subs := old(db.subs)[id := sub.(
                            title := if edit.title.Some? then edit.title.value else sub.title,
                            description := if edit.description.Some? then edit.description else sub.description,
                            repoUrl := if edit.repoUrl.Some? then edit.repoUrl else sub.repoUrl,
                            demoUrl := if edit.demoUrl.Some? then edit.demoUrl else sub.demoUrl)])
      ensures err == ErrorOf(EditSubmission(old(db.W()), user, id, edit, now))
      ensures db.W() == Step(old(db.W()), DoEdit(user, id, edit, now))
    {
      var s, deadline, refused := LoadForMember(user, id);
      if s == null {
        assert Refusal(db.W(), user, id, now) == refused;
        return refused;
      }
      err := s.CheckCanEdit(deadline, now);
      if err == None {
        Apply(s, edit);
      }
    }

    method Submit(user: Id, id: Id, now: int, later: int) returns (err: Option<Error>)
      requires Wired()
      modifies db
      ensures err == if id !in old(db.subs) then Some(NotFound)
                       else
                         var sub := old(db.subs)[id]; var seat := Seat(user, sub.event);
                         if seat !in old(db.members) || old(db.members)[seat] != sub.team then Some(Forbidden)
                         else if sub.event !in old(db.events) then Some(Internal)
                         else if sub.status != Editable then Some(InvariantViolated)
                         else
                           var deadline := old(db.events)[sub.event].submissionDeadlineAt;
                           if deadline.Some? && now > deadline.value then Some(DeadlinePassed) else None
      ensures db.W() == if err != None then old(db.W())
                        else old(db.W()).(subs := old(db.subs)[id := old(db.subs)[id].(
                               status := Submitted, submittedAt := Some(later))])
      ensures err == ErrorOf(SubmitSubmission(old(db.W()), user, id, now, later))
      ensures db.W() == Step(old(db.W()), DoSubmit(user, id, now, later))
    {
      var s, deadline, refused := LoadForMember(user, id);
      if s == null {
        assert Refusal(db.W(), user, id, now) == refused;
        return refused;
      }
      err := s.Submit(deadline, now, later);
      if err == None {
        subs.Update(s);
      }
    }
  }

  class DisqualifyService {
    const db: Database
    const subs: SubmissionRepository
    const users: UserReader
    const auditLog: AuditLogWriter

    constructor (db: Database)
      ensures this.db == db && Wired()
    {
      this.db := db;
      subs := new SubmissionRepository(db);
      users := new UserReader(db);
      auditLog := new AuditLogWriter(db);
    }

    ghost predicate Wired() { subs.db == db && users.db == db && auditLog.db == db }

    method Disqualify(admin: Id, id: Id, audit: Fault) returns (err: Option<Error>)
      requires Wired()
      modifies db
      ensures var refused := if admin !in old(db.admins) then Some(Internal)
                             else if !old(db.admins)[admin] then Some(Forbidden)
                             else if id !in old(db.subs) then Some(NotFound) else None;
              && err == (if refused.Some? then refused else if audit != NoFault then Some(Internal) else None)
              && db.W() == if refused.Some? then old(db.W())
                           else old(db.W()).(
                             subs := old(db.subs)[id := old(db.subs)[id].(status := Disqualified)],
                             audit := if audit != NotDone then old(db.audit) + [AuditEntry(admin, id)]
                                      else old(db.audit))
      ensures (db.W(), err) == Lifecycle.Disqualify(old(db.W()), admin, id, audit)
      ensures db.W() == Step(old(db.W()), DoDisqualify(admin, id, audit))
    {
      assert Step(db.W(), DoDisqualify(admin, id, audit)) == Lifecycle.Disqualify(db.W(), admin, id, audit).0;
      var isAdmin := users.IsAdmin(admin);
      if isAdmin == None {
        return Some(Internal);
      }
      if !isAdmin.value {
        return Some(Forbidden);
      }
      var s := subs.FindByID(id);
      if s == null {
        return Some(NotFound);
      }
      err := Mark(s, admin, audit);
    }

    /** The status first, then the audit entry. */
    method Mark(s: LoadedSubmission, admin: Id, audit: Fault) returns (err: Option<Error>)
      requires Wired() && s.id in db.subs && s.Value() == db.subs[s.id]
      modifies s`status, db`subs, db`audit
      ensures db.subs == SubmissionUpdated(old(db.subs), s.id, old(db.subs[s.id]).(status := Disqualified))
      ensures db.audit == if audit.Done() then old(db.audit) + [AuditEntry(admin, s.id)] else old(db.audit)
      ensures err == if audit.Failed() then Some(Internal) else None
    {
      s.status := Disqualified;
      subs.Update(s);
      var logged := auditLog.Write(AuditEntry(admin, s.id), audit);
      err := if logged then None else Some(Internal);
    }
  }

  // -------------------------------------------------------------------- upload

  class UploadService {
    const db: Database
    const editing: EditingService
    const subs: SubmissionRepository
    const uploads: UploadRepository
    const storage: FileStorage

    constructor (db: Database)
      ensures this.db == db && Wired()
    {
      this.db := db;
      editing := new EditingService(db);
      subs := new SubmissionRepository(db);
      uploads := new UploadRepository(db);
      storage := new FileStorage(db);
    }

    ghost predicate Wired() {
      editing.db == db && editing.Wired() && subs.db == db && uploads.db == db && storage.db == db
    }

    method DeleteOldCover(cmd: UploadCommand, f: Faults) returns (ghost cover: Option<Id>)
      requires Wired() && cmd.kind == Cover
      modifies db`uploads, db`objects
      ensures CoverAnswer(old(db.uploads), cmd.sub, cover)
      ensures db.W() == WithoutOldCover(old(db.W()), cmd, cover, f)
    {
      var previous := uploads.FindCoverBySubmissionID(cmd.sub);
      cover := previous;
      if previous.Some? {
        var row := db.uploads[previous.value];
        storage.Delete(row.stored, f.deleteObject);
        uploads.Delete(previous.value, f.deleteRow);
      }
    }

    method Record(s: LoadedSubmission, cmd: UploadCommand, url: Object, f: Faults) returns (err: Option<Error>)
      requires Wired() && s.id == cmd.sub && cmd.sub in db.subs && s.Value() == db.subs[cmd.sub]
               && url == NewObject(cmd)
      modifies db`uploads, db`subs, s`coverUrl
      ensures (db.W(), err) == RecordUpload(old(db.W()), cmd, f)
    {
      var saved := uploads.Save(cmd.upload, Upload(s.id, cmd.user, url, cmd.kind), f.saveRow);
      if !saved {
        return Some(Internal);
      }
      err := None;
      if cmd.kind == Cover {
        s.coverUrl := Some(url);
        if f.writeCover.Done() {
          subs.Update(s);
        }
        if f.writeCover.Failed() {
          err := Some(Internal);
        }
      }
    }

    method Store(s: LoadedSubmission, cmd: UploadCommand, f: Faults) returns (err: Option<Error>)
      requires Wired() && s.id == cmd.sub && cmd.sub in db.subs && s.Value() == db.subs[cmd.sub]
      modifies db`uploads, db`objects, db`subs, s`coverUrl
      ensures (db.W(), err) == StoreUpload(old(db.W()), cmd, f)
    {
      var bucket := "uploads-covers";
      if cmd.kind == Attachment {
        bucket := "uploads";
      }
      var url := Object(bucket, s.id, cmd.kind, cmd.upload, cmd.extension);
      var put := storage.Put(url, f.put);
      if !put {
        return Some(Internal);
      }
      err := Record(s, cmd, url, f);
    }

    /** The checks before anything is written. */
    method Check(cmd: UploadCommand) returns (s: LoadedSubmission?, err: Option<Error>)
      requires Wired()
      ensures s == null <==> err != None
      ensures err == if cmd.sub !in db.subs then Some(NotFound)
                       else
                         var sub := db.subs[cmd.sub]; var seat := Seat(cmd.user, sub.event);
                         if seat !in db.members || db.members[seat] != sub.team then Some(Forbidden)
                         else if sub.event !in db.events then Some(Internal)
                         else if sub.status != Editable then Some(InvariantViolated)
                         else
                           var deadline := db.events[sub.event].submissionDeadlineAt;
                           if deadline.Some? && cmd.now > deadline.value then Some(DeadlinePassed)
                           else if cmd.size > 50 * 1024 * 1024 then Some(InvariantViolated)
                           else if cmd.kind != OtherType && !cmd.allowed then Some(BadFile) else None
      ensures err == var refused := Refusal(db.W(), cmd.user, cmd.sub, cmd.now); if refused.Some? then refused
              else FileRefusal(cmd)
      ensures s != null ==> fresh(s) && s.id == cmd.sub && cmd.sub in db.subs && s.Value() == db.subs[cmd.sub]
    {
      var deadline;
      s, deadline, err := editing.LoadForMember(cmd.user, cmd.sub);
      if s == null {
        assert Refusal(db.W(), cmd.user, cmd.sub, cmd.now) == err;
        return;
      }
      err := s.CheckCanEdit(deadline, cmd.now);
      if err != None {
        return null, err;
      }
      if cmd.size > MAX_FILE_SIZE {
        return null, Some(InvariantViolated);
      }
      if cmd.kind != OtherType && !cmd.allowed {
        return null, Some(BadFile);
      }
    }

    /** `refused` is the error of an upload that is refused before anything is written. */
    method UploadFile(cmd: UploadCommand, f: Faults)
      returns (err: Option<Error>, ghost cover: Option<Id>, ghost refused: Option<Error>)
      requires Wired()
      modifies db
      ensures refused == if cmd.sub !in old(db.subs) then Some(NotFound)
                       else
                         var sub := old(db.subs)[cmd.sub]; var seat := Seat(cmd.user, sub.event);
                         if seat !in old(db.members) || old(db.members)[seat] != sub.team then Some(Forbidden)
                         else if sub.event !in old(db.events) then Some(Internal)
                         else if sub.status != Editable then Some(InvariantViolated)
                         else
                           var deadline := old(db.events)[sub.event].submissionDeadlineAt;
                           if deadline.Some? && cmd.now > deadline.value then Some(DeadlinePassed)
                           else if cmd.size > 50 * 1024 * 1024 then Some(InvariantViolated)
                           else if cmd.kind != OtherType && !cmd.allowed then Some(BadFile) else None
      ensures refused.Some? ==> err == refused && db.W() == old(db.W())
      ensures var rows := old(db.uploads);
              && (cover.Some? ==> cover.value in rows && rows[cover.value].submission == cmd.sub
                                  && rows[cover.value].kind == Cover)
              && (cover == None ==> forall u :: u in rows && rows[u].submission == cmd.sub ==> rows[u].kind != Cover)
      ensures refused == None ==>
                var url := Object(if cmd.kind == Attachment then "uploads" else "uploads-covers",
                                  cmd.sub, cmd.kind, cmd.upload, cmd.extension);
                var swaps := cmd.kind == Cover && cover.Some?;
                var rows := if swaps && f.deleteRow != NotDone then old(db.uploads) - {cover.value}
                            else old(db.uploads);
                var kept := if swaps && f.deleteObject != NotDone
                            then old(db.objects) - {old(db.uploads)[cover.value].stored} else old(db.objects);
                var saved := f.put == NoFault && f.saveRow != NotDone && cmd.upload !in rows;
                var shown := saved && f.saveRow == NoFault && cmd.kind == Cover && f.writeCover != NotDone;
                && err == (if saved && f.saveRow == NoFault && (cmd.kind == Cover ==> f.writeCover == NoFault) then None
                           else Some(Internal))
                && db.W() == old(db.W()).(
                               objects := if f.put != NotDone then kept + {url} else kept,
                               uploads := if saved then rows[cmd.upload := Upload(cmd.sub, cmd.user, url, cmd.kind)]
                                          else rows,
                               subs := if shown
                                       then old(db.subs)[cmd.sub := old(db.subs)[cmd.sub].(coverUrl := Some(url))]
                                       else old(db.subs))
      ensures CoverAnswer(old(db.uploads), cmd.sub, cover)
      ensures (db.W(), err) == Lifecycle.UploadFile(old(db.W()), cmd, cover, f)
      ensures db.W() == Step(old(db.W()), DoUpload(cmd, cover, f))
    {
      cover := AnyCover(db.uploads, cmd.sub);
      var s;
      s, err := Check(cmd);
      refused := err;
      if s == null {
        return;
      }
      err, cover := Replace(s, cmd, f);
    }

    /** An accepted file takes the place of an old cover. */
    method Replace(s: LoadedSubmission, cmd: UploadCommand, f: Faults)
      returns (err: Option<Error>, ghost cover: Option<Id>)
      requires Wired() && s.id == cmd.sub && cmd.sub in db.subs && s.Value() == db.subs[cmd.sub]
      modifies db`uploads, db`objects, db`subs, s`coverUrl
      ensures CoverAnswer(old(db.uploads), cmd.sub, cover)
      ensures var rows := old(db.uploads);
              && (cover.Some? ==> cover.value in rows && rows[cover.value].submission == cmd.sub
                                  && rows[cover.value].kind == Cover)
              && (cover == None ==> forall u :: u in rows && rows[u].submission == cmd.sub ==> rows[u].kind != Cover)
      ensures var url := Object(if cmd.kind == Attachment then "uploads" else "uploads-covers",
                                cmd.sub, cmd.kind, cmd.upload, cmd.extension);
              var swaps := cmd.kind == Cover && cover.Some?;
              var rows := if swaps && f.deleteRow != NotDone then old(db.uploads) - {cover.value}
                          else old(db.uploads);
              var kept := if swaps && f.deleteObject != NotDone
                          then old(db.objects) - {old(db.uploads)[cover.value].stored} else old(db.objects);
              var saved := f.put == NoFault && f.saveRow != NotDone && cmd.upload !in rows;
              var shown := saved && f.saveRow == NoFault && cmd.kind == Cover && f.writeCover != NotDone;
              && err == (if saved && f.saveRow == NoFault && (cmd.kind == Cover ==> f.writeCover == NoFault) then None
                         else Some(Internal))
              && db.W() == old(db.W()).(
                             objects := if f.put != NotDone then kept + {url} else kept,
                             uploads := if saved then rows[cmd.upload := Upload(cmd.sub, cmd.user, url, cmd.kind)]
                                        else rows,
                             subs := if shown
                                     then old(db.subs)[cmd.sub := old(db.subs)[cmd.sub].(coverUrl := Some(url))]
                                     else old(db.subs))
      ensures (db.W(), err) == StoreUpload(WithoutOldCover(old(db.W()), cmd, cover, f), cmd, f)
    {
      cover := AnyCover(db.uploads, cmd.sub);
      if cmd.kind == Cover {
        cover := DeleteOldCover(cmd, f);
      }
      err := Store(s, cmd, f);
    }
  }

  /** Some answer to the cover query, for the paths that do not ask it. */
  ghost function AnyCover(uploads: map<Id, Upload>, sub: Id): (cover: Option<Id>)
    ensures CoverAnswer(uploads, sub, cover)
  {
    if u :| u in uploads && IsCoverOf(uploads[u], sub) then Some(u) else None
  }
}
