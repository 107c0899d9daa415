/** The event and team use cases as they are written: load, check, change the loaded
    object, write it back. Each is proved to make the one step of the machine in
    Lifecycle that its command stands for, so that every theorem about runs is a
    theorem about this code. */
module EventServices {
  import opened Failures
  import opened Wrappers
  import opened PlatformModel
  import opened Lifecycle
  import opened PlatformStore

  /** Some answer to the role query, for the paths that do not ask it. */
  ghost function AnyRole(roles: Roles, user: Id, event: Id): (role: Option<Role>)
    ensures RoleAnswer(roles, user, event, role)
  {
    if r: Role :| Grant(event, user, r) in roles then Some(r) else None
  }

  // -------------------------------------------------------------------- create

  class CreateEventService {
    const db: Database
    const events: EventRepository
    const roles: RoleRepository

    constructor (db: Database)
      ensures this.db == db && events.db == db && roles.db == db
    {
      this.db := db;
      events := new EventRepository(db);
      roles := new RoleRepository(db);
    }

    /** `id` is a fresh identifier, `grant` how the insert of the organizer's row fails. */
    method Create(id: Id, cmd: CreateEventCommand, now: int, grant: Fault) returns (err: Option<Error>)
      requires events.db == db && roles.db == db && id !in db.events
      modifies db
      ensures var taken := exists e :: e in old(db.events) && old(db.events)[e].slug == cmd.slug;
              var stored := !taken && cmd.slug != "" && cmd.title != "" && cmd.maxTeamSize <= 10;
              && err == (if taken then Some(InvariantViolated)
                         else if !stored || grant != NoFault then Some(Internal) else None)
              && db.events == (if !stored then old(db.events) else old(db.events)[id := Event(
                                 cmd.slug, cmd.title, cmd.description, cmd.organizer, EventStatus.Draft,
                                 cmd.registrationOpensAt, cmd.registrationClosesAt,
                                 if cmd.submissionDeadlineAt.Some? then cmd.submissionDeadlineAt
                                 else Some(now + 30 * 24 * 3_600_000_000_000),
                                 if cmd.judgingDeadlineAt.Some? then cmd.judgingDeadlineAt
                                 else Some(now + 45 * 24 * 3_600_000_000_000),
                                 cmd.votingOpensAt, cmd.votingClosesAt,
                                 if cmd.maxTeamSize < 1 then 5 else cmd.maxTeamSize)])
              && db.roles == (if stored && grant != NotDone then old(db.roles) + {Grant(id, cmd.organizer, Organizer)}
                              else old(db.roles))
      ensures db.W() == old(db.W()).(events := db.events, roles := db.roles)
      ensures (db.W(), err) == CreateEvent(old(db.W()), id, cmd, now, grant)
      ensures db.W() == Step(old(db.W()), DoCreateEvent(id, cmd, now, grant))
    {
      var taken := events.ExistsBySlug(cmd.slug);
      if taken {
        return Some(InvariantViolated);
      }
      if cmd.slug == "" || cmd.title == "" {
        return Some(Internal);
      }
      err := Insert(id, cmd, now, grant);
    }

    /** The event, and then its organizer's row. */
    method Insert(id: Id, cmd: CreateEventCommand, now: int, grant: Fault) returns (err: Option<Error>)
      requires events.db == db && roles.db == db && id !in db.events && !SlugTaken(db.events, cmd.slug)
      modifies db
      ensures var e := NewEvent(cmd, now); var stored := SizeOk(e);
              && err == (if !stored || grant.Failed() then Some(Internal) else None)
              && db.W() == old(db.W()).(
                             events := if stored then old(db.events)[id := e] else old(db.events),
                             roles := if stored && grant.Done()
                                      then old(db.roles) + {Grant(id, cmd.organizer, Organizer)} else old(db.roles))
    {
      var e := new LoadedEvent.New(id, cmd, now);
      var saved := events.Save(e);
      if !saved {
        return Some(Internal);
      }
      var granted := roles.GrantRole(cmd.organizer, id, Organizer, grant);
      err := if granted then None else Some(Internal);
    }
  }

  // -------------------------------------------------------------------- update

  /** Overwrites the texts that the command names. */
  method ApplyTexts(e: LoadedEvent, edit: EventEdit)
    modifies e`title, e`description
    ensures e.title == if edit.title.Some? then edit.title.value else old(e.title)
    ensures e.description == Or(edit.description, old(e.description))
  {
    if edit.title.Some? {
      e.title := edit.title.value;
    }
    if edit.description.Some? {
      e.description := edit.description;
    }
  }

  /** Overwrites the times that the command names. */
  method ApplyTimes(e: LoadedEvent, edit: EventEdit)
    modifies e`registrationOpensAt, e`registrationClosesAt, e`submissionDeadlineAt
    modifies e`judgingDeadlineAt, e`votingOpensAt, e`votingClosesAt
    ensures e.registrationOpensAt == Or(edit.registrationOpensAt, old(e.registrationOpensAt))
    ensures e.registrationClosesAt == Or(edit.registrationClosesAt, old(e.registrationClosesAt))
    ensures e.submissionDeadlineAt == Or(edit.submissionDeadlineAt, old(e.submissionDeadlineAt))
    ensures e.judgingDeadlineAt == Or(edit.judgingDeadlineAt, old(e.judgingDeadlineAt))
    ensures e.votingOpensAt == Or(edit.votingOpensAt, old(e.votingOpensAt))
    ensures e.votingClosesAt == Or(edit.votingClosesAt, old(e.votingClosesAt))
  {
    if edit.registrationOpensAt.Some? {
      e.registrationOpensAt := edit.registrationOpensAt;
    }
    if edit.registrationClosesAt.Some? {
      e.registrationClosesAt := edit.registrationClosesAt;
    }
    if edit.submissionDeadlineAt.Some? {
      e.submissionDeadlineAt := edit.submissionDeadlineAt;
    }
    if edit.judgingDeadlineAt.Some? {
      e.judgingDeadlineAt := edit.judgingDeadlineAt;
    }
    if edit.votingOpensAt.Some? {
      e.votingOpensAt := edit.votingOpensAt;
    }
    if edit.votingClosesAt.Some? {
      e.votingClosesAt := edit.votingClosesAt;
    }
  }

  /** What an accepted update stores, column by column, and which error it reports otherwise. */
  lemma EditStores(e: Event, edit: EventEdit)
    ensures var status := if edit.newStatus.Some? then edit.newStatus.value else e.status;
            Edited(e, edit) ==
            if edit.newStatus.Some? && Rank(status) != Rank(e.status) + 1
               && !(e.status == JudgingOpen && status == ResultsPublished) then Err(InvalidTransition)
            else if edit.maxTeamSize.Some? && status != EventStatus.Draft && status != RegistrationOpen
              then Err(TeamSizeLocked)
            else Ok(Event(
              e.slug, if edit.title.Some? then edit.title.value else e.title,
              if edit.description.Some? then edit.description else e.description, e.organizer, status,
              if edit.registrationOpensAt.Some? then edit.registrationOpensAt else e.registrationOpensAt,
              if edit.registrationClosesAt.Some? then edit.registrationClosesAt else e.registrationClosesAt,
              if edit.submissionDeadlineAt.Some? then edit.submissionDeadlineAt else e.submissionDeadlineAt,
              if edit.judgingDeadlineAt.Some? then edit.judgingDeadlineAt else e.judgingDeadlineAt,
              if edit.votingOpensAt.Some? then edit.votingOpensAt else e.votingOpensAt,
              if edit.votingClosesAt.Some? then edit.votingClosesAt else e.votingClosesAt,
              if edit.maxTeamSize.Some? then edit.maxTeamSize.value else e.maxTeamSize))
  {}

  class UpdateEventService {
    const db: Database
    const events: EventRepository
    const roles: RoleRepository

    constructor (db: Database)
      ensures this.db == db && events.db == db && roles.db == db
    {
      this.db := db;
      events := new EventRepository(db);
      roles := new RoleRepository(db);
    }

    /** The transition comes first, and the team size is judged by the status it reached. */
    method Apply(copy: LoadedEvent, edit: EventEdit) returns (err: Option<Error>)
      modifies copy
      ensures match Edited(old(copy.Value()), edit)
              case Ok(e) => err == None && copy.Value() == e
              case Err(InvalidTransition) => err == Some(BadTransition)
              case Err(TeamSizeLocked) => err == Some(InvariantViolated)
      ensures err == Some(InvariantViolated) ==>
              copy.status == if edit.newStatus.Some? then edit.newStatus.value else old(copy.status)
    {
      if edit.newStatus.Some? {
        var moved := copy.Transition(edit.newStatus.value);
        if !moved {
          return Some(BadTransition);
        }
      }
      if edit.maxTeamSize.Some? {
        if copy.status != EventStatus.Draft && copy.status != RegistrationOpen {
          return Some(InvariantViolated);
        }
        copy.maxTeamSize := edit.maxTeamSize.value;
      }
      ApplyTexts(copy, edit);
      ApplyTimes(copy, edit);
      err := None;
    }

    /** A rejected update may leave the loaded object, `copy`, in its new status; the
        stored row stays as it was. */
    method Update(slug: string, caller: Id, edit: EventEdit)
      returns (err: Option<Error>, copy: LoadedEvent?, ghost row: Option<Id>, ghost role: Option<Role>)
      requires events.db == db && roles.db == db
      modifies db
      ensures var rows := old(db.events);
              && (row.Some? ==> row.value in rows && rows[row.value].slug == slug)
              && (row == None ==> forall e :: e in rows ==> rows[e].slug != slug)
      ensures row.Some? ==>
                && (role.Some? ==> Grant(row.value, caller, role.value) in old(db.roles))
                && (role == None ==> forall r: Role :: Grant(row.value, caller, r) !in old(db.roles))
      ensures row.Some? && role == Some(Organizer) ==>
                var e := old(db.events)[row.value];
                var status := if edit.newStatus.Some? then edit.newStatus.value else e.status;
                var size := if edit.maxTeamSize.Some? then edit.maxTeamSize.value else e.maxTeamSize;
                && err == (if edit.newStatus.Some? && Rank(status) != Rank(e.status) + 1
                              && !(e.status == JudgingOpen && status == ResultsPublished) then Some(BadTransition)
                           else if edit.maxTeamSize.Some? && status != EventStatus.Draft && status != RegistrationOpen
                             then Some(InvariantViolated)
                           else if !(1 <= size <= 10) then Some(Internal) else None)
                && (err == None ==> db.events == old(db.events)[row.value := Event(
                      e.slug, if edit.title.Some? then edit.title.value else e.title,
                      if edit.description.Some? then edit.description else e.description, e.organizer, status,
                      if edit.registrationOpensAt.Some? then edit.registrationOpensAt else e.registrationOpensAt,
                      if edit.registrationClosesAt.Some? then edit.registrationClosesAt else e.registrationClosesAt,
                      if edit.submissionDeadlineAt.Some? then edit.submissionDeadlineAt else e.submissionDeadlineAt,
                      if edit.judgingDeadlineAt.Some? then edit.judgingDeadlineAt else e.judgingDeadlineAt,
                      if edit.votingOpensAt.Some? then edit.votingOpensAt else e.votingOpensAt,
                      if edit.votingClosesAt.Some? then edit.votingClosesAt else e.votingClosesAt, size)])
      ensures !(row.Some? && role == Some(Organizer)) ==> err == Some(if row == None then NotFound else Forbidden)
      ensures db.W() == old(db.W()).(events := db.events)
      ensures Possible(old(db.W()), DoUpdateEvent(row, slug, caller, role, edit))
      ensures err == ErrorOf(UpdateEvent(old(db.W()), row, role, edit))
      ensures db.W() == Step(old(db.W()), DoUpdateEvent(row, slug, caller, role, edit))
      ensures err != None ==> db.W() == old(db.W())
      ensures err == Some(InvariantViolated) ==>
        copy != null && row == Some(copy.id)
          && copy.status == if edit.newStatus.Some? then edit.newStatus.value else db.events[copy.id].status
    {
      row, copy := events.Load(slug);
      role := None;
      if copy == null {
        return Some(NotFound), copy, row, role;
      }
      var mine := roles.GetRole(caller, copy.id);
      role := mine;
      if mine != Some(Organizer) {
        return Some(Forbidden), copy, row, role;
      }
      EditStores(copy.Value(), edit);
      err := Apply(copy, edit);
      if err != None {
        return err, copy, row, role;
      }
      var written := events.Update(copy);
      if !written {
        return Some(Internal), copy, row, role;
      }
      err := None;
    }
  }

  // ------------------------------------------------------- register, unregister

  class RegisterService {
    const db: Database
    const events: EventRepository
    const participants: RoleRepository

    constructor (db: Database)
      ensures this.db == db && events.db == db && participants.db == db
    {
      this.db := db;
      events := new EventRepository(db);
      participants := new RoleRepository(db);
    }

    method Register(slug: string, user: Id, now: int) returns (err: Option<Error>, ghost row: Option<Id>)
      requires events.db == db && participants.db == db
      modifies db
      ensures var rows := old(db.events);
              && (row.Some? ==> row.value in rows && rows[row.value].slug == slug)
              && (row == None ==> err == Some(NotFound) && forall e :: e in rows ==> rows[e].slug != slug)
      ensures row.Some? ==>
                var e := old(db.events)[row.value];
                err == if e.status != RegistrationOpen then Some(InvariantViolated)
                       else if e.registrationClosesAt.Some? && now > e.registrationClosesAt.value
                         then Some(DeadlinePassed)
                       else if Grant(row.value, user, Judge) in old(db.roles)
                               || Grant(row.value, user, Organizer) in old(db.roles) then Some(InvariantViolated)
                       else if Grant(row.value, user, Participant) in old(db.roles) then Some(Duplicate) else None
      ensures db.W() == if err == None then old(db.W()).(roles := old(db.roles) + {Grant(row.value, user, Participant)})
                        else old(db.W())
      ensures Possible(old(db.W()), DoRegister(row, slug, user, now))
      ensures err == ErrorOf(Lifecycle.Register(old(db.W()), row, user, now))
      ensures db.W() == Step(old(db.W()), DoRegister(row, slug, user, now))
    {
      var found := events.FindBySlug(slug);
      row := found;
      if found == None {
        return Some(NotFound), row;
      }
      var event := found.value;
      var closes := db.events[event].registrationClosesAt;
      if db.events[event].status != RegistrationOpen {
        return Some(InvariantViolated), row;
      }
      if closes.Some? && now > closes.value {
        return Some(DeadlinePassed), row;
      }
      var excluded := [Judge, Organizer];
      for i := 0 to |excluded|
        invariant db.W() == old(db.W())
        invariant forall k :: 0 <= k < i ==> Grant(event, user, excluded[k]) !in db.roles
      {
        var has := participants.HasRole(user, event, excluded[i]);
        if has {
          return Some(InvariantViolated), row;
        }
      }
      assert excluded[0] == Judge && excluded[1] == Organizer;
      var registered := participants.HasRole(user, event, Participant);
      if registered {
        return Some(Duplicate), row;
      }
      var inserted := participants.GrantParticipantRole(user, event);
      if !inserted {
        return Some(Duplicate), row;
      }
      err := None;
    }
  }

  class UnregisterService {
    const db: Database
    const events: EventRepository
    const participants: RoleRepository
    const teamMembers: TeamRepository

    constructor (db: Database)
      ensures this.db == db && events.db == db && participants.db == db && teamMembers.db == db
    {
      this.db := db;
      events := new EventRepository(db);
      participants := new RoleRepository(db);
      teamMembers := new TeamRepository(db);
    }

    method Unregister(slug: string, user: Id) returns (err: Option<Error>, ghost row: Option<Id>)
      requires events.db == db && participants.db == db && teamMembers.db == db
      modifies db
      ensures var rows := old(db.events);
              && (row.Some? ==> row.value in rows && rows[row.value].slug == slug)
              && (row == None ==> forall e :: e in rows ==> rows[e].slug != slug)
      ensures err == if row == None || Grant(row.value, user, Participant) !in old(db.roles) then Some(NotFound)
                     else if Seat(user, row.value) in old(db.members) then Some(InvariantViolated) else None
      ensures db.W() == if err == None then old(db.W()).(roles := old(db.roles) - {Grant(row.value, user, Participant)})
                        else old(db.W())
      ensures Possible(old(db.W()), DoUnregister(row, slug, user))
      ensures err == ErrorOf(Lifecycle.Unregister(old(db.W()), row, user))
      ensures db.W() == Step(old(db.W()), DoUnregister(row, slug, user))
    {
      var found := events.FindBySlug(slug);
      row := found;
      if found == None {
        return Some(NotFound), row;
      }
      var event := found.value;
      var registered := participants.HasRole(user, event, Participant);
      if !registered {
        return Some(NotFound), row;
      }
      var team := teamMembers.FindByEventAndUser(event, user);
      if team.Some? {
        return Some(InvariantViolated), row;
      }
      var deleted := participants.RevokeParticipant(user, event);
      if !deleted {
        return Some(NotFound), row;
      }
      err := None;
    }
  }

  // --------------------------------------------------------------- create a team

  class CreateTeamService {
    const db: Database
    const events: EventRepository
    const participants: RoleRepository
    const teams: TeamRepository

    constructor (db: Database)
      ensures this.db == db && events.db == db && participants.db == db && teams.db == db
    {
      this.db := db;
      events := new EventRepository(db);
      participants := new RoleRepository(db);
      teams := new TeamRepository(db);
    }

    /** Up to three generated codes; the third is kept even if it is taken. */
    method PickCode(attempts: seq<Attempt>) returns (code: string)
      requires teams.db == db && |attempts| == 3
      ensures code == ChosenCode(db.teams, attempts)
    {
      code := "";
      for i := 0 to 3
        invariant i > 0 ==> code == attempts[i - 1].code
        invariant forall k :: 0 <= k < i ==> !Usable(db.teams, attempts[k])
      {
        code := attempts[i].code;
        var found := false;
        if !attempts[i].lookupFails {
          found := teams.FindByInviteCode(code);
        }
        if !found {
          break;
        }
      }
    }

    /** The lookups before anything is written, whose errors are dropped. */
    method Check(event: Id, cmd: CreateTeamCommand) returns (err: Option<Error>, ghost role: Option<Role>)
      requires events.db == db && participants.db == db && teams.db == db && |cmd.attempts| == 3
      requires event in db.events && db.events[event].status == RegistrationOpen
      ensures RoleAnswer(db.roles, cmd.user, event, role)
      ensures err == if cmd.faults.role || role != Some(Participant) then Some(Forbidden)
                     else if !cmd.faults.seat && Seat(cmd.user, event) in db.members then Some(Duplicate)
                     else if !cmd.faults.name && NameTaken(db.teams, event, cmd.name) then Some(Duplicate)
                     else None
    {
      role := AnyRole(db.roles, cmd.user, event);
      var mine := None;
      if !cmd.faults.role {
        mine := participants.GetRole(cmd.user, event);
        role := mine;
      }
      if mine != Some(Participant) {
        return Some(Forbidden), role;
      }
      var existing := None;
      if !cmd.faults.seat {
        existing := teams.FindByEventAndUser(event, cmd.user);
      }
      if existing.Some? {
        return Some(Duplicate), role;
      }
      var taken := false;
      if !cmd.faults.name {
        taken := teams.ExistsByName(event, cmd.name);
      }
      err := if taken then Some(Duplicate) else None;
    }

    method Create(slug: string, cmd: CreateTeamCommand)
      returns (err: Option<Error>, ghost row: Option<Id>, ghost role: Option<Role>)
      requires events.db == db && participants.db == db && teams.db == db && |cmd.attempts| == 3
      modifies db
      ensures var rows := old(db.events);
              && (row.Some? ==> row.value in rows && rows[row.value].slug == slug)
              && (row == None ==> forall e :: e in rows ==> rows[e].slug != slug)
      ensures row.Some? ==>
                && (role.Some? ==> Grant(row.value, cmd.user, role.value) in old(db.roles))
                && (role == None ==> forall r: Role :: Grant(row.value, cmd.user, r) !in old(db.roles))
      ensures row == None ==> err == Some(NotFound) && db.W() == old(db.W())
      ensures row.Some? ==>
                var rows := old(db.teams); var a := cmd.attempts;
                var first := a[0].lookupFails || !exists t :: t in rows && rows[t].inviteCode == a[0].code;
                var second := a[1].lookupFails || !exists t :: t in rows && rows[t].inviteCode == a[1].code;
                var code := if first then a[0].code else if second then a[1].code else a[2].code;
                var seat := Seat(cmd.user, row.value);
                var refused :=
                  if old(db.events)[row.value].status != RegistrationOpen then Some(InvariantViolated)
                  else if cmd.faults.role || role != Some(Participant) then Some(Forbidden)
                  else if !cmd.faults.seat && seat in old(db.members) then Some(Duplicate)
                  else if !cmd.faults.name
                          && exists t :: t in rows && rows[t].event == row.value && rows[t].name == cmd.name
                    then Some(Duplicate)
                  else None;
                var saved := refused == None && cmd.id !in rows
                             && !(exists t :: t in rows && rows[t].inviteCode == code)
                             && !exists t :: t in rows && rows[t].event == row.value && rows[t].name == cmd.name;
                var seated := saved && seat !in old(db.members) && cmd.faults.member != NotDone;
                && err == (if refused.Some? then refused
                           else if seated && cmd.faults.member == NoFault then None else Some(Internal))
                && db.teams == (if saved then rows[cmd.id := Team(row.value, cmd.name, code, cmd.user)] else rows)
                && db.members == if seated then old(db.members)[seat := cmd.id] else old(db.members)
      ensures db.W() == old(db.W()).(teams := db.teams, members := db.members)
      ensures Possible(old(db.W()), DoCreateTeam(row, slug, role, cmd))
      ensures (db.W(), err) == CreateTeam(old(db.W()), row, role, cmd)
      ensures db.W() == Step(old(db.W()), DoCreateTeam(row, slug, role, cmd))
    {
      var found := events.FindBySlug(slug);
      row, role := found, None;
      if found == None {
        return Some(NotFound), row, role;
      }
      var event := found.value;
      role := AnyRole(db.roles, cmd.user, event);
      if db.events[event].status != RegistrationOpen {
        return Some(InvariantViolated), row, role;
      }
      err, role := Check(event, cmd);
      if err == None {
        err := Insert(event, cmd);
      }
    }

    /** The two inserts. */
    method Insert(event: Id, cmd: CreateTeamCommand) returns (err: Option<Error>)
      requires teams.db == db && |cmd.attempts| == 3
      modifies db
      ensures var t := Lifecycle.NewTeam(old(db.W()), event, cmd); var seat := Seat(cmd.user, event);
              var saved := TeamInsertable(old(db.teams), old(db.events), cmd.id, t);
              var seated := saved && seat !in old(db.members) && cmd.faults.member.Done();
              && db.W() == old(db.W()).(teams := if saved then old(db.teams)[cmd.id := t] else old(db.teams),
                                        members := if seated then old(db.members)[seat := cmd.id] else old(db.members))
              && err == if seated && !cmd.faults.member.Failed() then None else Some(Internal)
    {
      var code := PickCode(cmd.attempts);
      var saved := teams.Save(cmd.id, Team(event, cmd.name, code, cmd.user));
      if !saved {
        return Some(Internal);
      }
      var added := teams.AddMember(cmd.id, cmd.user, event, cmd.faults.member);
      err := if added then None else Some(Internal);
    }
  }
}
