/** The two granularities agree: a use case whose repository calls run without
    interruption in the interleaved machine does exactly what the serial one does. */
module Granularity {
  import opened Failures
  import opened Wrappers
  import opened PlatformModel
  import I = Interleaving
  import L = Lifecycle

  /** The tables that both machines have. */
  function View(s: I.State): L.World {
    L.World(s.events, s.roles, s.tracks, s.teams, s.members, s.subs, map[], {}, map[], map[], map[], [])
  }

  /** The call ended, with the serial outcome. */
  ghost predicate Matches(s: I.State, t: I.State, c: Id, r: Result<L.World, L.Error>) {
    Ends(t, c, (L.Or0(r, View(s)), L.ErrorOf(r)))
  }

  ghost predicate Ends(t: I.State, c: Id, r: (L.World, Option<L.Error>)) {
    View(t) == r.0 && t.At(c) == if r.1 == None then I.Finished else I.Failed
  }

  lemma Next(s: I.State, own: seq<I.Action>, a: I.Action, t: I.State)
    requires I.Step(I.Run(s, own), a) == t
    ensures I.Run(s, own + [a]) == t
  {}

  /** A call that only moved on. */
  lemma Moved(s: I.State, c: Id, pc: I.Call, next: I.Call)
    ensures s.Become(c, pc).Become(c, next) == s.Become(c, next)
    ensures s.Become(c, pc).At(c) == pc && View(s.Become(c, pc)) == View(s)
  {}

  lemma TwoMoves(s: I.State, own: seq<I.Action>, a: I.Action, b: I.Action, t0: I.State, t1: I.State, t2: I.State)
    requires I.Run(s, own) == t0 && I.Step(t0, a) == t1 && I.Step(t1, b) == t2
    ensures I.Run(s, own + [a, b]) == t2
  {
    Next(s, own, a, t1);
    Next(s, own + [a], b, t2);
    assert own + [a] + [b] == own + [a, b];
  }

  lemma ThreeMoves(s: I.State, own: seq<I.Action>, a: I.Action, b: I.Action, c: I.Action, t0: I.State, t1: I.State,
          t2: I.State, t3: I.State)
    requires I.Run(s, own) == t0 && I.Step(t0, a) == t1 && I.Step(t1, b) == t2 && I.Step(t2, c) == t3
    ensures I.Run(s, own + [a, b, c]) == t3
  {
    TwoMoves(s, own, a, b, t0, t1, t2);
    Next(s, own + [a, b], c, t3);
    assert own + [a, b] + [c] == own + [a, b, c];
  }

  lemma Loads(s: I.State, c: Id, load: I.Action, pc: I.Call)
    requires I.Step(s, load) == s.Become(c, pc)
    ensures I.Run(s, [load]) == s.Become(c, pc)
  {}

  // ---------------------------------------------------------------------- events

  lemma ThreeSteps(s: I.State, a: I.Action, b: I.Action, c: I.Action)
    ensures I.Run(s, [a, b, c]) == I.Step(I.Step(I.Step(s, a), b), c)
  {
    assert [] + [a] == [a] && [a] + [b] == [a, b] && [a, b] + [c] == [a, b, c];
    Next(s, [], a, I.Step(s, a));
    Next(s, [a], b, I.Step(I.Step(s, a), b));
    Next(s, [a, b], c, I.Step(I.Step(I.Step(s, a), b), c));
  }

  lemma CreateEventAlone(s: I.State, c: Id, id: Id, cmd: L.CreateEventCommand, now: int)
    requires c !in s.calls
    ensures Ends(I.Run(s, [I.CreateCheck(c, L.NewEvent(cmd, now)), I.CreateSave(c, id), I.CreateGrant(c)]), c,
                 L.CreateEvent(View(s), id, cmd, now, NoFault))
  {
    var e := L.NewEvent(cmd, now);
    ThreeSteps(s, I.CreateCheck(c, e), I.CreateSave(c, id), I.CreateGrant(c));
    SaveAndGrant(s, c, id, e);
    CreateEventOutcome(s, c, id, e);
  }

  function AfterCreate(s: I.State, c: Id, id: Id, e: Event): I.State {
    if I.SlugChecked(s, e).SlugFree? && EventInsertable(s.events, id, e)
    then s.(events := s.events[id := e], roles := s.roles + {Grant(id, e.organizer, Organizer)}).Become(c, I.Finished)
    else s.Become(c, I.Failed)
  }

  lemma CreateEventOutcome(s: I.State, c: Id, id: Id, e: Event)
    ensures Ends(AfterCreate(s, c, id, e), c, L.InsertEvent(View(s), id, e, NoFault))
  {
    var refused := L.EventRefusal(View(s), id, e);
    assert refused == None <==> I.SlugChecked(s, e).SlugFree? && EventInsertable(s.events, id, e);
    if refused.Some? {
      assert AfterCreate(s, c, id, e) == s.Become(c, I.Failed);
    }
  }

  lemma SaveAndGrant(s: I.State, c: Id, id: Id, e: Event)
    ensures I.Step(I.Step(s.Become(c, I.SlugChecked(s, e)), I.CreateSave(c, id)), I.CreateGrant(c))
         == AfterCreate(s, c, id, e)
  {
    var pc := I.SlugChecked(s, e);
    Moved(s, c, pc, I.Failed);
    if pc.SlugFree? && EventInsertable(s.events, id, e) {
      var s1 := s.(events := s.events[id := e]);
      Moved(s1, c, pc, I.EventSaved(id, e.organizer));
      assert I.Step(s.Become(c, pc), I.CreateSave(c, id)) == s1.Become(c, I.EventSaved(id, e.organizer));
      Moved(s1.(roles := s1.roles + {Grant(id, e.organizer, Organizer)}), c, I.EventSaved(id, e.organizer), I.Finished);
    } else {
      assert I.Step(s.Become(c, pc), I.CreateSave(c, id)) == s.Become(c, I.Failed);
    }
  }

  /** The call after its load and its role lookup. */
  function Edited(s: I.State, row: Option<Id>, user: Id, edit: EventEdit, role: Option<Role>): I.Call
    requires row.Some? ==> row.value in s.events
  {
    if row.Some? then I.Authorized(I.EventLoaded(row.value, s.events[row.value], user, edit), role) else I.Failed
  }

  lemma UpdateEventAlone(s: I.State, c: Id, row: Option<Id>, slug: string, user: Id, edit: EventEdit,
          role: Option<Role>)
    requires c !in s.calls && SlugAnswer(s.events, slug, row)
    requires row.Some? ==> RoleAnswer(s.roles, user, row.value, role)
    ensures Matches(s, I.Run(s, [I.UpdateLoad(c, row, slug, user, edit), I.UpdateAuthorize(c, role), I.UpdateWrite(c)]),
                    c, L.UpdateEvent(View(s), row, role, edit))
  {
    var pc := Edited(s, row, user, edit, role);
    ThreeSteps(s, I.UpdateLoad(c, row, slug, user, edit), I.UpdateAuthorize(c, role), I.UpdateWrite(c));
    UpdateLoads(s, c, row, slug, user, edit, role);
    WriteEnds(s, c, pc);
    UpdateEventOutcome(s, AfterWrite(s, c, pc), c, row, user, edit, role);
  }

  lemma UpdateLoads(s: I.State, c: Id, row: Option<Id>, slug: string, user: Id, edit: EventEdit, role: Option<Role>)
    requires c !in s.calls && SlugAnswer(s.events, slug, row)
    requires row.Some? ==> RoleAnswer(s.roles, user, row.value, role)
    ensures I.Step(I.Step(s, I.UpdateLoad(c, row, slug, user, edit)), I.UpdateAuthorize(c, role)) ==
            s.Become(c, Edited(s, row, user, edit, role))
  {}

  function AfterWrite(s: I.State, c: Id, pc: I.Call): I.State {
    if pc.EventEdited? && SizeOk(pc.copy)
    then s.(events := EventUpdated(s.events, pc.event, pc.copy)).Become(c, I.Finished) else s.Become(c, I.Failed)
  }

  lemma WriteEnds(s: I.State, c: Id, pc: I.Call)
    requires pc.EventEdited? || pc.Failed?
    ensures I.Step(s.Become(c, pc), I.UpdateWrite(c)) == AfterWrite(s, c, pc)
  {
    Moved(s, c, pc, I.Failed);
  }

  lemma UpdateEventOutcome(s: I.State, t: I.State, c: Id, row: Option<Id>, user: Id, edit: EventEdit,
          role: Option<Role>)
    requires row.Some? ==> row.value in s.events
    requires t == AfterWrite(s, c, Edited(s, row, user, edit, role))
    ensures Matches(s, t, c, L.UpdateEvent(View(s), row, role, edit))
  {}

  // ---------------------------------------------------------------- registration

  /** The repository calls of one registration, in order. */
  function RegisterActions(c: Id, row: Option<Id>, slug: string, user: Id, now: int): seq<I.Action> {
    [I.RegisterLoad(c, row, slug, user, now)] + [I.RegisterCheck(c), I.RegisterCheck(c), I.RegisterCheck(c)]
    + [I.RegisterGrant(c)]
  }

  function RegisterChecked(s: I.State, pc: I.Call): I.Call {
    if pc.Registering? && pc.checked < 3 then I.RoleChecked(s, pc) else pc
  }

  lemma RegisterCheckMoves(s: I.State, c: Id, pc: I.Call)
    requires pc.Registering? || pc.Failed?
    ensures I.Step(s.Become(c, pc), I.RegisterCheck(c)) == s.Become(c, RegisterChecked(s, pc))
  {}

  /** Where the three role lookups leave the call. */
  lemma ThreeLookups(s: I.State, e: Id, u: Id)
    ensures RegisterChecked(s, RegisterChecked(s, RegisterChecked(s, I.Registering(e, u, 0)))) ==
            if HoldsRole(s, e, u) then I.Failed else I.Registering(e, u, 3)
  {}

  function RegisterOpened(s: I.State, row: Option<Id>, user: Id, now: int): I.Call
    requires row.Some? ==> row.value in s.events
  {
    if row.Some? && CanRegister(s.events[row.value], now) then I.Registering(row.value, user, 0) else I.Failed
  }

  lemma RegisterLoads(s: I.State, c: Id, row: Option<Id>, slug: string, user: Id, now: int, pc: I.Call)
    requires c !in s.calls && SlugAnswer(s.events, slug, row)
    requires pc == RegisterOpened(s, row, user, now)
    ensures I.Step(s, I.RegisterLoad(c, row, slug, user, now)) == s.Become(c, pc)
  {}

  lemma RegisterRuns(s: I.State, c: Id, row: Option<Id>, slug: string, user: Id, now: int, pc: I.Call)
    requires c !in s.calls && SlugAnswer(s.events, slug, row)
    requires pc == RegisterOpened(s, row, user, now)
    ensures I.Run(s, RegisterActions(c, row, slug, user, now))
         == I.Step(s.Become(c, RegisterChecked(s, RegisterChecked(s, RegisterChecked(s, pc)))), I.RegisterGrant(c))
  {
    var load, check, grant := I.RegisterLoad(c, row, slug, user, now), I.RegisterCheck(c), I.RegisterGrant(c);
    var pc1 := RegisterChecked(s, pc);
    var pc2 := RegisterChecked(s, pc1);
    RegisterLoads(s, c, row, slug, user, now, pc);
    RegisterCheckMoves(s, c, pc);
    RegisterCheckMoves(s, c, pc1);
    RegisterCheckMoves(s, c, pc2);
    Loads(s, c, load, pc);
    ThreeMoves(s, [load], check, check, check,
               s.Become(c, pc), s.Become(c, pc1), s.Become(c, pc2), s.Become(c, RegisterChecked(s, pc2)));
    Next(s, [load] + [check, check, check], grant, I.Step(s.Become(c, RegisterChecked(s, pc2)), grant));
  }

  lemma RegisterAlone(s: I.State, c: Id, row: Option<Id>, slug: string, user: Id, now: int)
    requires c !in s.calls && SlugAnswer(s.events, slug, row)
    ensures Matches(s, I.Run(s, RegisterActions(c, row, slug, user, now)),
                    c, L.Register(View(s), row, user, now))
  {
    var pc0 := RegisterOpened(s, row, user, now);
    var pc3 := RegisterChecked(s, RegisterChecked(s, RegisterChecked(s, pc0)));
    RegisterRuns(s, c, row, slug, user, now, pc0);
    if pc0.Registering? {
      ThreeLookups(s, row.value, user);
    }
    GrantEnds(s, c, pc3);
    RegisterOutcome(s, AfterGrant(s, c, pc3), c, row, user, now);
  }

  function AfterGrant(s: I.State, c: Id, pc: I.Call): I.State {
    if pc.Registering? && Grant(pc.event, pc.user, Participant) !in s.roles
    then s.(roles := s.roles + {Grant(pc.event, pc.user, Participant)}).Become(c, I.Finished) else s.Become(c, I.Failed)
  }

  predicate HoldsRole(s: I.State, e: Id, u: Id) {
    Grant(e, u, Judge) in s.roles || Grant(e, u, Organizer) in s.roles || Grant(e, u, Participant) in s.roles
  }

  lemma RegisterOutcome(s: I.State, t: I.State, c: Id, row: Option<Id>, user: Id, now: int)
    requires row.Some? ==> row.value in s.events
    requires t == AfterGrant(s, c,
                             if row.Some? && CanRegister(s.events[row.value], now) && !HoldsRole(s, row.value, user)
                             then I.Registering(row.value, user, 3) else I.Failed)
    ensures Matches(s, t, c, L.Register(View(s), row, user, now))
  {}

  lemma GrantEnds(s: I.State, c: Id, pc: I.Call)
    requires pc.Failed? || (pc.Registering? && pc.checked == 3)
    ensures I.Step(s.Become(c, pc), I.RegisterGrant(c)) == AfterGrant(s, c, pc)
  {
    Moved(s, c, pc, I.Failed);
  }

  /** The repository calls of one cancelled registration, in order. */
  function UnregisterActions(c: Id, row: Option<Id>, slug: string, user: Id): seq<I.Action> {
    [I.UnregisterLoad(c, row, slug, user)] + [I.UnregisterCheck(c), I.UnregisterCheck(c)] + [I.UnregisterRevoke(c)]
  }

  function UnregisterChecked(s: I.State, pc: I.Call): I.Call {
    if pc.Unregistering? && pc.checked < 2 then I.UnregisterChecked(s, pc) else pc
  }

  lemma UnregisterCheckMoves(s: I.State, c: Id, pc: I.Call)
    requires pc.Unregistering? || pc.Failed?
    ensures I.Step(s.Become(c, pc), I.UnregisterCheck(c)) == s.Become(c, UnregisterChecked(s, pc))
  {}

  lemma UnregisterLoads(s: I.State, c: Id, row: Option<Id>, slug: string, user: Id, pc: I.Call)
    requires c !in s.calls && SlugAnswer(s.events, slug, row)
    requires pc == if row.Some? then I.Unregistering(row.value, user, 0) else I.Failed
    ensures I.Step(s, I.UnregisterLoad(c, row, slug, user)) == s.Become(c, pc)
  {}

  lemma UnregisterRuns(s: I.State, c: Id, row: Option<Id>, slug: string, user: Id, pc: I.Call)
    requires c !in s.calls && SlugAnswer(s.events, slug, row)
    requires pc == if row.Some? then I.Unregistering(row.value, user, 0) else I.Failed
    ensures I.Run(s, UnregisterActions(c, row, slug, user))
         == I.Step(s.Become(c, UnregisterChecked(s, UnregisterChecked(s, pc))), I.UnregisterRevoke(c))
  {
    var load, check, revoke := I.UnregisterLoad(c, row, slug, user), I.UnregisterCheck(c), I.UnregisterRevoke(c);
    var pc1 := UnregisterChecked(s, pc);
    UnregisterLoads(s, c, row, slug, user, pc);
    UnregisterCheckMoves(s, c, pc);
    UnregisterCheckMoves(s, c, pc1);
    Loads(s, c, load, pc);
    TwoMoves(s, [load], check, check,
               s.Become(c, pc), s.Become(c, pc1), s.Become(c, UnregisterChecked(s, pc1)));
    Next(s, [load] + [check, check], revoke, I.Step(s.Become(c, UnregisterChecked(s, pc1)), revoke));
  }

  lemma UnregisterAlone(s: I.State, c: Id, row: Option<Id>, slug: string, user: Id)
    requires c !in s.calls && SlugAnswer(s.events, slug, row)
    ensures Matches(s, I.Run(s, UnregisterActions(c, row, slug, user)),
                    c, L.Unregister(View(s), row, user))
  {
    var pc := if row.Some? then I.Unregistering(row.value, user, 0) else I.Failed;
    UnregisterRuns(s, c, row, slug, user, pc);
    RevokeEnds(s, c, UnregisterChecked(s, UnregisterChecked(s, pc)));
    UnregisterOutcome(s, c, row, user, pc);
  }

  function AfterRevoke(s: I.State, c: Id, pc: I.Call): I.State {
    if pc.Unregistering? && Grant(pc.event, pc.user, Participant) in s.roles
    then s.(roles := s.roles - {Grant(pc.event, pc.user, Participant)}).Become(c, I.Finished)
    else s.Become(c, I.Failed)
  }

  lemma RevokeEnds(s: I.State, c: Id, pc: I.Call)
    requires pc.Failed? || (pc.Unregistering? && pc.checked == 2)
    ensures I.Step(s.Become(c, pc), I.UnregisterRevoke(c)) == AfterRevoke(s, c, pc)
  {
    Moved(s, c, pc, I.Failed);
  }

  lemma UnregisterOutcome(s: I.State, c: Id, row: Option<Id>, user: Id, pc: I.Call)
    requires row.Some? ==> row.value in s.events
    requires pc == if row.Some? then I.Unregistering(row.value, user, 0) else I.Failed
    ensures Matches(s, AfterRevoke(s, c, UnregisterChecked(s, UnregisterChecked(s, pc))), c,
                    L.Unregister(View(s), row, user))
  {}

  // ----------------------------------------------------------------- teams

  function TeamChecked(s: I.State, pc: I.Call, role: Option<Role>, fails: bool): I.Call {
    if pc.Teaming? && pc.checked < 3 then I.TeamChecked(s, pc, role, fails) else pc
  }

  lemma TeamCheckMoves(s: I.State, c: Id, pc: I.Call, role: Option<Role>, fails: bool)
    requires pc.Teaming? ==> RoleAnswer(s.roles, pc.user, pc.event, role)
    requires pc.Teaming? || pc.Coding? || pc.Failed?
    ensures I.Step(s.Become(c, pc), I.TeamCheck(c, role, fails)) == s.Become(c, TeamChecked(s, pc, role, fails))
  {}

  /** Where the three lookups leave the call. */
  function TeamLookedUp(s: I.State, pc: I.Call, role: Option<Role>, f: L.TeamFaults): I.Call {
    TeamChecked(s, TeamChecked(s, TeamChecked(s, pc, role, f.role), role, f.seat), role, f.name)
  }

  function CodeTried(s: I.State, pc: I.Call, a: L.Attempt): I.Call {
    if pc.Coding? then I.CodeTried(s, pc, a.code, a.lookupFails) else pc
  }

  function TryCode(c: Id, a: L.Attempt): I.Action { I.TeamTryCode(c, a.code, a.lookupFails) }

  lemma CodeMoves(s: I.State, c: Id, pc: I.Call, a: L.Attempt)
    requires pc.Coding? || pc.TeamReady? || pc.Failed?
    ensures I.Step(s.Become(c, pc), TryCode(c, a)) == s.Become(c, CodeTried(s, pc, a))
  {}

  /** The three attempts end with the serial use case's code. */
  lemma CodesEnd(s: I.State, e: Id, u: Id, name: string, attempts: seq<L.Attempt>)
    requires |attempts| == 3
    ensures CodeTried(s, CodeTried(s, CodeTried(s, I.Coding(e, u, name, 0), attempts[0]), attempts[1]), attempts[2])
         == I.TeamReady(e, u, name, L.ChosenCode(s.teams, attempts))
  {}

  function NewTeam(pc: I.Call): Team
    requires pc.TeamReady?
  {
    Team(pc.event, pc.name, pc.code, pc.user)
  }

  lemma SaveTeamEnds(s: I.State, c: Id, id: Id, pc: I.Call)
    requires pc.Failed? || pc.TeamReady?
    ensures var t := I.Step(s.Become(c, pc), I.TeamSave(c, id));
            if pc.TeamReady? && TeamInsertable(s.teams, s.events, id, NewTeam(pc))
            then t == s.(teams := s.teams[id := NewTeam(pc)]).Become(c, I.TeamSaved(pc.event, pc.user, id))
            else t == s.Become(c, I.Failed)
  {}

  lemma AddMemberEnds(s: I.State, c: Id, pc: I.Call)
    requires pc.Failed? || pc.TeamSaved?
    ensures var t := I.Step(s.Become(c, pc), I.TeamAddMember(c));
            if pc.TeamSaved? && MemberInsertable(s.members, s.teams, s.events, Seat(pc.user, pc.event), pc.team)
            then t == s.(members := s.members[Seat(pc.user, pc.event) := pc.team]).Become(c, I.Finished)
            else t == s.Become(c, I.Failed)
  {}

  /** With the team saved, the seat decides. */
  function AfterTeam(s: I.State, c: Id, id: Id, pc: I.Call): I.State {
    if pc.TeamReady? && TeamInsertable(s.teams, s.events, id, NewTeam(pc))
    then
      var s1 := s.(teams := s.teams[id := NewTeam(pc)]);
      var seat := Seat(pc.user, pc.event);
      if seat in s.members then s1.Become(c, I.Failed)
      else s1.(members := s.members[seat := id]).Become(c, I.Finished)
    else s.Become(c, I.Failed)
  }

  lemma SaveAndAddEnd(s: I.State, c: Id, id: Id, pc: I.Call)
    requires pc.Failed? || pc.TeamReady?
    ensures I.Step(I.Step(s.Become(c, pc), I.TeamSave(c, id)), I.TeamAddMember(c)) == AfterTeam(s, c, id, pc)
  {
    SaveTeamEnds(s, c, id, pc);
    if pc.TeamReady? && TeamInsertable(s.teams, s.events, id, NewTeam(pc)) {
      AddMemberEnds(s.(teams := s.teams[id := NewTeam(pc)]), c, I.TeamSaved(pc.event, pc.user, id));
    } else {
      AddMemberEnds(s, c, I.Failed);
    }
  }

  /** The call after its load, its three lookups and its three codes. */
  function TeamPrepared(s: I.State, row: Option<Id>, role: Option<Role>, cmd: L.CreateTeamCommand): I.Call
    requires |cmd.attempts| == 3 && (row.Some? ==> row.value in s.events)
  {
    if row.Some? && s.events[row.value].status == RegistrationOpen && !cmd.faults.role && role == Some(Participant)
       && (cmd.faults.seat || Seat(cmd.user, row.value) !in s.members)
       && (cmd.faults.name || !NameTaken(s.teams, row.value, cmd.name))
    then I.TeamReady(row.value, cmd.user, cmd.name, L.ChosenCode(s.teams, cmd.attempts)) else I.Failed
  }

  lemma TeamOutcome(s: I.State, t: I.State, c: Id, row: Option<Id>, role: Option<Role>, cmd: L.CreateTeamCommand)
    requires |cmd.attempts| == 3 && cmd.faults.member == NoFault && (row.Some? ==> row.value in s.events)
    requires t == AfterTeam(s, c, cmd.id, TeamPrepared(s, row, role, cmd))
    ensures Ends(t, c, L.CreateTeam(View(s), row, role, cmd))
  {
    SerialTeam(s, row, role, cmd);
    PreparedTeamOutcome(s, c, cmd.id, TeamPrepared(s, row, role, cmd));
  }

  lemma PreparedTeamOutcome(s: I.State, c: Id, id: Id, pc: I.Call)
    ensures var t := AfterTeam(s, c, id, pc);
            if pc.TeamReady? && TeamInsertable(s.teams, s.events, id, NewTeam(pc))
            then
              var w1 := View(s).(teams := s.teams[id := NewTeam(pc)]);
              var seat := Seat(pc.user, pc.event);
              if seat in s.members then View(t) == w1 && t.At(c) == I.Failed
              else View(t) == w1.(members := s.members[seat := id]) && t.At(c) == I.Finished
            else View(t) == View(s) && t.At(c) == I.Failed
  {}

  /** The serial use case in terms of the call prepared. */
  lemma SerialTeam(s: I.State, row: Option<Id>, role: Option<Role>, cmd: L.CreateTeamCommand)
    requires |cmd.attempts| == 3 && cmd.faults.member == NoFault && (row.Some? ==> row.value in s.events)
    ensures var pc := TeamPrepared(s, row, role, cmd);
            var r := L.CreateTeam(View(s), row, role, cmd);
            if pc.TeamReady? && TeamInsertable(s.teams, s.events, cmd.id, NewTeam(pc))
            then
              var w1 := View(s).(teams := s.teams[cmd.id := NewTeam(pc)]);
              var seat := Seat(pc.user, pc.event);
              if seat in s.members then r.0 == w1 && r.1.Some?
              else r == (w1.(members := s.members[seat := cmd.id]), None)
            else r.0 == View(s) && r.1.Some?
  {}

  function TeamLookups(c: Id, row: Option<Id>, slug: string, role: Option<Role>, cmd: L.CreateTeamCommand)
    : seq<I.Action>
  {
    var f := cmd.faults;
    [I.TeamLoad(c, row, slug, cmd.user, cmd.name),
     I.TeamCheck(c, role, f.role), I.TeamCheck(c, role, f.seat), I.TeamCheck(c, role, f.name)]
  }

  /** The repository calls of one team creation, in order. */
  function TeamActions(c: Id, row: Option<Id>, slug: string, role: Option<Role>, cmd: L.CreateTeamCommand)
    : seq<I.Action>
    requires |cmd.attempts| == 3
  {
    TeamLookups(c, row, slug, role, cmd)
    + [TryCode(c, cmd.attempts[0]), TryCode(c, cmd.attempts[1]), TryCode(c, cmd.attempts[2])]
    + [I.TeamSave(c, cmd.id)] + [I.TeamAddMember(c)]
  }

  function TeamOpened(s: I.State, row: Option<Id>, user: Id, name: string): I.Call
    requires row.Some? ==> row.value in s.events
  {
    if row.Some? && s.events[row.value].status == RegistrationOpen
    then I.Teaming(row.value, user, name, 0) else I.Failed
  }

  lemma TeamLoads(s: I.State, c: Id, row: Option<Id>, slug: string, user: Id, name: string, pc: I.Call)
    requires c !in s.calls && SlugAnswer(s.events, slug, row)
    requires pc == TeamOpened(s, row, user, name)
    ensures I.Step(s, I.TeamLoad(c, row, slug, user, name)) == s.Become(c, pc)
  {}

  lemma TeamLookupsRun(s: I.State, c: Id, row: Option<Id>, slug: string, role: Option<Role>, cmd: L.CreateTeamCommand,
          pc: I.Call)
    requires c !in s.calls && SlugAnswer(s.events, slug, row)
    requires row.Some? ==> RoleAnswer(s.roles, cmd.user, row.value, role)
    requires pc == TeamOpened(s, row, cmd.user, cmd.name)
    ensures I.Run(s, TeamLookups(c, row, slug, role, cmd)) == s.Become(c, TeamLookedUp(s, pc, role, cmd.faults))
  {
    var load, f := I.TeamLoad(c, row, slug, cmd.user, cmd.name), cmd.faults;
    var pc1 := TeamChecked(s, pc, role, f.role);
    var pc2 := TeamChecked(s, pc1, role, f.seat);
    TeamCheckMoves(s, c, pc, role, f.role);
    TeamCheckMoves(s, c, pc1, role, f.seat);
    TeamCheckMoves(s, c, pc2, role, f.name);
    TeamLoads(s, c, row, slug, cmd.user, cmd.name, pc);
    Loads(s, c, load, pc);
    ThreeMoves(s, [load], I.TeamCheck(c, role, f.role), I.TeamCheck(c, role, f.seat), I.TeamCheck(c, role, f.name),
               s.Become(c, pc), s.Become(c, pc1), s.Become(c, pc2), s.Become(c, TeamChecked(s, pc2, role, f.name)));
    assert TeamLookups(c, row, slug, role, cmd) ==
           [load] + [I.TeamCheck(c, role, f.role), I.TeamCheck(c, role, f.seat), I.TeamCheck(c, role, f.name)];
  }

  lemma TeamCodesRun(s: I.State, c: Id, own: seq<I.Action>, a: seq<L.Attempt>, pc: I.Call)
    requires |a| == 3 && (pc.Coding? || pc.Failed?) && I.Run(s, own) == s.Become(c, pc)
    ensures I.Run(s, own + [TryCode(c, a[0]), TryCode(c, a[1]), TryCode(c, a[2])])
         == s.Become(c, CodeTried(s, CodeTried(s, CodeTried(s, pc, a[0]), a[1]), a[2]))
  {
    var pc1 := CodeTried(s, pc, a[0]);
    var pc2 := CodeTried(s, pc1, a[1]);
    CodeMoves(s, c, pc, a[0]);
    CodeMoves(s, c, pc1, a[1]);
    CodeMoves(s, c, pc2, a[2]);
    ThreeMoves(s, own, TryCode(c, a[0]), TryCode(c, a[1]), TryCode(c, a[2]),
               s.Become(c, pc), s.Become(c, pc1), s.Become(c, pc2), s.Become(c, CodeTried(s, pc2, a[2])));
  }

  lemma TeamRuns(s: I.State, c: Id, row: Option<Id>, slug: string, role: Option<Role>, cmd: L.CreateTeamCommand)
    requires c !in s.calls && SlugAnswer(s.events, slug, row) && |cmd.attempts| == 3
    requires row.Some? ==> RoleAnswer(s.roles, cmd.user, row.value, role)
    ensures I.Run(s, TeamActions(c, row, slug, role, cmd))
         == I.Step(I.Step(s.Become(c, TeamPrepared(s, row, role, cmd)), I.TeamSave(c, cmd.id)), I.TeamAddMember(c))
  {
    var pc := TeamOpened(s, row, cmd.user, cmd.name);
    TeamLookupsRun(s, c, row, slug, role, cmd, pc);
    if pc.Teaming? {
      CodesEnd(s, row.value, cmd.user, cmd.name, cmd.attempts);
    }
    var lookups, a := TeamLookups(c, row, slug, role, cmd), cmd.attempts;
    var codes := [TryCode(c, a[0]), TryCode(c, a[1]), TryCode(c, a[2])];
    TeamCodesRun(s, c, lookups, a, TeamLookedUp(s, pc, role, cmd.faults));
    var s1 := I.Step(s.Become(c, TeamPrepared(s, row, role, cmd)), I.TeamSave(c, cmd.id));
    Next(s, lookups + codes, I.TeamSave(c, cmd.id), s1);
    Next(s, lookups + codes + [I.TeamSave(c, cmd.id)], I.TeamAddMember(c), I.Step(s1, I.TeamAddMember(c)));
  }

  /** Whatever lookups fail; the inserts do not. */
  lemma CreateTeamAlone(s: I.State, c: Id, row: Option<Id>, slug: string, role: Option<Role>, cmd: L.CreateTeamCommand)
    requires c !in s.calls && SlugAnswer(s.events, slug, row) && |cmd.attempts| == 3 && cmd.faults.member == NoFault
    requires row.Some? ==> RoleAnswer(s.roles, cmd.user, row.value, role)
    ensures Ends(I.Run(s, TeamActions(c, row, slug, role, cmd)), c, L.CreateTeam(View(s), row, role, cmd))
  {
    TeamRuns(s, c, row, slug, role, cmd);
    SaveAndAddEnd(s, c, cmd.id, TeamPrepared(s, row, role, cmd));
    TeamOutcome(s, I.Run(s, TeamActions(c, row, slug, role, cmd)), c, row, role, cmd);
  }

  // --------------------------------------------------------------- submissions

  function DraftReads(c: Id, fails: bool): seq<I.Action> {
    [I.DraftFindTeam(c), I.DraftFindExisting(c, fails), I.DraftFindTracks(c)]
  }

  /** The repository calls of one new draft, in order. */
  function DraftActions(c: Id, row: Option<Id>, slug: string, user: Id, texts: Submission, id: Id, fails: bool)
    : seq<I.Action>
  {
    [I.DraftLoad(c, row, slug, user, texts.track)] + DraftReads(c, fails) + [I.DraftSave(c, id, texts)]
  }

  /** The call after its load and its three lookups. */
  function DraftPrepared(s: I.State, row: Option<Id>, user: Id, track: Option<Id>, fails: bool): I.Call
    requires row.Some? ==> row.value in s.events
  {
    if row.Some? && s.events[row.value].status == SubmissionsOpen && Seat(user, row.value) in s.members
       && (fails || !HasSubmission(s.subs, s.members[Seat(user, row.value)], row.value))
       && (track.Some? ==> track.value in s.tracks && s.tracks[track.value] == row.value)
    then I.DraftReady(row.value, s.members[Seat(user, row.value)], track) else I.Failed
  }

  function TeamFound(s: I.State, pc: I.Call): I.Call { if pc.Drafting? then I.TeamFound(s, pc) else pc }

  function ExistingFound(s: I.State, pc: I.Call, fails: bool): I.Call {
    if pc.DraftTeam? then I.ExistingFound(s, pc, fails) else pc
  }

  function TracksFound(s: I.State, pc: I.Call): I.Call { if pc.DraftUnique? then I.TracksFound(s, pc) else pc }

  lemma FindTeamMoves(s: I.State, c: Id, pc: I.Call)
    requires pc.Drafting? || pc.Failed?
    ensures I.Step(s.Become(c, pc), I.DraftFindTeam(c)) == s.Become(c, TeamFound(s, pc))
  {}

  lemma FindExistingMoves(s: I.State, c: Id, pc: I.Call, fails: bool)
    requires pc.DraftTeam? || pc.Failed?
    ensures I.Step(s.Become(c, pc), I.DraftFindExisting(c, fails)) == s.Become(c, ExistingFound(s, pc, fails))
  {}

  lemma FindTracksMoves(s: I.State, c: Id, pc: I.Call)
    requires pc.DraftUnique? || pc.Failed?
    ensures I.Step(s.Become(c, pc), I.DraftFindTracks(c)) == s.Become(c, TracksFound(s, pc))
  {}

  function DraftOpen(s: I.State, row: Option<Id>, user: Id, track: Option<Id>): I.Call
    requires row.Some? ==> row.value in s.events
  {
    if row.Some? && s.events[row.value].status == SubmissionsOpen then I.Drafting(row.value, user, track) else I.Failed
  }

  lemma LookupsRun(s: I.State, c: Id, own: seq<I.Action>, pc: I.Call, fails: bool)
    requires (pc.Drafting? || pc.Failed?) && I.Run(s, own) == s.Become(c, pc)
    ensures I.Run(s, own + DraftReads(c, fails))
         == s.Become(c, TracksFound(s, ExistingFound(s, TeamFound(s, pc), fails)))
  {
    var pc1 := TeamFound(s, pc);
    var pc2 := ExistingFound(s, pc1, fails);
    FindTeamMoves(s, c, pc);
    FindExistingMoves(s, c, pc1, fails);
    FindTracksMoves(s, c, pc2);
    ThreeMoves(s, own, I.DraftFindTeam(c), I.DraftFindExisting(c, fails), I.DraftFindTracks(c),
               s.Become(c, pc), s.Become(c, pc1), s.Become(c, pc2), s.Become(c, TracksFound(s, pc2)));
  }

  lemma DraftRuns(s: I.State, c: Id, row: Option<Id>, slug: string, user: Id, texts: Submission, id: Id, fails: bool)
    requires c !in s.calls && SlugAnswer(s.events, slug, row)
    ensures I.Run(s, DraftActions(c, row, slug, user, texts, id, fails))
         == I.Step(s.Become(c, DraftPrepared(s, row, user, texts.track, fails)), I.DraftSave(c, id, texts))
  {
    var pc := DraftOpen(s, row, user, texts.track);
    var load, save := I.DraftLoad(c, row, slug, user, texts.track), I.DraftSave(c, id, texts);
    Loads(s, c, load, pc);
    LookupsRun(s, c, [load], pc, fails);
    var ready := s.Become(c, DraftPrepared(s, row, user, texts.track, fails));
    Next(s, [load] + DraftReads(c, fails), save, I.Step(ready, save));
  }

  function AfterSave(s: I.State, c: Id, id: Id, texts: Submission, pc: I.Call): I.State {
    if pc.DraftReady? && texts.title != ""
       && SubmissionInsertable(s.subs, s.teams, s.events, s.tracks, id, Row(pc, texts))
    then s.(subs := s.subs[id := Row(pc, texts)]).Become(c, I.Finished)
    else s.Become(c, I.Failed)
  }

  lemma SaveDraftEnds(s: I.State, c: Id, id: Id, texts: Submission, pc: I.Call)
    requires pc.Failed? || pc.DraftReady?
    ensures I.Step(s.Become(c, pc), I.DraftSave(c, id, texts)) == AfterSave(s, c, id, texts, pc)
  {
    Moved(s, c, pc, I.Failed);
  }

  lemma DraftOutcome(s: I.State, c: Id, row: Option<Id>, user: Id, texts: Submission, id: Id, fails: bool)
    requires row.Some? ==> row.value in s.events
    ensures Matches(s, AfterSave(s, c, id, texts, DraftPrepared(s, row, user, texts.track, fails)), c,
                    L.CreateSubmission(View(s), row, user, Fields(texts), id, fails))
  {}

  function Row(pc: I.Call, texts: Submission): Submission
    requires pc.DraftReady?
  {
    L.NewRow(pc.team, pc.event, Fields(texts.(track := pc.track)))
  }

  function Fields(texts: Submission): L.Fields {
    L.Fields(texts.title, texts.description, texts.repoUrl, texts.demoUrl, texts.videoUrl, texts.track)
  }

  lemma CreateSubmissionAlone(s: I.State, c: Id, row: Option<Id>, slug: string, user: Id, texts: Submission, id: Id,
          fails: bool)
    requires c !in s.calls && SlugAnswer(s.events, slug, row)
    ensures Matches(s, I.Run(s, DraftActions(c, row, slug, user, texts, id, fails)), c,
                    L.CreateSubmission(View(s), row, user, Fields(texts), id, fails))
  {
    DraftRuns(s, c, row, slug, user, texts, id, fails);
    SaveDraftEnds(s, c, id, texts, DraftPrepared(s, row, user, texts.track, fails));
    DraftOutcome(s, c, row, user, texts, id, fails);
  }
}
