/** Event roles: what every interleaving of the platform's use cases keeps. */
module RoleSafety {
  import opened Wrappers
  import opened PlatformModel
  import opened Interleaving

  ghost predicate Has(s: State, e: Id, u: Id, r: Role) { Grant(e, u, r) in s.roles }

  ghost predicate Owns(s: State, e: Id, u: Id) { e in s.events && s.events[e].organizer == u }

  /** The event's creator holds its organizer row. */
  ghost predicate Seated(s: State, e: Id) { e in s.events && Has(s, e, s.events[e].organizer, Organizer) }

  /** What a call's local variables are known to be. */
  ghost predicate LocalsOk(s: State, pc: Call) {
    match pc
    case SlugFree(draft) => draft.status == Draft
    case EventSaved(e, u) => Owns(s, e, u)
    case EventLoaded(e, copy, _, _) => e in s.events && (copy.status != Draft ==> Seated(s, e))
    case EventEdited(e, copy) => Seated(s, e)
    case Registering(e, u, n) =>
      Seated(s, e) && (n > 0 ==> !Has(s, e, u, Judge)) && (n > 1 ==> !Owns(s, e, u))
    case _ => true
  }

  ghost predicate RolesInv(s: State) {
    && (forall e :: e in s.events && s.events[e].status != Draft ==> Seated(s, e))
    && (forall e, u :: Has(s, e, u, Organizer) ==> Owns(s, e, u))
    && (forall e, u :: Has(s, e, u, Judge) ==> e in s.events && !Owns(s, e, u))
    && (forall e, u :: Has(s, e, u, Participant) ==> e in s.events && !Owns(s, e, u) && !Has(s, e, u, Judge))
    && (forall c :: LocalsOk(s, s.At(c)))
  }

  /** Events keep their creator, organizer and judge rows stay, and no judge row appears. */
  ghost predicate Grows(s: State, t: State) {
    && (forall e :: e in s.events ==> e in t.events && t.events[e].organizer == s.events[e].organizer)
    && (forall e, u :: Has(s, e, u, Organizer) ==> Has(t, e, u, Organizer))
    && (forall e, u :: Has(s, e, u, Judge) <==> Has(t, e, u, Judge))
  }

  lemma SeatedStays(s: State, t: State, e: Id)
    requires Grows(s, t) && Seated(s, e)
    ensures Seated(t, e)
  {}

  lemma LocalsStayOk(s: State, t: State, pc: Call)
    requires Grows(s, t) && LocalsOk(s, pc)
    ensures LocalsOk(t, pc)
  {}

  /** One step's own change. */
  ghost predicate Progress(s: State, t: State, c: Id) {
    && Grows(s, t)
    && (t.calls == s.calls || (c in t.calls && t.calls == s.calls[c := t.calls[c]]))
    && (forall e :: e in t.events && t.events[e].status != Draft ==>
          (e in s.events && s.events[e].status != Draft) || Seated(s, e))
    && (forall e, u :: Has(t, e, u, Organizer) ==> Has(s, e, u, Organizer) || Owns(s, e, u))
    && (forall e, u :: Has(t, e, u, Participant) ==>
          Has(s, e, u, Participant) || (e in s.events && !Owns(s, e, u) && !Has(s, e, u, Judge)))
    && LocalsOk(t, t.At(c))
  }

  lemma ProgressKeeps(s: State, t: State, c: Id)
    requires RolesInv(s) && Progress(s, t, c)
    ensures RolesInv(t)
  {
    forall e | e in t.events && t.events[e].status != Draft ensures Seated(t, e) {
      SeatedStays(s, t, e);
    }
    forall e, u | Has(t, e, u, Judge) ensures e in t.events && !Owns(t, e, u) {
      assert Has(s, e, u, Judge);
    }
    forall e, u | Has(t, e, u, Participant) ensures e in t.events && !Owns(t, e, u) && !Has(t, e, u, Judge) {
      assert Has(s, e, u, Judge) <==> Has(t, e, u, Judge);
    }
    forall d ensures LocalsOk(t, t.At(d)) {
      if d != c {
        LocalsStayOk(s, t, s.At(d));
      }
    }
  }

  // --------------------------------------------------------------- the steps

  lemma MoveProgress(s: State, c: Id, pc: Call)
    requires LocalsOk(s, pc)
    ensures Progress(s, s.Become(c, pc), c)
  {}

  lemma EventProgress(s: State, events: Events, c: Id, pc: Call)
    requires forall e :: e in s.events ==> e in events && events[e].organizer == s.events[e].organizer
    requires forall e :: e in events && events[e].status != Draft ==>
             e in s.events && (s.events[e].status != Draft || Seated(s, e))
    requires pc.Finished? || (pc.EventSaved? && pc.event in events && events[pc.event].organizer == pc.user)
    ensures Progress(s, s.(events := events).Become(c, pc), c)
  {}

  lemma SaveEventProgress(s: State, c: Id, id: Id)
    requires s.At(c).SlugFree? && LocalsOk(s, s.At(c))
    ensures Progress(s, SaveEvent(s, c, id), c)
  {
    var draft := s.At(c).draft;
    if EventInsertable(s.events, id, draft) {
      EventProgress(s, s.events[id := draft], c, EventSaved(id, draft.organizer));
    } else {
      MoveProgress(s, c, Failed);
    }
  }

  lemma WriteEventProgress(s: State, c: Id)
    requires s.At(c).EventEdited? && LocalsOk(s, s.At(c))
    ensures Progress(s, WriteEvent(s, c), c)
  {
    var EventEdited(id, copy) := s.At(c);
    if SizeOk(copy) {
      EventProgress(s, EventUpdated(s.events, id, copy), c, Finished);
    } else {
      MoveProgress(s, c, Failed);
    }
  }

  lemma GrantOrganizerProgress(s: State, c: Id)
    requires s.At(c).EventSaved? && LocalsOk(s, s.At(c))
    ensures Progress(s, GrantOrganizer(s, c), c)
  {}

  lemma GrantParticipantProgress(s: State, c: Id)
    requires s.At(c).Registering? && s.At(c).checked == 3 && LocalsOk(s, s.At(c))
    ensures Progress(s, GrantParticipant(s, c), c)
  {}

  lemma RevokeProgress(s: State, c: Id)
    requires s.At(c).Unregistering?
    ensures Progress(s, RevokeParticipant(s, c), c)
  {}

  /** Authorization is what ties a status change to the organizer row. */
  lemma AuthorizedOk(s: State, pc: Call, role: Option<Role>)
    requires pc.EventLoaded? && LocalsOk(s, pc) && RoleAnswer(s.roles, pc.user, pc.event, role)
    requires forall u :: Has(s, pc.event, u, Organizer) ==> Owns(s, pc.event, u)
    ensures LocalsOk(s, Authorized(pc, role))
  {
    if role == Some(Organizer) {
      assert Has(s, pc.event, pc.user, Organizer);
    }
  }

  /** The three lookups find a user free of every other role. */
  lemma RoleCheckedOk(s: State, pc: Call)
    requires pc.Registering? && pc.checked < 3 && LocalsOk(s, pc)
    ensures LocalsOk(s, RoleChecked(s, pc))
  {}

  lemma EventStep(s: State, a: Action)
    requires LocalsOk(s, s.At(a.call))
    requires OnEvents(a)
    requires forall e :: e in s.events && s.events[e].status != Draft ==> Seated(s, e)
    requires forall e, u :: Has(s, e, u, Organizer) ==> Owns(s, e, u)
    ensures Progress(s, Step(s, a), a.call)
  {
    var c := a.call;
    if Step(s, a) != s {
      match a
      case CreateCheck(_, draft) => MoveProgress(s, c, SlugChecked(s, draft));
      case CreateSave(_, id) => SaveEventProgress(s, c, id);
      case CreateGrant(_) => GrantOrganizerProgress(s, c);
      case UpdateLoad(_, row, _, user, edit) =>
        MoveProgress(s, c, if row.Some? then EventLoaded(row.value, s.events[row.value], user, edit) else Failed);
      case UpdateAuthorize(_, role) =>
        AuthorizedOk(s, s.At(c), role);
        MoveProgress(s, c, Authorized(s.At(c), role));
      case UpdateWrite(_) => WriteEventProgress(s, c);
    }
  }

  lemma RegistrationStep(s: State, a: Action)
    requires LocalsOk(s, s.At(a.call))
    requires OnRoles(a)
    requires forall e :: e in s.events && s.events[e].status != Draft ==> Seated(s, e)
    ensures Progress(s, Step(s, a), a.call)
  {
    var c := a.call;
    if Step(s, a) != s {
      match a
      case RegisterLoad(_, row, _, user, now) =>
        var open := row.Some? && CanRegister(s.events[row.value], now);
        MoveProgress(s, c, if open then Registering(row.value, user, 0) else Failed);
      case RegisterCheck(_) =>
        RoleCheckedOk(s, s.At(c));
        MoveProgress(s, c, RoleChecked(s, s.At(c)));
      case RegisterGrant(_) => GrantParticipantProgress(s, c);
      case UnregisterLoad(_, row, _, user) =>
        MoveProgress(s, c, if row.Some? then Unregistering(row.value, user, 0) else Failed);
      case UnregisterCheck(_) => MoveProgress(s, c, UnregisterChecked(s, s.At(c)));
      case UnregisterRevoke(_) => RevokeProgress(s, c);
    }
  }

  lemma OtherStep(s: State, a: Action)
    requires !OnEvents(a) && !OnRoles(a) && LocalsOk(s, s.At(a.call))
    ensures Progress(s, Step(s, a), a.call)
  {
    StepFrame(s, a);
  }

  lemma StepKeepsRoles(s: State, a: Action)
    requires RolesInv(s)
    ensures RolesInv(Step(s, a))
    ensures Grows(s, Step(s, a))
  {
    assert LocalsOk(s, s.At(a.call));
    if OnEvents(a) {
      EventStep(s, a);
    } else if OnRoles(a) {
      RegistrationStep(s, a);
    } else {
      OtherStep(s, a);
    }
    ProgressKeeps(s, Step(s, a), a.call);
  }

  lemma InitialRoles(s: State)
    requires Initial(s)
    ensures RolesInv(s)
  {}

  lemma {:induction false} RunKeepsRoles(s: State, actions: seq<Action>)
    requires RolesInv(s)
    ensures RolesInv(Run(s, actions))
  {
    if actions != [] {
      RunKeepsRoles(s, actions[..|actions| - 1]);
      StepKeepsRoles(Run(s, actions[..|actions| - 1]), actions[|actions| - 1]);
    }
  }

  // ----------------------------------------------------------- main theorems

  /** In every reachable state: an event that left draft has its creator's
      organizer row, only the creator is an organizer, and no user holds two roles
      in one event. */
  lemma RolesAreExclusive(s: State, actions: seq<Action>, e: Id, u: Id)
    requires Initial(s)
    ensures var t := Run(s, actions);
            e in t.events && t.events[e].status != Draft ==> Has(t, e, t.events[e].organizer, Organizer)
    ensures var t := Run(s, actions); Has(t, e, u, Organizer) ==> Owns(t, e, u)
    ensures var t := Run(s, actions);
            forall q, r: Role :: Has(t, e, u, q) && Has(t, e, u, r) ==> q == r
  {
    InitialRoles(s);
    RunKeepsRoles(s, actions);
  }

  /** So the single-row lookups, which name no order, have one possible answer. */
  lemma RoleLookupIsDetermined(s: State, actions: seq<Action>, e: Id, u: Id, x: Option<Role>, y: Option<Role>)
    requires Initial(s)
    requires RoleAnswer(Run(s, actions).roles, u, e, x) && RoleAnswer(Run(s, actions).roles, u, e, y)
    ensures x == y
  {
    RolesAreExclusive(s, actions, e, u);
    var t := Run(s, actions);
    if x.Some? {
      assert Has(t, e, u, x.value);
    }
    if y.Some? {
      assert Has(t, e, u, y.value);
    }
  }
}
