/** Who is left without a seat: the team and its first member are two inserts
    (internal/teams/usecase/create_team.go), and any requests may come between them. */
module TeamCreators {
  import opened Wrappers
  import opened PlatformModel
  import opened Interleaving
  import TeamSafety

  /** The team's creator has a seat in it. */
  ghost predicate Led(s: State, t: Id) {
    && t in s.teams && Seat(s.teams[t].createdBy, s.teams[t].event) in s.members
    && s.members[Seat(s.teams[t].createdBy, s.teams[t].event)] == t
  }

  /** Call `c` has saved the team and has yet to add its creator. */
  predicate Saved(s: State, c: Id, t: Id) { s.At(c).TeamSaved? && s.At(c).team == t }

  ghost predicate Pending(s: State, t: Id) { exists c :: Saved(s, c, t) }

  /** The step ends the call that saved the team, with an error. */
  predicate Loses(s: State, a: Action, t: Id) { Saved(s, a.call, t) && Step(s, a).At(a.call) == Failed }

  ghost predicate Lost(s: State, actions: seq<Action>, t: Id) {
    && actions != []
    && (Lost(s, actions[..|actions| - 1], t) || Loses(Run(s, actions[..|actions| - 1]), actions[|actions| - 1], t))
  }

  // -------------------------------------------------------- what a step may do

  /** Teams and seats stay as they are, and so do the calls between the two inserts. */
  ghost predicate Apart(s: State, v: State) {
    && v.teams == s.teams && v.members == s.members
    && forall c :: v.At(c).TeamSaved? || s.At(c).TeamSaved? ==> v.At(c) == s.At(c)
  }

  predicate Creates(a: Action) { a.TeamSave? || a.TeamAddMember? || a.Abort? }

  lemma OtherStepsApart(s: State, a: Action)
    requires !Creates(a)
    ensures Apart(s, Step(s, a))
  {
    StepFrame(s, a);
    FrameIsApart(s, a, Step(s, a));
  }

  lemma FrameIsApart(s: State, a: Action, v: State)
    requires Frame(s, a, v) && !Creates(a)
    ensures Apart(s, v)
  {}

  // ------------------------------------------------------------- one team's story

  function One(holds: bool): nat { if holds then 1 else 0 }

  /** A saved team is led, or between its two inserts, or `lost`, and only one of these;
      before it is saved it is none of them. */
  ghost predicate Told(s: State, t: Id, lost: bool) {
    && (forall c, d :: Saved(s, c, t) && Saved(s, d, t) ==> c == d)
    && One(Led(s, t)) + One(Pending(s, t)) + One(lost) == One(t in s.teams)
  }

  lemma ApartTells(s: State, v: State, t: Id, lost: bool)
    requires Told(s, t, lost) && Apart(s, v)
    ensures Told(v, t, lost) && forall c :: Saved(v, c, t) <==> Saved(s, c, t)
  {
    forall c ensures Saved(v, c, t) <==> Saved(s, c, t) {}
  }

  lemma SaveTells(s: State, c: Id, id: Id, t: Id, lost: bool)
    requires Told(s, t, lost) && s.At(c).TeamReady? && (forall seat :: TeamSafety.MemberOk(s, seat))
    ensures Told(SaveTeam(s, c, id), t, lost)
  {
    var v := SaveTeam(s, c, id);
    forall d | d != c ensures Saved(v, d, t) <==> Saved(s, d, t) {}
    if id == t && v.At(c).TeamSaved? {
      assert Saved(v, c, t);
      assert TeamSafety.MemberOk(s, Seat(v.teams[t].createdBy, v.teams[t].event));
    }
  }

  lemma EndTells(s: State, a: Action, t: Id, lost: bool)
    requires Told(s, t, lost) && TeamSafety.LocalsOk(s, s.At(a.call)) && (a.TeamAddMember? || a.Abort?)
    ensures Told(Step(s, a), t, lost || Loses(s, a, t))
  {
    var v, c := Step(s, a), a.call;
    if v != s {
      forall d | d != c ensures Saved(v, d, t) <==> Saved(s, d, t) {}
      assert !Saved(v, c, t);
      if s.At(c).TeamSaved? && s.At(c).team == t {
        assert Saved(s, c, t);
      }
    }
  }

  lemma StepTells(s: State, a: Action, t: Id, lost: bool)
    requires Told(s, t, lost) && TeamSafety.EventIdsAgree(s)
    ensures Told(Step(s, a), t, lost || Loses(s, a, t))
  {
    assert TeamSafety.LocalsOk(s, s.At(a.call));
    if a.TeamSave? && s.At(a.call).TeamReady? {
      SaveTells(s, a.call, a.id, t, lost);
    } else if a.TeamAddMember? || a.Abort? {
      EndTells(s, a, t, lost);
    } else if !Creates(a) {
      OtherStepsApart(s, a);
      ApartTells(s, Step(s, a), t, lost);
    }
  }

  lemma {:induction false} RunTells(s: State, actions: seq<Action>, t: Id)
    requires Initial(s)
    ensures Told(Run(s, actions), t, Lost(s, actions, t))
  {
    if actions != [] {
      RunTells(s, actions[..|actions| - 1], t);
      TeamSafety.RunKeepsEventIds(s, actions[..|actions| - 1]);
      StepTells(Run(s, actions[..|actions| - 1]), actions[|actions| - 1], t, Lost(s, actions[..|actions| - 1], t));
    }
  }

  /** In every reachable state a team lacks its creator if and only if the call that saved
      it has yet to add the member, or has failed there. */
  lemma {:induction false} UnledIff(s: State, actions: seq<Action>, t: Id)
    requires Initial(s) && t in Run(s, actions).teams
    ensures !Led(Run(s, actions), t) <==> Pending(Run(s, actions), t) || Lost(s, actions, t)
  {
    RunTells(s, actions, t);
  }

  lemma StepSettles(s: State, a: Action, t: Id)
    requires TeamSafety.EventIdsAgree(s) && t in s.teams && !Pending(s, t)
    ensures t in Step(s, a).teams && !Pending(Step(s, a), t) && (Led(Step(s, a), t) <==> Led(s, t))
  {
    assert !Saved(s, a.call, t);
    if Creates(a) {
      CreationSettles(s, a, t);
    } else {
      OtherStepsApart(s, a);
    }
    forall d ensures !Saved(Step(s, a), d, t) {
      assert !Saved(s, d, t);
    }
  }

  lemma CreationSettles(s: State, a: Action, t: Id)
    requires TeamSafety.EventIdsAgree(s) && t in s.teams && Creates(a) && !Saved(s, a.call, t)
    ensures var v := Step(s, a); t in v.teams && v.teams[t] == s.teams[t] && (Led(v, t) <==> Led(s, t))
    ensures forall d :: Saved(Step(s, a), d, t) ==> Saved(s, d, t)
  {}

  /** The fate of a team is decided once: no later request gives a lost team its creator,
      or takes the creator from a led one. */
  lemma {:induction false} FateIsFinal(s: State, actions: seq<Action>, t: Id)
    requires TeamSafety.EventIdsAgree(s) && t in s.teams && !Pending(s, t)
    ensures var v := Run(s, actions); t in v.teams && !Pending(v, t) && (Led(v, t) <==> Led(s, t))
  {
    if actions != [] {
      var front := actions[..|actions| - 1];
      FateIsFinal(s, front, t);
      TeamSafety.RunKeepsEventIds(s, front);
      StepSettles(Run(s, front), actions[|actions| - 1], t);
    }
  }

  /** Two overlapping creations of one user always leave one of their teams so: the seat is
      unique, and the second insert of a member fails. */
  lemma RacingCreationsLoseOne(s: State, c: Id, d: Id, e: Id, u: Id, t: Id, k: Id)
    requires c != d && s.At(c) == TeamSaved(e, u, t) && s.At(d) == TeamSaved(e, u, k)
    requires TeamSafety.EventIdsAgree(s) && e in s.events && Seat(u, e) !in s.members
    ensures var v := Step(Step(s, TeamAddMember(c)), TeamAddMember(d));
            v.At(c) == Finished && v.At(d) == Failed && Led(v, t) && (t != k ==> !Led(v, k))
  {
    assert TeamSafety.LocalsOk(s, s.At(c)) && TeamSafety.LocalsOk(s, s.At(d));
  }
}
