/** Objects, upload rows and cover URLs stay in agreement, and exactly which storage
    and database failures of an upload break it. */
module UploadSafety {
  import opened Failures
  import opened Wrappers
  import opened PlatformModel
  import opened Lifecycle
  import LifecycleSafety

  type Uploads = map<Id, Upload>

  /** Every row has its object, named after the row. */
  ghost predicate RowsStored(uploads: Uploads, objects: set<Object>) {
    forall u :: u in uploads ==> RowStored(uploads, objects, u)
  }

  predicate RowStored(uploads: Uploads, objects: set<Object>, u: Id)
    requires u in uploads
  {
    uploads[u].stored in objects && uploads[u].stored.upload == u
  }

  /** Every object has its row. */
  ghost predicate ObjectsRecorded(uploads: Uploads, objects: set<Object>) {
    forall o :: o in objects ==> Recorded(uploads, o)
  }

  predicate Recorded(uploads: Uploads, o: Object) { o.upload in uploads && uploads[o.upload].stored == o }

  ghost predicate OneCover(uploads: Uploads) {
    forall u, v :: u in uploads && v in uploads && SameCover(uploads[u], uploads[v]) ==> u == v
  }

  predicate SameCover(a: Upload, b: Upload) { a.kind == Cover && b.kind == Cover && a.submission == b.submission }

  /** The cover URL is set exactly when the submission has a cover row, and equals it. */
  ghost predicate CoverAgrees(uploads: Uploads, s: Id, coverUrl: Option<Object>) {
    match coverUrl
    case Some(o) => Recorded(uploads, o) && IsCoverOf(uploads[o.upload], s)
    case None => forall u :: u in uploads ==> !IsCoverOf(uploads[u], s)
  }

  ghost predicate CoversAgree(uploads: Uploads, subs: Submissions) {
    forall s :: s in subs ==> CoverAgrees(uploads, s, subs[s].coverUrl)
  }

  ghost predicate RowsHaveSubmissions(uploads: Uploads, subs: Submissions) {
    forall u :: u in uploads ==> uploads[u].submission in subs
  }

  ghost predicate Agrees(w: World) {
    && RowsStored(w.uploads, w.objects) && ObjectsRecorded(w.uploads, w.objects) && OneCover(w.uploads)
    && CoversAgree(w.uploads, w.subs) && RowsHaveSubmissions(w.uploads, w.subs)
  }

  /** Rows and objects then correspond one to one: a row names its object, and an object
      names the only row that has it. */
  lemma RowsAndObjectsCorrespond(w: World, u: Id, v: Id)
    requires Agrees(w) && u in w.uploads && v in w.uploads && w.uploads[u].stored == w.uploads[v].stored
    ensures u == v
    ensures (set k | k in w.uploads :: w.uploads[k].stored) == w.objects
  {}

  predicate Refused(w: World, cmd: UploadCommand) {
    Refusal(w, cmd.user, cmd.sub, cmd.now).Some? || FileRefusal(cmd).Some?
  }

  /** The failures an upload survives. If the object is not stored, the old cover must still
      be there. If it is, that must be known, its row must be stored, and for a cover that
      must be known too, the URL written, and an old cover deleted whole. A lost reply to
      the last write or to a deletion does no harm. */
  predicate Harmless(cmd: UploadCommand, cover: Option<Id>, f: Faults) {
    if !f.put.Done() then Replaces(cmd, cover) ==> !f.deleteObject.Done() && !f.deleteRow.Done()
    else
      && !f.put.Failed() && f.saveRow.Done()
      && (cmd.kind == Cover ==> !f.saveRow.Failed() && f.writeCover.Done())
      && (Replaces(cmd, cover) ==> f.deleteObject.Done() && f.deleteRow.Done())
  }

  // ------------------------------------------------------- what a good upload does

  lemma PlainRowKeepsCovers(uploads: Uploads, subs: Submissions, u: Id, row: Upload)
    requires CoversAgree(uploads, subs) && OneCover(uploads) && u !in uploads && row.kind != Cover
    ensures CoversAgree(uploads[u := row], subs) && OneCover(uploads[u := row])
  {
    forall s | s in subs ensures CoverAgrees(uploads[u := row], s, subs[s].coverUrl) {
      assert CoverAgrees(uploads, s, subs[s].coverUrl);
    }
  }

  function NewRow(cmd: UploadCommand): Upload { Upload(cmd.sub, cmd.user, NewObject(cmd), cmd.kind) }

  /** What storing a file comes to, failure by failure. */
  lemma StoreEffect(w: World, cmd: UploadCommand, f: Faults)
    requires cmd.upload !in w.uploads && cmd.sub in w.subs && f.put.Done()
    ensures var v := StoreUpload(w, cmd, f).0;
            var recorded := !f.put.Failed() && f.saveRow.Done();
            && v.objects == w.objects + {NewObject(cmd)}
            && v.uploads == (if recorded then w.uploads[cmd.upload := NewRow(cmd)] else w.uploads)
            && v.subs == if recorded && !f.saveRow.Failed() && cmd.kind == Cover && f.writeCover.Done()
                         then w.subs[cmd.sub := w.subs[cmd.sub].(coverUrl := Some(NewObject(cmd)))] else w.subs
  {}

  lemma AddRow(w: World, cmd: UploadCommand)
    requires Agrees(w) && cmd.upload !in w.uploads && cmd.sub in w.subs && cmd.kind != Cover
    ensures Agrees(StoreUpload(w, cmd, NO_FAULTS).0)
  {
    StoreEffect(w, cmd, NO_FAULTS);
    PlainRowKeepsCovers(w.uploads, w.subs, cmd.upload, NewRow(cmd));
  }

  /** A world whose only disagreement is the cover of `s`, which has no row. */
  ghost predicate Uncovered(w: World, s: Id) {
    && RowsStored(w.uploads, w.objects) && ObjectsRecorded(w.uploads, w.objects) && OneCover(w.uploads)
    && RowsHaveSubmissions(w.uploads, w.subs) && (forall u :: u in w.uploads ==> !IsCoverOf(w.uploads[u], s))
    && forall k :: k in w.subs && k != s ==> CoverAgrees(w.uploads, k, w.subs[k].coverUrl)
  }

  lemma RemoveOldCover(w: World, cmd: UploadCommand, cover: Option<Id>, f: Faults)
    requires Agrees(w) && CoverAnswer(w.uploads, cmd.sub, cover) && cmd.kind == Cover
    requires cover.Some? ==> f.deleteObject.Done() && f.deleteRow.Done()
    ensures Uncovered(WithoutOldCover(w, cmd, cover, f), cmd.sub)
  {
    if cover.Some? {
      var u := cover.value;
      var v := WithoutOldCover(w, cmd, cover, f);
      assert RowStored(w.uploads, w.objects, u);
      forall k | k in v.uploads ensures RowStored(v.uploads, v.objects, k) {
        assert RowStored(w.uploads, w.objects, k);
      }
      forall o | o in v.objects ensures Recorded(v.uploads, o) {
        assert Recorded(w.uploads, o);
      }
      forall k | k in v.uploads ensures !IsCoverOf(v.uploads[k], cmd.sub) {
        assert SameCover(w.uploads[u], w.uploads[k]) ==> u == k;
      }
      forall s | s in v.subs && s != cmd.sub ensures CoverAgrees(v.uploads, s, v.subs[s].coverUrl) {
        assert CoverAgrees(w.uploads, s, w.subs[s].coverUrl);
      }
    }
  }

  lemma AddCover(w: World, cmd: UploadCommand)
    requires Uncovered(w, cmd.sub) && cmd.upload !in w.uploads && cmd.sub in w.subs && cmd.kind == Cover
    ensures Agrees(StoreUpload(w, cmd, NO_FAULTS).0)
  {
    StoreEffect(w, cmd, NO_FAULTS);
    NewCoverAgrees(w, StoreUpload(w, cmd, NO_FAULTS).0, cmd.sub, NewRow(cmd));
  }

  lemma NewCoverAgrees(w: World, v: World, s: Id, row: Upload)
    requires Uncovered(w, s) && s in w.subs && row.submission == s && row.kind == Cover
    requires row.stored.upload !in w.uploads && v.objects == w.objects + {row.stored}
    requires v.uploads == w.uploads[row.stored.upload := row]
    requires v.subs == w.subs[s := w.subs[s].(coverUrl := Some(row.stored))]
    ensures Agrees(v)
  {
    forall k | k in v.subs ensures CoverAgrees(v.uploads, k, v.subs[k].coverUrl) {
      if k != s {
        assert CoverAgrees(w.uploads, k, w.subs[k].coverUrl);
      }
    }
  }

  lemma HarmlessAgrees(w: World, cmd: UploadCommand, cover: Option<Id>, f: Faults)
    requires Agrees(w) && CoverAnswer(w.uploads, cmd.sub, cover) && cmd.upload !in w.uploads
    requires !Refused(w, cmd) && Harmless(cmd, cover, f)
    ensures Agrees(UploadFile(w, cmd, cover, f).0)
  {
    if !f.put.Done() {
      assert UploadFile(w, cmd, cover, f).0 == w;
    } else {
      var v := WithoutOldCover(w, cmd, cover, f);
      assert StoreUpload(v, cmd, f).0 == StoreUpload(v, cmd, NO_FAULTS).0;
      if cmd.kind == Cover {
        RemoveOldCover(w, cmd, cover, f);
        AddCover(v, cmd);
      } else {
        AddRow(w, cmd);
      }
    }
  }

  // ----------------------------------------------------- what a bad one leaves behind

  /** The object without its row. */
  lemma Unrecorded(w: World, cmd: UploadCommand, f: Faults)
    requires cmd.upload !in w.uploads && cmd.sub in w.subs && f.put.Done() && (f.put.Failed() || !f.saveRow.Done())
    ensures !Agrees(StoreUpload(w, cmd, f).0)
  {
    StoreEffect(w, cmd, f);
    assert NewObject(cmd) in StoreUpload(w, cmd, f).0.objects && !Recorded(w.uploads, NewObject(cmd));
  }

  /** The old cover's row or object beside the new one. */
  lemma OldCoverLeft(w: World, cmd: UploadCommand, cover: Option<Id>, f: Faults)
    requires Agrees(w) && CoverAnswer(w.uploads, cmd.sub, cover) && cmd.upload !in w.uploads && cmd.sub in w.subs
    requires Replaces(cmd, cover) && f.put.Done() && !f.put.Failed() && f.saveRow.Done()
    requires !f.deleteRow.Done() || !f.deleteObject.Done()
    ensures !Agrees(StoreUpload(WithoutOldCover(w, cmd, cover, f), cmd, f).0)
  {
    var v := StoreUpload(WithoutOldCover(w, cmd, cover, f), cmd, f).0;
    StoreEffect(WithoutOldCover(w, cmd, cover, f), cmd, f);
    assert RowStored(w.uploads, w.objects, cover.value);
    if !f.deleteRow.Done() {
      assert SameCover(v.uploads[cover.value], v.uploads[cmd.upload]);
    } else {
      assert w.uploads[cover.value].stored in v.objects && !Recorded(v.uploads, w.uploads[cover.value].stored);
    }
  }

  /** The cover row was replaced, but the submission still shows the old one, or none. */
  lemma Unwritten(w: World, cmd: UploadCommand, cover: Option<Id>, f: Faults)
    requires Agrees(w) && CoverAnswer(w.uploads, cmd.sub, cover) && cmd.upload !in w.uploads && cmd.sub in w.subs
    requires cmd.kind == Cover && f.put == NoFault && f.saveRow.Done() && (f.saveRow.Failed() || !f.writeCover.Done())
    requires cover.Some? ==> f.deleteObject.Done() && f.deleteRow.Done()
    ensures !Agrees(StoreUpload(WithoutOldCover(w, cmd, cover, f), cmd, f).0)
  {
    var v := StoreUpload(WithoutOldCover(w, cmd, cover, f), cmd, f).0;
    StoreEffect(WithoutOldCover(w, cmd, cover, f), cmd, f);
    assert CoverAgrees(w.uploads, cmd.sub, w.subs[cmd.sub].coverUrl) && v.subs == w.subs;
    assert IsCoverOf(v.uploads[cmd.upload], cmd.sub);
    assert !CoverAgrees(v.uploads, cmd.sub, w.subs[cmd.sub].coverUrl);
  }

  lemma HarmfulDisagrees(w: World, cmd: UploadCommand, cover: Option<Id>, f: Faults)
    requires Agrees(w) && CoverAnswer(w.uploads, cmd.sub, cover) && cmd.upload !in w.uploads
    requires !Refused(w, cmd) && !Harmless(cmd, cover, f)
    ensures !Agrees(UploadFile(w, cmd, cover, f).0)
  {
    if !f.put.Done() {
    } else if f.put.Failed() || !f.saveRow.Done() {
      Unrecorded(WithoutOldCover(w, cmd, cover, f), cmd, f);
    } else if Replaces(cmd, cover) && !(f.deleteRow.Done() && f.deleteObject.Done()) {
      OldCoverLeft(w, cmd, cover, f);
    } else {
      Unwritten(w, cmd, cover, f);
    }
  }

  /** Exactly which uploads keep the stores in agreement. */
  lemma {:induction false} UploadAgreesIff(w: World, cmd: UploadCommand, cover: Option<Id>, f: Faults)
    requires Agrees(w) && CoverAnswer(w.uploads, cmd.sub, cover) && cmd.upload !in w.uploads
    ensures Agrees(UploadFile(w, cmd, cover, f).0) <==> Refused(w, cmd) || Harmless(cmd, cover, f)
  {
    if !Refused(w, cmd) {
      if Harmless(cmd, cover, f) {
        HarmlessAgrees(w, cmd, cover, f);
      } else {
        HarmfulDisagrees(w, cmd, cover, f);
      }
    }
  }

  lemma MemberMayUpload(w: World, draft: Submission, cmd: UploadCommand)
    requires w.subs == map[1 := draft] && w.events == map[2 := LifecycleSafety.OPEN_EVENT]
    requires w.members == map[Seat(6, 2) := 3] && draft.team == 3 && draft.event == 2 && draft.status == Editable
    requires cmd == UploadCommand(6, 1, OtherType, ".txt", 100, true, 4, 0)
    ensures !Refused(w, cmd)
  {}

  /** It does happen: a member's file whose row cannot be stored. */
  lemma UploadsCanDisagree(w: World, draft: Submission, cmd: UploadCommand)
    requires w.subs == map[1 := draft] && w.events == map[2 := LifecycleSafety.OPEN_EVENT]
    requires w.members == map[Seat(6, 2) := 3] && w.uploads == map[] && w.objects == {}
    requires draft == Submission(3, 2, None, "t", None, None, None, None, None, Editable, None)
    requires cmd == UploadCommand(6, 1, OtherType, ".txt", 100, true, 4, 0)
    ensures Agrees(w) && !Agrees(Step(w, DoUpload(cmd, None, NO_FAULTS.(saveRow := NotDone))))
  {
    MemberMayUpload(w, draft, cmd);
    UploadAgreesIff(w, cmd, None, NO_FAULTS.(saveRow := NotDone));
  }

  // ------------------------------------------------------------------------ runs

  /** A fresh upload id, and no failure that does harm. */
  predicate Clean(w: World, c: Command) {
    match c
    case DoUpload(cmd, cover, f) => cmd.upload !in w.uploads && (Refused(w, cmd) || Harmless(cmd, cover, f))
    case _ => true
  }

  lemma StepAgrees(w: World, c: Command)
    requires Agrees(w) && Clean(w, c)
    ensures Agrees(Step(w, c))
  {
    if c.DoUpload? {
      if Possible(w, c) {
        UploadAgreesIff(w, c.upload, c.cover, c.faults);
      }
    } else {
      OtherStepAgrees(w, c);
    }
  }

  lemma StepLeavesFiles(w: World, c: Command)
    requires !c.DoUpload?
    ensures Step(w, c).uploads == w.uploads && Step(w, c).objects == w.objects
  {}

  /** Only an upload writes a cover URL. */
  lemma StepLeavesCover(w: World, c: Command, s: Id)
    requires !c.DoUpload? && s in Step(w, c).subs
    ensures Step(w, c).subs[s].coverUrl == if s in w.subs then w.subs[s].coverUrl else None
  {
    LifecycleSafety.StepSubs(w, c);
  }

  lemma OtherStepAgrees(w: World, c: Command)
    requires Agrees(w) && !c.DoUpload?
    ensures Agrees(Step(w, c))
  {
    var v := Step(w, c);
    StepLeavesFiles(w, c);
    forall s | s in w.subs ensures s in v.subs {
      LifecycleSafety.StepAges(w, c, s);
    }
    forall s | s in v.subs ensures CoverAgrees(v.uploads, s, v.subs[s].coverUrl) {
      StepLeavesCover(w, c, s);
    }
  }

  ghost predicate CleanRun(w: World, cs: seq<Command>) {
    cs == [] || (CleanRun(w, cs[..|cs| - 1]) && Clean(Run(w, cs[..|cs| - 1]), cs[|cs| - 1]))
  }

  /** Uploads, edits, submits, disqualifications and everything else keep rows, objects
      and cover URLs in agreement over any run whose failures are harmless. */
  lemma {:induction false} RunsAgree(w: World, cs: seq<Command>)
    requires Agrees(w) && CleanRun(w, cs)
    ensures Agrees(Run(w, cs))
  {
    if cs != [] {
      RunsAgree(w, cs[..|cs| - 1]);
      StepAgrees(Run(w, cs[..|cs| - 1]), cs[|cs| - 1]);
    }
  }

  /** In particular over every such run of a platform that starts without files. */
  lemma {:induction false} FilesAgreeFromTheStart(w: World, cs: seq<Command>)
    requires LifecycleSafety.Started(w) && CleanRun(w, cs)
    ensures Agrees(Run(w, cs))
  {
    RunsAgree(w, cs);
  }
}
