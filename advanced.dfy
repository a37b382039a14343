/** The job queue of `printflow_advanced.py`: uploads get a random id in
    1000..9999 and go to the head of the queue; staff can rename a job's
    logical file name (keeping its extension) or reject it. */
module Advanced {
  import opened Lookup
  import opened PathExt

  const QUEUED := "Queued"
  const REJECTED := "Rejected"

  /** The inclusive range `random.randint(1000, 9999)` draws from. */
  const MIN_ID := 1000
  const MAX_ID := 9999

  const STAFF_PAGE := "/staff"

  /** Form field names, as the student and staff pages post them. */
  const STUDENT_FIELD := "student_id"
  const PAPER_FIELD := "paper_size"
  const ORIENTATION_FIELD := "orientation"
  const COLOR_FIELD := "color_mode"
  const RESOLUTION_FIELD := "resolution"
  const NEW_NAME_FIELD := "new_name"

  /** The value the student page's colour radio button posts, leading spaces included. */
  const COLOR_CHOICE := "  Color"

  /** The value of `datetime.now()` at upload; never inspected. */
  type Timestamp = int

  /** One job dictionary. Form values are kept verbatim. */
  datatype Job = Job(
    id: int,
    student: string,
    filename: string,
    paper: string,
    orientation: string,
    color: string,
    resolution: string,
    status: string,
    timestamp: Timestamp)

  /** The `file` part of an upload request; only its name matters here. */
  datatype FileUpload = FileUpload(filename: string)

  /** What a handler answers: the two plain-text refusals of the upload
      handler, Flask's 400 for a missing form key, the success page with the
      queue id, or a redirect; `IdInUse` is the corrected upload's refusal
      of an id already in the queue. */
  datatype Response =
    | NoFile
    | NoFilename
    | BadRequest
    | UploadSuccessful(queueId: int)
    | Redirect(location: string)
    | IdInUse

  /** The ids of the queue, head first. */
  function Ids(jobs: seq<Job>): (ids: seq<int>)
    ensures |ids| == |jobs| && forall i :: 0 <= i < |jobs| ==> ids[i] == jobs[i].id
  {
    seq(|jobs|, i requires 0 <= i < |jobs| => jobs[i].id)
  }

  /** Every id is one `randint` can draw and every status one a handler stores. */
  ghost predicate WellFormed(jobs: seq<Job>) {
    forall i :: 0 <= i < |jobs| ==>
      MIN_ID <= jobs[i].id <= MAX_ID && (jobs[i].status == QUEUED || jobs[i].status == REJECTED)
  }

  /** The keys `handle_upload` reads from `request.form`. */
  predicate HasUploadFields(form: map<string, string>) {
    STUDENT_FIELD in form && PAPER_FIELD in form && ORIENTATION_FIELD in form &&
    COLOR_FIELD in form && RESOLUTION_FIELD in form
  }

  /** `handle_upload` on a queue: refuse a request without a file part or
      with an empty file name, fail with 400 on a missing form key, and
      otherwise put a new `Queued` job with the drawn id at the head. */
  function Upload(jobs: seq<Job>, file: Option<FileUpload>, form: map<string, string>,
                  drawnId: int, now: Timestamp): (r: (seq<Job>, Response))
    ensures file.None? ==> r == (jobs, NoFile)
    ensures file.Some? && file.value.filename == "" ==> r == (jobs, NoFilename)
    ensures file.Some? && file.value.filename != "" && !HasUploadFields(form) ==> r == (jobs, BadRequest)
    ensures r.1.UploadSuccessful? <==> file.Some? && file.value.filename != "" && HasUploadFields(form)
    ensures !r.1.UploadSuccessful? ==> r.0 == jobs
    ensures r.1.UploadSuccessful? ==>
      |r.0| == |jobs| + 1 && r.0[1..] == jobs &&
      r.0[0].id == drawnId == r.1.queueId && r.0[0].status == QUEUED &&
      r.0[0].filename == file.value.filename && r.0[0].student == form[STUDENT_FIELD] &&
      r.0[0].paper == form[PAPER_FIELD] && r.0[0].orientation == form[ORIENTATION_FIELD] &&
      r.0[0].color == form[COLOR_FIELD] && r.0[0].resolution == form[RESOLUTION_FIELD] &&
      r.0[0].timestamp == now
    ensures WellFormed(jobs) && MIN_ID <= drawnId <= MAX_ID ==> WellFormed(r.0)
  {
    if file.None? then (jobs, NoFile)
    else if file.value.filename == "" then (jobs, NoFilename)
    else if !HasUploadFields(form) then (jobs, BadRequest)
    else
      var job := Job(drawnId, form[STUDENT_FIELD], file.value.filename, form[PAPER_FIELD],
                     form[ORIENTATION_FIELD], form[COLOR_FIELD], form[RESOLUTION_FIELD],
                     QUEUED, now);
      ([job] + jobs, UploadSuccessful(drawnId))
  }

  /** `staff_rename` on a queue: the first job with the id (the newest one,
      since uploads go to the head) gets the new name with its old extension
      kept; every other job and every other field stay as they were. */
  function Renamed(jobs: seq<Job>, jobId: int, newName: string): (r: seq<Job>)
    ensures |r| == |jobs| && Ids(r) == Ids(jobs)
    ensures forall i :: 0 <= i < |jobs| ==> r[i] == jobs[i].(filename := r[i].filename)
    ensures forall i :: 0 <= i < |jobs| && r[i] != jobs[i] ==> FirstIndex(Ids(jobs), jobId) == Some(i)
    ensures jobId !in Ids(jobs) ==> r == jobs
    ensures var m := FirstIndex(Ids(jobs), jobId);
      m.Some? ==> r[m.value].filename == KeepExtension(newName, Ext(jobs[m.value].filename)) &&
                  EndsWith(r[m.value].filename, Ext(jobs[m.value].filename))
    ensures WellFormed(jobs) ==> WellFormed(r)
  {
    match FirstIndex(Ids(jobs), jobId)
    case None => jobs
    case Some(k) =>
      var r := jobs[k := jobs[k].(filename := KeepExtension(newName, Ext(jobs[k].filename)))];
      assert Ids(r) == Ids(jobs);
      r
  }

  /** `staff_reject` on a queue: the first job with the id becomes
      `Rejected`, whatever its status was; nothing else changes. */
  function Rejected(jobs: seq<Job>, jobId: int): (r: seq<Job>)
    ensures |r| == |jobs| && Ids(r) == Ids(jobs)
    ensures forall i :: 0 <= i < |jobs| ==> r[i] == jobs[i].(status := r[i].status)
    ensures forall i :: 0 <= i < |jobs| && r[i] != jobs[i] ==> FirstIndex(Ids(jobs), jobId) == Some(i)
    ensures jobId !in Ids(jobs) ==> r == jobs
    ensures var m := FirstIndex(Ids(jobs), jobId); m.Some? ==> r[m.value].status == REJECTED
    ensures WellFormed(jobs) ==> WellFormed(r)
  {
    match FirstIndex(Ids(jobs), jobId)
    case None => jobs
    case Some(k) =>
      var r := jobs[k := jobs[k].(status := REJECTED)];
      assert Ids(r) == Ids(jobs);
      r
  }

  /** Rejecting twice is rejecting once. */
  lemma RejectIdempotent(jobs: seq<Job>, jobId: int)
    ensures Rejected(Rejected(jobs, jobId), jobId) == Rejected(jobs, jobId)
  {
    var once := Rejected(jobs, jobId);
    assert FirstIndex(Ids(once), jobId) == FirstIndex(Ids(jobs), jobId);
  }

  /** The two staff forms the dashboard can post. */
  datatype StaffRequest =
    | RenameRequest(jobId: nat, form: map<string, string>)
    | RejectRequest(jobId: nat)

  datatype Action = RenameAction | RejectAction

  function ActionOf(req: StaffRequest): Action {
    match req
    case RenameRequest(_, _) => RenameAction
    case RejectRequest(_) => RejectAction
  }

  /** The buttons `HTML_STAFF` shows in a row: rename and reject for a
      `Queued` job, none for any other status. */
  function OfferedActions(status: string): (r: set<Action>)
    ensures r != {} <==> status == QUEUED
    ensures r == {} || r == {RenameAction, RejectAction}
  {
    if status == QUEUED then {RenameAction, RejectAction} else {}
  }

  /** The queue after one staff request, as the route handlers compute it
      (a rename without `new_name` is a 400 and changes nothing). */
  function StaffStep(jobs: seq<Job>, req: StaffRequest): (r: seq<Job>)
    ensures |r| == |jobs| && Ids(r) == Ids(jobs)
    ensures forall i :: 0 <= i < |jobs| && r[i] != jobs[i] ==> FirstIndex(Ids(jobs), req.jobId) == Some(i)
  {
    match req
    case RenameRequest(jobId, form) =>
      if NEW_NAME_FIELD in form then Renamed(jobs, jobId, form[NEW_NAME_FIELD]) else jobs
    case RejectRequest(jobId) => Rejected(jobs, jobId)
  }

  /** `req` is what the button of the given row posts: the row's id, and an
      action the row offers. */
  predicate OfferedAt(jobs: seq<Job>, row: nat, req: StaffRequest) {
    row < |jobs| && jobs[row].id == req.jobId && ActionOf(req) in OfferedActions(jobs[row].status)
  }

  /** When ids are distinct, one request posted by a button acts on its own
      row and on no other; in particular that request neither renames nor
      re-rejects a `Rejected` job. */
  lemma {:induction false} OfferedActionTouchesOnlyItsRow(jobs: seq<Job>, row: nat, req: StaffRequest)
    requires Distinct(Ids(jobs)) && OfferedAt(jobs, row, req)
    ensures forall i :: 0 <= i < |jobs| && i != row ==> StaffStep(jobs, req)[i] == jobs[i]
    ensures forall i :: 0 <= i < |jobs| && jobs[i].status == REJECTED ==> StaffStep(jobs, req)[i] == jobs[i]
  {
    FirstIndexOfDistinct(Ids(jobs), row);
    assert jobs[row].status == QUEUED;
  }

  /** Without distinct ids the dashboard does not protect rejected jobs:
      two uploads that draw the same id, then a reject pressed on the newer
      one, leave the older job offering rename, and pressing it renames the
      rejected newer job instead. */
  lemma DuplicateIdRenamesRejectedJob()
    ensures
      var form := map[STUDENT_FIELD := "ann", PAPER_FIELD := "A4", ORIENTATION_FIELD := "Portrait",
                       COLOR_FIELD := COLOR_CHOICE, RESOLUTION_FIELD := "Standard"];
      var q1 := Upload([], Some(FileUpload("a.pdf")), form, 5000, 0).0;
      var q2 := Upload(q1, Some(FileUpload("b.pdf")), form, 5000, 1).0;
      var reject := RejectRequest(5000);
      var q3 := StaffStep(q2, reject);
      var rename := RenameRequest(5000, map[NEW_NAME_FIELD := "x"]);
      var q4 := StaffStep(q3, rename);
      WellFormed(q3) && OfferedAt(q2, 0, reject) && OfferedAt(q3, 1, rename) &&
      q3[0].status == REJECTED && q4[0].filename != q3[0].filename && q4[1] == q3[1]
  {
    var form := map[STUDENT_FIELD := "ann", PAPER_FIELD := "A4", ORIENTATION_FIELD := "Portrait",
                     COLOR_FIELD := COLOR_CHOICE, RESOLUTION_FIELD := "Standard"];
    var q1 := Upload([], Some(FileUpload("a.pdf")), form, 5000, 0).0;
    var q2 := Upload(q1, Some(FileUpload("b.pdf")), form, 5000, 1).0;
    assert Ids(q2) == [5000, 5000];
    assert FirstIndex(Ids(q2), 5000) == Some(0);
    var q3 := StaffStep(q2, RejectRequest(5000));
    assert Ids(q3) == [5000, 5000];
    assert FirstIndex(Ids(q3), 5000) == Some(0);
    var q4 := StaffStep(q3, RenameRequest(5000, map[NEW_NAME_FIELD := "x"]));
    assert q4[0].filename[..1] == "x";
    assert q3[0].filename[0] == 'b';
  }

  /** The corrected upload: an id already in the queue is refused, so that
      the caller draws again, and ids stay distinct. */
  function FreshUpload(jobs: seq<Job>, file: Option<FileUpload>, form: map<string, string>,
                       drawnId: int, now: Timestamp): (r: (seq<Job>, Response))
    ensures r.1 == IdInUse <==> drawnId in Ids(jobs)
    ensures r.1 != IdInUse ==> r == Upload(jobs, file, form, drawnId, now)
    ensures r.1 == IdInUse ==> r.0 == jobs
    ensures Distinct(Ids(jobs)) ==> Distinct(Ids(r.0))
  {
    if drawnId in Ids(jobs) then (jobs, IdInUse)
    else
      var r := Upload(jobs, file, form, drawnId, now);
      assert r.1.UploadSuccessful? ==> Ids(r.0) == [drawnId] + Ids(jobs);
      r
  }

  /** The queue of the running server: `job_queue`. */
  class JobQueue {
    var jobs: seq<Job>

    ghost predicate Valid()
      reads this
    {
      WellFormed(jobs)
    }

    /** The queue at start-up is empty. */
    constructor ()
      ensures Valid() && jobs == []
    {
      jobs := [];
    }

    /** `handle_upload`; `drawnId` is the value `random.randint(1000, 9999)`
        returned and `now` the value of `datetime.now()`. */
    method HandleUpload(file: Option<FileUpload>, form: map<string, string>, drawnId: int, now: Timestamp)
      returns (resp: Response)
      requires Valid()
      requires MIN_ID <= drawnId <= MAX_ID
      modifies this
      ensures Valid()
      ensures (jobs, resp) == Upload(old(jobs), file, form, drawnId, now)
    {
      if file.None? {
        return NoFile;
      }
      if file.value.filename == "" {
        return NoFilename;
      }
      if !HasUploadFields(form) {
        return BadRequest;
      }
      var job := Job(drawnId, form[STUDENT_FIELD], file.value.filename, form[PAPER_FIELD],
                     form[ORIENTATION_FIELD], form[COLOR_FIELD], form[RESOLUTION_FIELD],
                     QUEUED, now);
      jobs := [job] + jobs;
      resp := UploadSuccessful(job.id);
    }

    /** `staff_rename`: a 400 without `new_name`; otherwise the first job
        with the id is renamed, and the answer is a redirect to the dashboard. */
    method StaffRename(jobId: nat, form: map<string, string>) returns (resp: Response)
      requires Valid()
      modifies this
      ensures Valid()
      ensures NEW_NAME_FIELD !in form ==> resp == BadRequest && jobs == old(jobs)
      ensures NEW_NAME_FIELD in form ==>
        resp == Redirect(STAFF_PAGE) && jobs == Renamed(old(jobs), jobId, form[NEW_NAME_FIELD])
    {
      if NEW_NAME_FIELD !in form {
        return BadRequest;
      }
      var newName := form[NEW_NAME_FIELD];
      var i := 0;
      while i < |jobs|
        invariant 0 <= i <= |jobs|
        invariant jobs == old(jobs) && newName == form[NEW_NAME_FIELD]
        invariant forall j :: 0 <= j < i ==> jobs[j].id != jobId
      {
        if jobs[i].id == jobId {
          assert FirstIndex(Ids(jobs), jobId) == Some(i);
          var ext := Ext(jobs[i].filename);
          if !EndsWith(newName, ext) {
            newName := newName + ext;
          }
          assert newName == KeepExtension(form[NEW_NAME_FIELD], ext);
          jobs := jobs[i := jobs[i].(filename := newName)];
          break;
        }
        i := i + 1;
      }
      resp := Redirect(STAFF_PAGE);
    }

    /** `staff_reject`: the first job with the id becomes `Rejected`. */
    method StaffReject(jobId: nat) returns (resp: Response)
      requires Valid()
      modifies this
      ensures Valid()
      ensures resp == Redirect(STAFF_PAGE) && jobs == Rejected(old(jobs), jobId)
    {
      var i := 0;
      while i < |jobs|
        invariant 0 <= i <= |jobs|
        invariant jobs == old(jobs)
        invariant forall j :: 0 <= j < i ==> jobs[j].id != jobId
      {
        if jobs[i].id == jobId {
          jobs := jobs[i := jobs[i].(status := REJECTED)];
          break;
        }
        i := i + 1;
      }
      resp := Redirect(STAFF_PAGE);
    }
  }
}
