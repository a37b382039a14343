/** The job queue of `printflow_firebase.py`: uploads take the next ticket
    of a counter that starts at 1001 and go to the head of the queue; staff
    accept, complete or reject a job; every change is reported to a
    notification hook. */
module Firebase {
  import opened Lookup

  const QUEUED := "Queued"
  const PRINTING := "Printing"
  const READY_FOR_PICKUP := "Ready for Pickup"
  const REJECTED := "Rejected"

  /** The status `complete_job` reports to the hook, unlike the one it stores. */
  const READY_NOTICE := "Ready"

  /** The initial value of `NEXT_TICKET_ID`. */
  const FIRST_TICKET := 1001

  const HOME_PAGE := "/"
  const STAFF_PAGE := "/staff"

  /** Form field names, as the student page posts them. */
  const STUDENT_FIELD := "student_id"
  const PAPER_FIELD := "paper_size"
  const COLOR_FIELD := "color_mode"

  /** One job dictionary. Form values are kept verbatim. */
  datatype Job = Job(id: int, student: string, filename: string, paper: string, color: string, status: string)

  /** The `file` part of an upload request; only its name matters here. */
  datatype FileUpload = FileUpload(filename: string)

  /** One call of `sync_to_firebase(job_id, status, student_name)`. */
  datatype Notification = Notification(jobId: int, status: string, student: string)

  /** The answer to a missing file part or form key, the plain-text refusal
      of an empty file name, or a redirect. The server runs with `debug=True`,
      so Flask does not turn the missing-key error into a 400: it is raised
      unhandled and answered with the debugger's 500 page. */
  datatype Response = KeyErrorTrapped | NoFile | Redirect(location: string)

  /** The module globals `job_queue` and `NEXT_TICKET_ID`, with the
      notifications sent so far. */
  datatype State = State(jobs: seq<Job>, nextTicket: int, log: seq<Notification>)

  /** The state at start-up. */
  const Initial := State([], FIRST_TICKET, [])

  /** The tickets of the queue, head first. This is over this module's own
      `Job` record, which has fields the other variant's record lacks and
      lacks some it has, so each module projects its own. */
  function Ids(jobs: seq<Job>): (ids: seq<int>)
    ensures |ids| == |jobs| && forall i :: 0 <= i < |jobs| ==> ids[i] == jobs[i].id
  {
    seq(|jobs|, i requires 0 <= i < |jobs| => jobs[i].id)
  }

  /** A status some handler stores. */
  predicate Stored(status: string) {
    status == QUEUED || status == PRINTING || status == READY_FOR_PICKUP || status == REJECTED
  }

  /** The shape of every state the server can reach: the queue holds the
      tickets `nextTicket - 1` down to `FIRST_TICKET`, head first. */
  ghost predicate Wf(s: State) {
    s.nextTicket == FIRST_TICKET + |s.jobs| &&
    forall i :: 0 <= i < |s.jobs| ==> s.jobs[i].id == s.nextTicket - 1 - i && Stored(s.jobs[i].status)
  }

  /** Tickets in the queue are distinct, strictly decreasing from head to
      tail, and all below the counter; the head holds the latest ticket. */
  lemma WfTickets(s: State)
    requires Wf(s)
    ensures Distinct(Ids(s.jobs))
    ensures forall i, j :: 0 <= i < j < |s.jobs| ==> s.jobs[i].id > s.jobs[j].id
    ensures forall i :: 0 <= i < |s.jobs| ==> FIRST_TICKET <= s.jobs[i].id < s.nextTicket
    ensures s.jobs != [] ==> s.jobs[0].id == s.nextTicket - 1
  {
  }

  /** The keys `upload` reads from `request.form`. */
  predicate HasUploadFields(form: map<string, string>) {
    STUDENT_FIELD in form && PAPER_FIELD in form && COLOR_FIELD in form
  }

  predicate UploadSucceeds(file: Option<FileUpload>, form: map<string, string>) {
    file.Some? && file.value.filename != "" && HasUploadFields(form)
  }

  /** `upload`: without a file part or a form key the error is trapped, with an empty
      file name it is refused; otherwise the job takes the current ticket,
      goes to the head, the counter moves on and one notification is sent. */
  function AfterUpload(s: State, file: Option<FileUpload>, form: map<string, string>): (r: (State, Response))
    ensures file.None? ==> r == (s, KeyErrorTrapped)
    ensures file.Some? && file.value.filename == "" ==> r == (s, NoFile)
    ensures file.Some? && file.value.filename != "" && !HasUploadFields(form) ==> r == (s, KeyErrorTrapped)
    ensures r.1 == Redirect(HOME_PAGE) <==> UploadSucceeds(file, form)
    ensures !UploadSucceeds(file, form) ==> r.0 == s
    ensures UploadSucceeds(file, form) ==>
      |r.0.jobs| == |s.jobs| + 1 && r.0.jobs[1..] == s.jobs &&
      r.0.jobs[0].id == s.nextTicket && r.0.nextTicket == s.nextTicket + 1 &&
      r.0.jobs[0].status == QUEUED && r.0.jobs[0].filename == file.value.filename &&
      r.0.jobs[0].student == form[STUDENT_FIELD] && r.0.jobs[0].paper == form[PAPER_FIELD] &&
      r.0.jobs[0].color == form[COLOR_FIELD] &&
      r.0.log == s.log + [Notification(s.nextTicket, QUEUED, form[STUDENT_FIELD])]
    ensures Wf(s) ==> Wf(r.0)
  {
    if file.None? then (s, KeyErrorTrapped)
    else if file.value.filename == "" then (s, NoFile)
    else if !HasUploadFields(form) then (s, KeyErrorTrapped)
    else
      var job := Job(s.nextTicket, form[STUDENT_FIELD], file.value.filename, form[PAPER_FIELD],
                     form[COLOR_FIELD], QUEUED);
      (State([job] + s.jobs, s.nextTicket + 1, s.log + [Notification(job.id, QUEUED, job.student)]),
       Redirect(HOME_PAGE))
  }

  /** The search-and-set loop of the three staff handlers: the first job
      with the ticket gets `stored`, whatever its status was, and the hook
      hears `notified`; an unknown ticket changes nothing and sends nothing. */
  function AfterTransition(s: State, jid: int, stored: string, notified: string): (r: State)
    ensures r.nextTicket == s.nextTicket && |r.jobs| == |s.jobs| && Ids(r.jobs) == Ids(s.jobs)
    ensures forall i :: 0 <= i < |s.jobs| ==> r.jobs[i] == s.jobs[i].(status := r.jobs[i].status)
    ensures forall i :: 0 <= i < |s.jobs| && r.jobs[i] != s.jobs[i] ==> FirstIndex(Ids(s.jobs), jid) == Some(i)
    ensures jid !in Ids(s.jobs) ==> r == s
    ensures var m := FirstIndex(Ids(s.jobs), jid);
      m.Some? ==> r.jobs[m.value].status == stored &&
                  r.log == s.log + [Notification(jid, notified, s.jobs[m.value].student)]
    ensures Wf(s) && Stored(stored) ==> Wf(r)
  {
    match FirstIndex(Ids(s.jobs), jid)
    case None => s
    case Some(k) =>
      var jobs := s.jobs[k := s.jobs[k].(status := stored)];
      assert Ids(jobs) == Ids(s.jobs);
      State(jobs, s.nextTicket, s.log + [Notification(jid, notified, s.jobs[k].student)])
  }

  /** A transition leaves every job with another ticket as it was. */
  lemma TransitionKeepsOtherTickets(s: State, jid: int, stored: string, notified: string)
    ensures var r := AfterTransition(s, jid, stored, notified);
      forall i :: 0 <= i < |s.jobs| && s.jobs[i].id != jid ==> r.jobs[i] == s.jobs[i]
  {
  }

  /** The requests the student and staff pages post. */
  datatype Request =
    | UploadRequest(file: Option<FileUpload>, form: map<string, string>)
    | AcceptRequest(jid: nat)
    | CompleteRequest(jid: nat)
    | RejectRequest(jid: nat)

  /** The state and answer after one request. */
  function Step(s: State, req: Request): (r: (State, Response))
    ensures Wf(s) ==> Wf(r.0)
  {
    match req
    case UploadRequest(file, form) => AfterUpload(s, file, form)
    case AcceptRequest(jid) => (AfterTransition(s, jid, PRINTING, PRINTING), Redirect(STAFF_PAGE))
    case CompleteRequest(jid) => (AfterTransition(s, jid, READY_FOR_PICKUP, READY_NOTICE), Redirect(STAFF_PAGE))
    case RejectRequest(jid) => (AfterTransition(s, jid, REJECTED, REJECTED), Redirect(STAFF_PAGE))
  }

  /** `complete_job` stores "Ready for Pickup" but reports "Ready". */
  lemma CompleteStoresOneStatusAndReportsAnother(s: State, jid: nat)
    requires jid in Ids(s.jobs)
    ensures var t := Step(s, CompleteRequest(jid)).0;
      var k := FirstIndex(Ids(s.jobs), jid).value;
      t.jobs[k].status == READY_FOR_PICKUP && t.log[|t.log| - 1].status == READY_NOTICE &&
      t.jobs[k].status != t.log[|t.log| - 1].status
  {
  }

  /** The state after a sequence of requests. */
  function Run(s: State, reqs: seq<Request>): (r: State)
    ensures Wf(s) ==> Wf(r)
    decreases |reqs|
  {
    if reqs == [] then s else Run(Step(s, reqs[0]).0, reqs[1..])
  }

  /** The requests that reach `sync_to_firebase`: successful uploads and
      staff actions on a ticket in the queue. */
  predicate Notifies(s: State, req: Request) {
    match req
    case UploadRequest(file, form) => UploadSucceeds(file, form)
    case AcceptRequest(jid) => jid in Ids(s.jobs)
    case CompleteRequest(jid) => jid in Ids(s.jobs)
    case RejectRequest(jid) => jid in Ids(s.jobs)
  }

  function SuccessfulUploads(s: State, reqs: seq<Request>): nat
    decreases |reqs|
  {
    if reqs == [] then 0
    else
      (if reqs[0].UploadRequest? && UploadSucceeds(reqs[0].file, reqs[0].form) then 1 else 0) +
      SuccessfulUploads(Step(s, reqs[0]).0, reqs[1..])
  }

  function NotifyingRequests(s: State, reqs: seq<Request>): nat
    decreases |reqs|
  {
    if reqs == [] then 0
    else (if Notifies(s, reqs[0]) then 1 else 0) + NotifyingRequests(Step(s, reqs[0]).0, reqs[1..])
  }

  /** Over any run the counter advances by the number of successful uploads,
      and the log only grows, by one entry per notifying request. */
  lemma {:induction false} RunCounts(s: State, reqs: seq<Request>)
    ensures Run(s, reqs).nextTicket == s.nextTicket + SuccessfulUploads(s, reqs)
    ensures |Run(s, reqs).log| == |s.log| + NotifyingRequests(s, reqs)
    ensures Run(s, reqs).log[..|s.log|] == s.log
    decreases |reqs|
  {
    if reqs != [] {
      var t := Step(s, reqs[0]).0;
      RunCounts(t, reqs[1..]);
      assert |t.log| == |s.log| + (if Notifies(s, reqs[0]) then 1 else 0);
      assert t.log[..|s.log|] == s.log;
      assert Run(s, reqs).log[..|t.log|] == t.log;
      assert Run(s, reqs).log[..|s.log|] == t.log[..|s.log|];
    }
  }

  /** From start-up, `NEXT_TICKET_ID` is 1001 plus the number of successful
      uploads, and also 1001 plus the length of the queue. */
  lemma TicketCounterCountsUploads(reqs: seq<Request>)
    ensures Run(Initial, reqs).nextTicket == FIRST_TICKET + SuccessfulUploads(Initial, reqs)
    ensures Run(Initial, reqs).nextTicket == FIRST_TICKET + |Run(Initial, reqs).jobs|
    ensures |Run(Initial, reqs).log| == NotifyingRequests(Initial, reqs)
  {
    RunCounts(Initial, reqs);
  }

  /** The buttons of the dashboard's "Action Flow" column. */
  datatype Action = AcceptAction | CompleteAction | RejectAction

  /** `HTML_STAFF` offers accept and reject for a `Queued` job, complete for a
      `Printing` one, and nothing otherwise. */
  function OfferedActions(status: string): (r: set<Action>)
    ensures AcceptAction in r <==> status == QUEUED
    ensures RejectAction in r <==> status == QUEUED
    ensures CompleteAction in r <==> status == PRINTING
  {
    if status == QUEUED then {AcceptAction, RejectAction}
    else if status == PRINTING then {CompleteAction}
    else {}
  }

  function ActionOf(req: Request): Action
    requires !req.UploadRequest?
  {
    match req
    case AcceptRequest(_) => AcceptAction
    case CompleteRequest(_) => CompleteAction
    case RejectRequest(_) => RejectAction
  }

  /** `req` could have been posted from the pages: an upload, or a button
      that some row of the dashboard shows for its own ticket. */
  ghost predicate Offered(jobs: seq<Job>, req: Request) {
    req.UploadRequest? ||
    exists row :: 0 <= row < |jobs| && jobs[row].id == req.jid && ActionOf(req) in OfferedActions(jobs[row].status)
  }

  /** The transitions of the lifecycle. */
  predicate Edge(a: string, b: string) {
    (a == QUEUED && b == PRINTING) || (a == PRINTING && b == READY_FOR_PICKUP) || (a == QUEUED && b == REJECTED)
  }

  /** `b` lies on the lifecycle after `a` (or is `a`). */
  predicate Reaches(a: string, b: string) {
    a == b || Edge(a, b) || (a == QUEUED && b == READY_FOR_PICKUP)
  }

  /** The terminal statuses are never left. */
  lemma TerminalStatusesAreFinal(b: string)
    ensures Reaches(READY_FOR_PICKUP, b) ==> b == READY_FOR_PICKUP
    ensures Reaches(REJECTED, b) ==> b == REJECTED
  {
  }

  /** The status of the job with ticket `FIRST_TICKET + n` (counted from the
      oldest upload, so that later uploads do not move it). */
  function StatusOf(s: State, n: nat): string
    requires n < |s.jobs|
  {
    s.jobs[|s.jobs| - 1 - n].status
  }

  /** An upload leaves every job's status where it was; a new job starts `Queued`. */
  lemma {:induction false} UploadKeepsStatuses(s: State, file: Option<FileUpload>, form: map<string, string>)
    ensures var t := AfterUpload(s, file, form).0;
      |s.jobs| <= |t.jobs| <= |s.jobs| + 1 &&
      (forall n :: 0 <= n < |s.jobs| ==> StatusOf(t, n) == StatusOf(s, n)) &&
      (|s.jobs| < |t.jobs| ==> StatusOf(t, |s.jobs|) == QUEUED)
  {
    var t := AfterUpload(s, file, form).0;
    if UploadSucceeds(file, form) {
      forall n | 0 <= n < |s.jobs|
        ensures StatusOf(t, n) == StatusOf(s, n)
      {
        assert t.jobs[|t.jobs| - 1 - n] == t.jobs[1..][|s.jobs| - 1 - n];
      }
    }
  }

  /** With distinct tickets, a transition whose stored status follows an edge
      from the status of the job holding the ticket moves only that job, and
      along that edge. */
  lemma TransitionAlongEdge(s: State, jid: int, stored: string, notified: string, row: nat)
    requires Wf(s) && row < |s.jobs| && s.jobs[row].id == jid && Edge(s.jobs[row].status, stored)
    ensures var t := AfterTransition(s, jid, stored, notified);
      |t.jobs| == |s.jobs| &&
      forall n :: 0 <= n < |s.jobs| ==> StatusOf(t, n) == StatusOf(s, n) || Edge(StatusOf(s, n), StatusOf(t, n))
  {
    WfTickets(s);
    FirstIndexOfDistinct(Ids(s.jobs), row);
  }

  /** A staff button keeps the queue's length and moves each status, if at
      all, along one edge of the lifecycle. */
  lemma {:induction false} OfferedActionMovesAlongEdge(s: State, req: Request)
    requires Wf(s) && !req.UploadRequest? && Offered(s.jobs, req)
    ensures var t := Step(s, req).0;
      |t.jobs| == |s.jobs| &&
      forall n :: 0 <= n < |s.jobs| ==> StatusOf(t, n) == StatusOf(s, n) || Edge(StatusOf(s, n), StatusOf(t, n))
  {
    var row :| 0 <= row < |s.jobs| && s.jobs[row].id == req.jid && ActionOf(req) in OfferedActions(s.jobs[row].status);
    match req {
      case AcceptRequest(jid) => TransitionAlongEdge(s, jid, PRINTING, PRINTING, row);
      case CompleteRequest(jid) => TransitionAlongEdge(s, jid, READY_FOR_PICKUP, READY_NOTICE, row);
      case RejectRequest(jid) => TransitionAlongEdge(s, jid, REJECTED, REJECTED, row);
    }
  }

  /** A staff button acts on its own row only, along one edge of the lifecycle. */
  lemma {:induction false} OfferedActionFollowsEdge(s: State, req: Request)
    requires Wf(s) && !req.UploadRequest? && Offered(s.jobs, req)
    ensures var t := Step(s, req).0;
      |t.jobs| == |s.jobs| &&
      (forall n :: 0 <= n < |s.jobs| ==> StatusOf(t, n) == StatusOf(s, n) || Edge(StatusOf(s, n), StatusOf(t, n))) &&
      forall i :: 0 <= i < |s.jobs| && s.jobs[i].id != req.jid ==> t.jobs[i] == s.jobs[i]
  {
    OfferedActionMovesAlongEdge(s, req);
    match req {
      case AcceptRequest(jid) => TransitionKeepsOtherTickets(s, jid, PRINTING, PRINTING);
      case CompleteRequest(jid) => TransitionKeepsOtherTickets(s, jid, READY_FOR_PICKUP, READY_NOTICE);
      case RejectRequest(jid) => TransitionKeepsOtherTickets(s, jid, REJECTED, REJECTED);
    }
  }

  /** One request the pages offer moves each job along one edge of the
      lifecycle or leaves it; a new job starts `Queued`. */
  lemma OfferedStepFollowsLifecycle(s: State, req: Request)
    requires Wf(s) && Offered(s.jobs, req)
    ensures var t := Step(s, req).0;
      |s.jobs| <= |t.jobs| <= |s.jobs| + 1 &&
      (forall n :: 0 <= n < |s.jobs| ==> StatusOf(t, n) == StatusOf(s, n) || Edge(StatusOf(s, n), StatusOf(t, n))) &&
      (|s.jobs| < |t.jobs| ==> StatusOf(t, |s.jobs|) == QUEUED)
  {
    if req.UploadRequest? {
      UploadKeepsStatuses(s, req.file, req.form);
    } else {
      OfferedActionFollowsEdge(s, req);
    }
  }

  /** Every request in the sequence is offered by the page it is posted from. */
  ghost predicate AllOffered(s: State, reqs: seq<Request>)
    decreases |reqs|
  {
    reqs == [] || (Offered(s.jobs, reqs[0]) && AllOffered(Step(s, reqs[0]).0, reqs[1..]))
  }

  /** If operators press only the buttons the dashboard shows, every job
      moves along Queued -> Printing -> Ready for Pickup or Queued -> Rejected:
      a job present at the start ends at a status its status reaches (so a
      terminal job stays put), and a job uploaded meanwhile at one `Queued`
      reaches. */
  lemma {:induction false} OfferedRunFollowsLifecycle(s: State, reqs: seq<Request>)
    requires Wf(s) && AllOffered(s, reqs)
    ensures var t := Run(s, reqs);
      |s.jobs| <= |t.jobs| &&
      (forall n :: 0 <= n < |s.jobs| ==> Reaches(StatusOf(s, n), StatusOf(t, n))) &&
      (forall n :: |s.jobs| <= n < |t.jobs| ==> Reaches(QUEUED, StatusOf(t, n)))
    decreases |reqs|
  {
    if reqs != [] {
      var s1 := Step(s, reqs[0]).0;
      OfferedStepFollowsLifecycle(s, reqs[0]);
      OfferedRunFollowsLifecycle(s1, reqs[1..]);
    }
  }

  /** The three dots of the student page's tracker. */
  datatype Tracker = Tracker(queued: bool, printing: bool, ready: bool)

  /** The tracker as `HTML_STUDENT` lights it: it tests for "Ready", a status
      no handler stores. */
  function TrackerAsWritten(status: string): Tracker {
    Tracker(status == QUEUED || status == PRINTING || status == READY_NOTICE,
            status == PRINTING || status == READY_NOTICE,
            status == READY_NOTICE)
  }

  /** Completing a job darkens every dot of the tracker as written. */
  lemma TrackerAsWrittenGoesDark()
    ensures Reaches(PRINTING, READY_FOR_PICKUP)
    ensures TrackerAsWritten(PRINTING) == Tracker(true, true, false)
    ensures TrackerAsWritten(READY_FOR_PICKUP) == Tracker(false, false, false)
  {
  }

  /** The tracker testing the status `complete_job` stores. */
  function TrackerFixed(status: string): Tracker {
    Tracker(status == QUEUED || status == PRINTING || status == READY_FOR_PICKUP,
            status == PRINTING || status == READY_FOR_PICKUP,
            status == READY_FOR_PICKUP)
  }

  /** Along the lifecycle the fixed tracker never darkens a dot except on
      rejection, and a job ready for pickup lights all three. */
  lemma TrackerFixedFollowsLifecycle(a: string, b: string)
    requires Reaches(a, b) && b != REJECTED
    ensures TrackerFixed(a).queued ==> TrackerFixed(b).queued
    ensures TrackerFixed(a).printing ==> TrackerFixed(b).printing
    ensures TrackerFixed(a).ready ==> TrackerFixed(b).ready
    ensures TrackerFixed(READY_FOR_PICKUP) == Tracker(true, true, true)
  {
  }

  /** The server's globals. The notification log is ghost: the hook only
      prints. */
  class JobQueue {
    var jobs: seq<Job>
    var nextTicket: int
    ghost var notifications: seq<Notification>

    ghost function Snapshot(): State
      reads this
    {
      State(jobs, nextTicket, notifications)
    }

    ghost predicate Valid()
      reads this
    {
      Wf(Snapshot())
    }

    /** Start-up: an empty queue and `NEXT_TICKET_ID = 1001`. */
    constructor ()
      ensures Valid() && Snapshot() == Initial
    {
      jobs := [];
      nextTicket := FIRST_TICKET;
      notifications := [];
    }

    /** `home`: the job at the head of the queue, which is the latest
        successful upload, or none when the queue is empty. */
    function Home(): (r: Option<Job>)
      reads this
      ensures r.Some? <==> jobs != []
      ensures r.Some? ==> r.value == jobs[0]
      ensures Valid() && r.Some? ==>
        r.value.id == nextTicket - 1 && forall i :: 0 <= i < |jobs| ==> jobs[i].id <= r.value.id
    {
      if jobs != [] then Some(jobs[0]) else None
    }

    /** `upload`. */
    method Upload(file: Option<FileUpload>, form: map<string, string>) returns (resp: Response)
      requires Valid()
      modifies this
      ensures Valid()
      ensures (Snapshot(), resp) == Step(old(Snapshot()), UploadRequest(file, form))
    {
      if file.None? {
        return KeyErrorTrapped;
      }
      if file.value.filename == "" {
        return NoFile;
      }
      if !HasUploadFields(form) {
        return KeyErrorTrapped;
      }
      var job := Job(nextTicket, form[STUDENT_FIELD], file.value.filename, form[PAPER_FIELD],
                     form[COLOR_FIELD], QUEUED);
      jobs := [job] + jobs;
      nextTicket := nextTicket + 1;
      notifications := notifications + [Notification(job.id, QUEUED, job.student)];
      resp := Redirect(HOME_PAGE);
    }

    /** The loop the staff handlers share: set the status of the first job
        with the ticket and notify, then stop. */
    method SetStatusOfFirst(jid: nat, stored: string, notified: string)
      modifies this
      ensures Snapshot() == AfterTransition(old(Snapshot()), jid, stored, notified)
    {
      var i := 0;
      while i < |jobs|
        invariant 0 <= i <= |jobs|
        invariant Snapshot() == old(Snapshot())
        invariant forall j :: 0 <= j < i ==> jobs[j].id != jid
      {
        if jobs[i].id == jid {
          jobs := jobs[i := jobs[i].(status := stored)];
          notifications := notifications + [Notification(jid, notified, jobs[i].student)];
          break;
        }
        i := i + 1;
      }
    }

    /** `accept_job`. */
    method AcceptJob(jid: nat) returns (resp: Response)
      requires Valid()
      modifies this
      ensures Valid()
      ensures (Snapshot(), resp) == Step(old(Snapshot()), AcceptRequest(jid))
    {
      SetStatusOfFirst(jid, PRINTING, PRINTING);
      resp := Redirect(STAFF_PAGE);
    }

    /** `complete_job`. */
    method CompleteJob(jid: nat) returns (resp: Response)
      requires Valid()
      modifies this
      ensures Valid()
      ensures (Snapshot(), resp) == Step(old(Snapshot()), CompleteRequest(jid))
    {
      SetStatusOfFirst(jid, READY_FOR_PICKUP, READY_NOTICE);
      resp := Redirect(STAFF_PAGE);
    }

    /** `reject_job`. */
    method RejectJob(jid: nat) returns (resp: Response)
      requires Valid()
      modifies this
      ensures Valid()
      ensures (Snapshot(), resp) == Step(old(Snapshot()), RejectRequest(jid))
    {
      SetStatusOfFirst(jid, REJECTED, REJECTED);
      resp := Redirect(STAFF_PAGE);
    }
  }
}
