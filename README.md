# PrintFlow print-job queue, modelled in Dafny

PrintFlow is a small Flask application. Students upload a document with print options, and staff work through the uploads on a dashboard. Its real logic is an in-memory queue of job records, kept newest first, plus the route handlers that change it. There are two variants:

- `printflow_advanced.py`:
  - an upload gets a random id in 1000..9999 and goes to the head of the queue as `Queued`;
  - staff can rename a job's logical file name, keeping its old extension (`os.path.splitext`, `str.endswith`);
  - staff can reject a job.
- `printflow_firebase.py`:
  - an upload takes the next ticket of a counter that starts at 1001;
  - staff accept (`Printing`), complete (`Ready for Pickup`) or reject (`Rejected`) a job;
  - every successful upload and every matched staff action calls a notification hook.

The handlers check no status. The dashboards decide which buttons a row shows.

Modules:

- `Lookup` (lookup.dfy): the first-match search that every staff handler's `for … break` loop performs.
- `PathExt` (path_ext.dfy): `str.rfind`, the extension half of `os.path.splitext` on POSIX paths, `str.endswith`, and the rename fix-up.
- `Advanced` (advanced.dfy):
  - value-level functions for each handler;
  - a `JobQueue` class whose methods (`HandleUpload`, `StaffRename`, `StaffReject`) run the handlers' loops on a `seq` field and are proved equal to those functions;
  - the dashboard's button table, and what pressing only offered buttons guarantees.
- `Firebase` (firebase.dfy):
  - the state (`job_queue`, `NEXT_TICKET_ID`, and a ghost log of notifications);
  - one step function per request, and runs of requests;
  - a `JobQueue` class with `Upload`, `AcceptJob`, `CompleteJob`, `RejectJob` and `Home`;
  - the counter and notification invariants;
  - the lifecycle that offered buttons enforce.

Status strings, form field names and form values are kept verbatim. That includes the advanced colour value `"  Color"` and the two distinct strings `"Ready for Pickup"` (stored) and `"Ready"` (notified).

## Model

| member | source | states |
|---|---|---|
| `Lookup.FirstIndex` | printflow_advanced.py:227-228 | the search stops at the first job with the id: none exactly when the id is absent, otherwise a position holding the id with no earlier occurrence |
| `Lookup.FirstIndexOfDistinct` | printflow_firebase.py:216-217 | when ids are distinct, the first match is the only match |
| `PathExt.RFind` | printflow_advanced.py:231 | `rfind`: -1 exactly when the character is absent, otherwise an index holding it with none after it |
| `PathExt.Ext` | printflow_advanced.py:231 | the extension is empty or a suffix of the path that starts with '.' and contains no further '.' and no '/' |
| `PathExt.ExtSound` | printflow_advanced.py:231 | a non-empty extension starts at the last '.', with no '/' after it and a non-dot earlier in the same path component |
| `PathExt.ExtComplete` | printflow_advanced.py:231 | wherever that description places an extension start, `Ext` finds a non-empty extension |
| `PathExt.ExtMatchesReference` | printflow_advanced.py:231 | both directions: `Ext` is non-empty exactly when such an extension start exists, and it starts there |
| `PathExt.ExtOfDotFile` | printflow_advanced.py:231 | a name whose dots all lead (".bashrc") has no extension |
| `PathExt.ExtOfTrailingDot` | printflow_advanced.py:231 | "a." has the extension "." |
| `PathExt.ExtOfDoubleExtension` | printflow_advanced.py:231 | only the last suffix counts ("notes.tar.gz" gives ".gz") |
| `PathExt.ExtIgnoresDirectories` | printflow_advanced.py:231 | a dot in a directory name is not an extension |
| `PathExt.EndsWithIffConcat` | printflow_advanced.py:232 | `EndsWith`, the model of `str.endswith`, holds exactly when the string is some string followed by the suffix |
| `PathExt.KeepExtension` | printflow_advanced.py:231-233 | the fixed-up name is either the new name or the new name followed by the extension; it ends with the extension, extends the new name by at most the extension, and equals the new name exactly when that already ended with the extension (so an empty extension leaves it as given) |
| `PathExt.KeepExtensionIdempotent` | printflow_advanced.py:231-233 | applying the fix-up twice equals applying it once |
| `PathExt.RenameKeepsExtension` | printflow_advanced.py:231-235 | when the old file name has a non-empty extension and the new name is non-empty, has no '/' and does not start with '.', the renamed file has the original extension again (without these conditions the claim fails: `""` with `.pdf` gives `".pdf"`, which has no extension) |
| `PathExt.RenameEssayToReport` | printflow_advanced.py:231-233 | renaming "essay.pdf" to "report" gives "report.pdf" |
| `PathExt.KeepExtensionKeepsExtendedName` | printflow_advanced.py:232 | a new name that already ends with the extension ("report.pdf") is kept as given |
| `PathExt.KeepExtensionIsCaseSensitive` | printflow_advanced.py:232 | the comparison is case-sensitive: "Report.PDF" becomes "Report.PDF.pdf" |
| `Advanced.Upload` | printflow_advanced.py:198-219 | no file part or an empty file name leaves the queue unchanged with the matching refusal; a missing form key is a 400 with the queue unchanged; otherwise the queue becomes the new job followed by the old queue, and the new job has the drawn id, status `Queued`, the uploaded file name and every form value verbatim; ids in range and statuses in {Queued, Rejected} are preserved |
| `Advanced.JobQueue.HandleUpload` | printflow_advanced.py:196-221 | for a drawn id in 1000..9999 the handler's new queue and answer are those of `Upload`, and the queue invariant holds |
| `Advanced.Renamed` | printflow_advanced.py:227-236 | the length and ids are unchanged; only file names change; only the first job with the id (the newest) can change, and it gets the fixed-up name ending in its old extension; an unknown id changes nothing |
| `Advanced.JobQueue.StaffRename` | printflow_advanced.py:223-238 | without `new_name` the answer is a 400 and nothing changes; otherwise the search loop leaves exactly `Renamed` of the old queue and redirects to the dashboard |
| `Advanced.Rejected` | printflow_advanced.py:242-245 | the length and ids are unchanged; only statuses change; only the first job with the id changes, and it becomes `Rejected` whatever its status was; an unknown id changes nothing |
| `Advanced.JobQueue.StaffReject` | printflow_advanced.py:240-246 | the search loop leaves exactly `Rejected` of the old queue and redirects to the dashboard |
| `Advanced.RejectIdempotent` | printflow_advanced.py:242-245 | rejecting the same id twice is rejecting it once |
| `Advanced.OfferedActions` | printflow_advanced.py:151-162 | a row offers buttons exactly when its status is `Queued`, and then offers both rename and reject |
| `Advanced.StaffStep` | printflow_advanced.py:223-246 | a staff request keeps the length and ids of the queue and can change only the first job with the posted id |
| `Advanced.OfferedActionTouchesOnlyItsRow` | printflow_advanced.py:151-162 | with distinct ids, one request posted by a button shown in a row changes no other row, so that request leaves every `Rejected` job's file name and status as they were |
| `Advanced.DuplicateIdRenamesRejectedJob` | printflow_advanced.py:207 | after two uploads that draw the same id, pressing only offered buttons renames a `Rejected` job |
| `Advanced.FreshUpload` | printflow_advanced.py:207 | the corrected upload refuses an id already in the queue, otherwise acts like `Upload`, and keeps ids distinct |
| `Firebase.WfTickets` | printflow_firebase.py:200-209 | in every state reachable by requests handled one at a time, tickets in the queue are distinct, strictly decreasing from head to tail, between 1001 and below the counter, and the head holds the latest ticket |
| `Firebase.AfterUpload` | printflow_firebase.py:195-211 | a missing file part or form key ends in the trapped `KeyError` (the debugger's 500 page, since the server runs with `debug=True`) and an empty file name is refused, each with queue, counter and log unchanged; otherwise the new job is at the head with the current ticket, status `Queued` and student/paper/colour/file name verbatim; the counter grows by one and exactly one notification (ticket, `Queued`, student) is logged; the reachable-state invariant is preserved |
| `Firebase.JobQueue.Upload` | printflow_firebase.py:192-212 | the handler's new state and answer are those of `AfterUpload` |
| `Firebase.AfterTransition` | printflow_firebase.py:216-220 | counter, length and ids are unchanged; only statuses change; only the first job with the ticket changes, and it gets the new status whatever it had, with exactly one notification (ticket, reported status, student) logged; an unknown ticket changes nothing and logs nothing |
| `Firebase.TransitionKeepsOtherTickets` | printflow_firebase.py:216-220 | a staff transition leaves every job whose ticket differs from the posted one exactly as it was |
| `Firebase.JobQueue.SetStatusOfFirst` | printflow_firebase.py:216-220 | the search-and-set loop leaves exactly `AfterTransition` of the old state |
| `Firebase.JobQueue.AcceptJob` | printflow_firebase.py:214-221 | accept stores and reports `Printing` on the first match and redirects to the dashboard |
| `Firebase.JobQueue.CompleteJob` | printflow_firebase.py:223-230 | complete stores `Ready for Pickup` and reports `Ready` on the first match |
| `Firebase.JobQueue.RejectJob` | printflow_firebase.py:232-239 | reject stores and reports `Rejected` on the first match |
| `Firebase.Step` | printflow_firebase.py:192-239 | every request keeps the reachable-state invariant |
| `Firebase.CompleteStoresOneStatusAndReportsAnother` | printflow_firebase.py:227-228 | after `complete_job` on a known ticket, the stored status is `Ready for Pickup`, the last notification says `Ready`, and the two differ |
| `Firebase.Run` | printflow_firebase.py:19-20 | any sequence of requests keeps the reachable-state invariant |
| `Firebase.RunCounts` | printflow_firebase.py:201-211 | over any run, the counter advances by the number of successful uploads and the log only grows, by one entry per notifying request |
| `Firebase.TicketCounterCountsUploads` | printflow_firebase.py:20 | from start-up, `NEXT_TICKET_ID` is 1001 plus the number of successful uploads, which is also the length of the queue, and the log has one entry per notifying request |
| `Firebase.OfferedActions` | printflow_firebase.py:150-163 | accept and reject are offered exactly for `Queued`, complete exactly for `Printing` |
| `Firebase.TerminalStatusesAreFinal` | printflow_firebase.py:150-163 | nothing on the lifecycle follows `Ready for Pickup` or `Rejected` |
| `Firebase.UploadKeepsStatuses` | printflow_firebase.py:208 | an upload leaves every earlier job's status in place, and the new job is `Queued` |
| `Firebase.TransitionAlongEdge` | printflow_firebase.py:216-240 | when tickets are distinct and the stored status follows a lifecycle edge from the status of the job holding the ticket, every status stays or moves along that edge |
| `Firebase.OfferedActionMovesAlongEdge` | printflow_firebase.py:150-163 | an offered staff button keeps the queue length and moves each status only along one lifecycle edge |
| `Firebase.OfferedActionFollowsEdge` | printflow_firebase.py:150-163 | an offered staff button keeps the queue length, leaves every row with another ticket exactly as it was, and moves each status only along one lifecycle edge |
| `Firebase.OfferedStepFollowsLifecycle` | printflow_firebase.py:150-163 | an offered request moves each job along at most one edge of Queued→Printing→Ready for Pickup / Queued→Rejected |
| `Firebase.OfferedRunFollowsLifecycle` | printflow_firebase.py:150-163 | over a run of offered requests, each job ends at a status its starting status reaches, so terminal statuses are never left, and every job uploaded during the run is on a path from `Queued` |
| `Firebase.JobQueue.Home` | printflow_firebase.py:181 | the head of the queue or none when it is empty; in a reachable state the head carries the latest ticket, the largest in the queue |
| `Firebase.JobQueue.constructor` | printflow_firebase.py:19-20 | start-up: an empty queue, counter 1001, no notifications |
| `Advanced.JobQueue.constructor` | printflow_advanced.py:19 | start-up: an empty queue |
| `Firebase.TrackerAsWrittenGoesDark` | printflow_firebase.py:61-67 | the student tracker as written (`TrackerAsWritten`, the template's three `'Ready'` tests) lights two dots for `Printing` and none for `Ready for Pickup`, which follows it |
| `Firebase.TrackerFixedFollowsLifecycle` | printflow_firebase.py:61-67 | the tracker testing `Ready for Pickup` never darkens a dot along the lifecycle (except on rejection) and lights all three when the job is ready |

## Left out

- Flask routing, request parsing and the HTML templates are not modelled. A request becomes an optional file part plus a `map` of form fields. An answer becomes a small `Response` datatype. Only the dashboards' status-to-buttons tables and the tracker's status tests are kept.
- Filesystem effects are left out: `os.makedirs`, `file.save`, serving files. The rename handler never touches the stored file anyway. Uploads are not refused on duplicate names.
- `random.randint(1000, 9999)` becomes a caller-supplied id in that range, and `datetime.now()` becomes an opaque `Timestamp` parameter.
- `sync_to_firebase` only prints. The model keeps the tuple (ticket, status, student) in a ghost log and drops the message text.
- Browser launch (`webbrowser`, `Timer`, `threading`, `time.sleep`) and `app.run` are left out: they are I/O and concurrency.
- Advanced.Upload, Firebase.AfterUpload: assume `file.save` always succeeds (printflow_advanced.py:203, printflow_firebase.py:198). It can raise, for example when the client's file name names a missing subdirectory or the folder cannot be written. The request then ends with a 500 before the job is inserted, and in the firebase variant before the ticket is taken. The model has no such outcome, so "an upload succeeds exactly when the file, the name and the form keys are present" holds only when saving works.
- Firebase.WfTickets: assumes requests are handled one at a time. `app.run` (printflow_firebase.py:252) serves each request on its own thread by default. Two uploads interleaved between reading `NEXT_TICKET_ID` (line 201) and incrementing it (line 209) can take the same ticket. The model runs requests in sequence (`Step`, `Run`), so distinct tickets are proved only for sequential handling.
- The pages that only render the queue (`staff_interface`, `staff`, `student_interface`) are left out. So is the advanced badge CSS class, which is presentation only.
- Job dictionaries are modelled as values in a `seq` field. A handler mutates the dictionary it found in the list, and no other reference to it outlives a request, so aliasing is not observable.
- `splitext` is modelled with POSIX semantics ('/' is the only separator). The Windows variant also splits at '\\' and drive letters.
- A file part whose file name is missing altogether (not `''`) is not modelled. Every uploaded file has a string name.
- Flask's `<int:…>` converter accepts only non-negative digits, so route ids are `nat`.
- The code checks no transition or rename preconditions. So the model's handlers store their status whatever the current one is, and the ordering guarantees are stated only for offered buttons. The idealised error cases of a clean rewrite are not properties of this code and are not asserted: invalid transitions, duplicate names, atomic physical rename, storage errors.
- "Offered" (`Advanced.OfferedAt`, `Firebase.Offered`) means offered by the current state. A real button was rendered on an earlier page, and the staff page reloads only every 5 seconds (printflow_firebase.py:105). A stale Reject posted after an Accept moves `Printing` to `Rejected`. The lifecycle lemmas therefore say nothing about stale buttons.
- Advanced.OfferedActionTouchesOnlyItsRow: assumes the ids in the queue are distinct. The code does not guarantee that, and `Advanced.DuplicateIdRenamesRejectedJob` shows the claim fails without it.

## Findings

| source | as written | input that shows it | evidently intended | confidence | as-written member | corrected member |
|---|---|---|---|---|---|---|
| printflow_advanced.py:207 | ids are drawn with `random.randint(1000, 9999)` without looking at the queue; dashboard buttons post only the id, and the handlers act on the first job with that id | upload "a.pdf" and then "b.pdf", both drawing 5000; press reject on the newer row; the older row still offers rename, and pressing it renames the rejected "b.pdf" job | a button acts on the job of its own row, which needs distinct ids | not executed; needs an id collision | `Advanced.DuplicateIdRenamesRejectedJob` | `Advanced.FreshUpload` |
| printflow_firebase.py:61-67 | the student tracker lights its dots for the status `'Ready'`, which no handler stores (`complete_job` stores `'Ready for Pickup'`) | complete a printing job: the tracker goes from two lit dots to none | the tracker lights all three dots for `'Ready for Pickup'` | not executed | `Firebase.TrackerAsWrittenGoesDark` | `Firebase.TrackerFixedFollowsLifecycle` |
