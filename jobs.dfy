/** Time ranges, job creation, scheduling and listing (jobs.go). */
module Jobs {
  import opened Wrappers
  import opened Text
  import opened Models
  import opened Net
  import opened Customers

  /** The AssignTime every job and schedule request carries. */
  const AssignTime := "TimeRange"
  const TimeRangePath := "Job/GetTimeRange"
  const NewJobPath := "Job/CreateNewJob"
  const SchedulePath := "Job/SaveSchedule"
  const ListJobsPath := "Job/GetJob?"

  datatype TimeRange = TimeRange(id: string, text: string)

  datatype AssignmentDetail = AssignmentDetail(tripDetailsId: int, employeeId: int, employeeName: string)

  /** One trip of an assignment; the completion time is kept as the text it arrives as. */
  datatype TripEntry = TripEntry(tripDetailsId: int, employeeId: int, completionTime: string)

  datatype Assignment = Assignment(
    tripAssignmentId: int, tripNo: int, duration: int, timeRangeId: int,
    assignDateTime: string, timeRange: string,
    assignmentDetails: seq<AssignmentDetail>, tripList: seq<TripEntry>)

  datatype Job = Job(
    ticketId: int, issueDescription: string, ticketStatus: string, isActive: bool,
    customer: Customer, assignments: seq<Assignment>)

  datatype JobTech = JobTech(employeeId: int, isSupervisor: bool)

  /** The body of Job/CreateNewJob; `assignDateTime` is the target time already formatted. */
  datatype JobRequest = JobRequest(
    customerId: int, duration: int, timeRangeId: int,
    issueDescription: string, assignDateTime: string, assignTime: string)

  /** The body of Job/SaveSchedule. */
  datatype ScheduleRequest = ScheduleRequest(
    ticketId: int, tripAssignmentId: int, duration: int, timeRangeId: int, tripNo: int,
    issueDescription: string, assignDateTime: string, assignTime: string,
    technicians: seq<JobTech>)

  /** A body holding nothing but the envelope. */
  datatype StatusResponse = StatusResponse(apiStatus: ApiStatus)

  /** The tail shared by JobsListTimeRanges and ListJobs: the error or the error object come
      back with no records; otherwise the records come back whatever the envelope says, next
      to the envelope's verdict wrapped in `detail` (the JSON text wrapErr adds). */
  function Listed<X>(r: Reply<ListResponse<X>>, detail: string): (res: (seq<X>, Option<Failure>))
    requires Complete(r)
    ensures Screened(r).Some? ==> res == ([], Screened(r))
    ensures Screened(r).None? ==>
      var verdict := StatusError(Some(r.out.value.apiStatus));
      && res.0 == r.out.value.items
      && (res.1.None? <==> verdict.None?)
      && (res.1.Some? ==> res.1.value.cause == verdict.value.cause && res.1.value.context == [detail])
  {
    match Screened(r)
    case Some(f) => ([], Some(f))
    case None => (r.out.value.items, Wrap(StatusError(Some(r.out.value.apiStatus)), detail))
  }

  /** A listing that finds nothing is not an error: status 0 with "No Jobs Found", in any case,
      gives back the (empty or not) records and no error, while any other message under
      status 0 is reported. */
  lemma NoJobsIsNoError(jobs: seq<Job>, message: string, errors: string, detail: string)
    ensures
      var r := Reply(None, None, Some(ListResponse(ApiStatus(0, message, errors), jobs)));
      Listed(r, detail) == (jobs, None) <==> EqualFold(message, NoJobsFound)
  {
    var r := Reply(None, None, Some(ListResponse(ApiStatus(0, message, errors), jobs)));
    assert Screened(r).None?;
  }

  /** How JobCreate goes on after the first reply: stop with an error, or schedule the first
      assignment of the first job. */
  datatype CreateStep = Halted(failure: Failure) | Proceed(job: Job, assignment: Assignment)

  function Creation(r: Reply<ListResponse<Job>>, detail: string): (s: CreateStep)
    requires Complete(r)
    ensures Screened(r).Some? ==> s == Halted(Screened(r).value)
    ensures s.Proceed? <==>
      && Screened(r).None? && StatusError(Some(r.out.value.apiStatus)).None?
      && r.out.value.items != [] && r.out.value.items[0].assignments != []
    ensures s.Proceed? ==> s.job == r.out.value.items[0] && s.assignment == s.job.assignments[0]
    ensures Screened(r).None? && StatusError(Some(r.out.value.apiStatus)).Some? ==>
      s.Halted? && s.failure.cause == StatusError(Some(r.out.value.apiStatus)).value.cause
      && s.failure.context == [detail]
    ensures Screened(r).None? && StatusError(Some(r.out.value.apiStatus)).None? ==>
      && (r.out.value.items == [] ==> s == Halted(Failure(NoJobsBack, [detail])))
      && (r.out.value.items != [] && r.out.value.items[0].assignments == [] ==>
            s == Halted(Failure(NoAssignmentsBack, [detail])))
  {
    match Screened(r)
    case Some(f) => Halted(f)
    case None =>
      var resp := r.out.value;
      var err := Wrap(StatusError(Some(resp.apiStatus)), detail);
      if err.Some? then Halted(err.value)
      else if |resp.items| == 0 then Halted(Wrap(Some(New(NoJobsBack)), detail).value)
      else if |resp.items[0].assignments| == 0 then Halted(Wrap(Some(New(NoAssignmentsBack)), detail).value)
      else Proceed(resp.items[0], resp.items[0].assignments[0])
  }

  /** The tail of JobUpdate: the error or the error object, else the envelope's verdict
      wrapped in `detail`. */
  function Scheduled(r: Reply<StatusResponse>, detail: string): (err: Option<Failure>)
    requires Complete(r)
    ensures Screened(r).Some? ==> err == Screened(r)
    ensures Screened(r).None? ==>
      var verdict := StatusError(Some(r.out.value.apiStatus));
      && (err.None? <==> verdict.None?)
      && (err.Some? ==> err.value.cause == verdict.value.cause && err.value.context == [detail])
  {
    match Screened(r)
    case Some(f) => Some(f)
    case None => Wrap(StatusError(Some(r.out.value.apiStatus)), detail)
  }

  /** The request JobCreate posts first. */
  function NewJobRequest(customerId: int, duration: int, timeRangeId: int, issueDesc: string,
                         target: string): (req: JobRequest)
    ensures req.customerId == customerId && req.duration == duration && req.timeRangeId == timeRangeId
    ensures req.issueDescription == issueDesc && req.assignDateTime == target && req.assignTime == AssignTime
  {
    JobRequest(customerId, duration, timeRangeId, issueDesc, target, AssignTime)
  }

  /** The request JobUpdate posts: the trip it schedules, no description, and one technician
      per employee id, in order, the first of them the supervisor. */
  ghost predicate IsScheduleRequest(req: ScheduleRequest, ticketId: int, tripAssignId: int, duration: int,
                                    timeRangeId: int, tripNo: int, target: string, employeeIds: seq<int>) {
    && req.ticketId == ticketId && req.tripAssignmentId == tripAssignId && req.duration == duration
    && req.timeRangeId == timeRangeId && req.tripNo == tripNo
    && req.issueDescription == "" && req.assignDateTime == target && req.assignTime == AssignTime
    && |req.technicians| == |employeeIds|
    && forall i :: 0 <= i < |employeeIds| ==> req.technicians[i] == JobTech(employeeIds[i], i == 0)
  }

  /** Build the schedule request: append a technician per id, then promote the first. */
  method NewScheduleRequest(ticketId: int, tripAssignId: int, duration: int, timeRangeId: int, tripNo: int,
                            target: string, employeeIds: seq<int>)
    returns (req: ScheduleRequest)
    ensures req.ticketId == ticketId && req.tripAssignmentId == tripAssignId && req.duration == duration
    ensures req.timeRangeId == timeRangeId && req.tripNo == tripNo
    ensures req.issueDescription == "" && req.assignDateTime == target && req.assignTime == AssignTime
    ensures |req.technicians| == |employeeIds|
    ensures forall i :: 0 <= i < |employeeIds| ==> req.technicians[i].employeeId == employeeIds[i]
    ensures forall i :: 0 <= i < |employeeIds| ==> (req.technicians[i].isSupervisor <==> i == 0)
  {
    req := ScheduleRequest(0, 0, 0, 0, 0, "", "", "", []);
    req := req.(ticketId := ticketId, tripAssignmentId := tripAssignId, assignDateTime := target);
    req := req.(duration := duration, assignTime := AssignTime, timeRangeId := timeRangeId, tripNo := tripNo);

    var techs: seq<JobTech> := [];
    for i := 0 to |employeeIds|
      invariant |techs| == i
      invariant forall j :: 0 <= j < i ==> techs[j] == JobTech(employeeIds[j], false)
    {
      techs := techs + [JobTech(employeeIds[i], false)];
    }

    if |techs| > 0 {
      techs := techs[0 := techs[0].(isSupervisor := true)];
    }
    req := req.(technicians := techs);
  }

  /** At most one technician supervises, and only an empty crew has none. */
  lemma OneSupervisor(req: ScheduleRequest, ticketId: int, tripAssignId: int, duration: int,
                      timeRangeId: int, tripNo: int, target: string, employeeIds: seq<int>)
    requires IsScheduleRequest(req, ticketId, tripAssignId, duration, timeRangeId, tripNo, target, employeeIds)
    ensures forall i, j :: 0 <= i < j < |req.technicians| ==>
              !(req.technicians[i].isSupervisor && req.technicians[j].isSupervisor)
    ensures (exists i :: 0 <= i < |req.technicians| && req.technicians[i].isSupervisor) <==> employeeIds != []
  {
    if employeeIds != [] {
      assert req.technicians[0].isSupervisor;
    }
  }

  /** JobsListTimeRanges: GET the time ranges jobs can be booked into. */
  method JobsListTimeRanges(sw: ServiceWorks, token: string, detail: string,
                            network: Network<ListResponse<TimeRange>>)
    returns (ranges: seq<TimeRange>, err: Option<Failure>, sent: Option<Request<()>>)
    modifies sw
    ensures sw.url == NormalizedUrl(old(sw.url))
    ensures (ranges, err) == Listed(SendReply(network, true, TimeRangePath), detail)
    ensures sent.Some? <==> network.rejected.None?
    ensures sent.Some? ==>
      && sent.value.verb == "GET" && sent.value.url == sw.url + "/" + TimeRangePath
      && sent.value.body.None? && CopiedFrom(map["Token" := token], sent.value.header)
  {
    var header := new Header();
    header.Put("Token", token);

    var reply;
    reply, sent := sw.Send("GET", TimeRangePath, header, None, true, network);
    ranges, err := Listed(reply, detail).0, Listed(reply, detail).1;
  }

  /** JobUpdate: schedule a trip of an existing job for the given employees. */
  method JobUpdate(sw: ServiceWorks, token: string, ticketId: int, tripAssignId: int, duration: int,
                   timeRangeId: int, tripNo: int, target: string, employeeIds: seq<int>, detail: string,
                   network: Network<StatusResponse>)
    returns (err: Option<Failure>, sent: Option<Request<ScheduleRequest>>)
    modifies sw
    ensures sw.url == NormalizedUrl(old(sw.url))
    ensures err == Scheduled(SendReply(network, true, SchedulePath), detail)
    ensures sent.Some? <==> network.rejected.None?
    ensures sent.Some? ==>
      && sent.value.verb == "POST" && sent.value.url == sw.url + "/" + SchedulePath
      && sent.value.body.Some?
      && IsScheduleRequest(sent.value.body.value, ticketId, tripAssignId, duration, timeRangeId, tripNo,
                           target, employeeIds)
      && CopiedFrom(map["Token" := token, ContentType := JsonContentType], sent.value.header)
  {
    var header := new Header();
    header.Put("Token", token);

    var req := NewScheduleRequest(ticketId, tripAssignId, duration, timeRangeId, tripNo, target, employeeIds);

    var reply;
    reply, sent := sw.Send("POST", SchedulePath, header, Some(req), true, network);
    err := Scheduled(reply, detail);
  }

  /** JobCreate: create the job, then schedule its first assignment for the employees. The
      job comes back whenever the scheduling call was reached, even when that call fails;
      `networkCreate` and `networkSchedule` answer the two calls. */
  method JobCreate(sw: ServiceWorks, token: string, issueDesc: string, customerId: int, duration: int,
                   timeRangeId: int, target: string, employeeIds: seq<int>,
                   detailCreate: string, detailSchedule: string,
                   networkCreate: Network<ListResponse<Job>>, networkSchedule: Network<StatusResponse>)
    returns (job: Option<Job>, err: Option<Failure>,
             sentCreate: Option<Request<JobRequest>>, sentSchedule: Option<Request<ScheduleRequest>>)
    modifies sw
    ensures sw.url == NormalizedUrl(old(sw.url))
    ensures sentCreate.Some? <==> networkCreate.rejected.None?
    ensures sentCreate.Some? ==>
      && sentCreate.value.verb == "POST" && sentCreate.value.url == sw.url + "/" + NewJobPath
      && sentCreate.value.body == Some(NewJobRequest(customerId, duration, timeRangeId, issueDesc, target))
      && CopiedFrom(map["Token" := token, ContentType := JsonContentType], sentCreate.value.header)
    ensures
      var step := Creation(SendReply(networkCreate, true, NewJobPath), detailCreate);
      && (step.Halted? ==> job.None? && err == Some(step.failure) && sentSchedule.None?)
      && (step.Proceed? ==>
            && job == Some(step.job)
            && err == Scheduled(SendReply(networkSchedule, true, SchedulePath), detailSchedule)
            && (sentSchedule.Some? <==> networkSchedule.rejected.None?)
            && (sentSchedule.Some? ==>
                  && sentSchedule.value.verb == "POST" && sentSchedule.value.url == sw.url + "/" + SchedulePath
                  && CopiedFrom(map["Token" := token, ContentType := JsonContentType], sentSchedule.value.header)
                  && sentSchedule.value.body.Some?
                  && IsScheduleRequest(sentSchedule.value.body.value, step.job.ticketId,
                                       step.assignment.tripAssignmentId, duration, timeRangeId,
                                       step.assignment.tripNo, target, employeeIds)))
  {
    var header := new Header();
    header.Put("Token", token);

    var req := NewJobRequest(customerId, duration, timeRangeId, issueDesc, target);

    var reply;
    reply, sentCreate := sw.Send("POST", NewJobPath, header, Some(req), true, networkCreate);
    var url := sw.url;

    match Creation(reply, detailCreate)
    case Halted(f) =>
      job, err, sentSchedule := None, Some(f), None;
    case Proceed(j, a) =>
      err, sentSchedule := JobUpdate(sw, token, j.ticketId, a.tripAssignmentId, duration, timeRangeId,
                                     a.tripNo, target, employeeIds, detailSchedule, networkSchedule);
      NormalizedUrlIdempotent(old(sw.url));
      assert sw.url == url;
      job := Some(j);
  }

  /** ListJobs: GET the jobs in a date range; `query` is the encoded fromdate/todate pair. */
  method ListJobs(sw: ServiceWorks, token: string, query: string, detail: string,
                  network: Network<ListResponse<Job>>)
    returns (jobs: seq<Job>, err: Option<Failure>, sent: Option<Request<()>>)
    modifies sw
    ensures sw.url == NormalizedUrl(old(sw.url))
    ensures (jobs, err) == Listed(SendReply(network, true, ListJobsPath + query), detail)
    ensures sent.Some? <==> network.rejected.None?
    ensures sent.Some? ==>
      && sent.value.verb == "GET" && sent.value.url == sw.url + "/" + ListJobsPath + query
      && sent.value.body.None? && CopiedFrom(map["Token" := token], sent.value.header)
  {
    var header := sw.DefaultHeader(token);

    var reply;
    reply, sent := sw.Send("GET", ListJobsPath + query, header, None, true, network);
    jobs, err := Listed(reply, detail).0, Listed(reply, detail).1;
  }
}
