/** The older `ReposController` (apps/api): it connects through its own
    `temporalClient()` on every request, reports every start failure as a
    500, swallows `describe()` failures and has no 503. */
module ApiReposController {
  import opened Common
  import opened CloneTypes
  import opened TemporalClient
  import opened HttpApi
  import ReposController

  /** `startClone(dto)`: a failure to connect and a failure to start are both
      inside the `try`, so both become "failed to start workflow". */
  function StartClone(connect: Result<ClientApi, Thrown>, dto: CloneDto): (r: Reply)
    ensures !r.Propagate?
    ensures r.Respond? <==> connect.Ok? && connect.value.startClone(CloneInput(dto.repoUrl, dto.ref)).Ok?
    ensures r.Respond? ==>
      r.body == Started(connect.value.startClone(CloneInput(dto.repoUrl, dto.ref)).value.workflowId)
    ensures r.Raise? ==> r.exception.status == 500 && r.exception.message == "failed to start workflow"
    ensures connect.Err? ==> r == Raise(FailedToStart(connect.error))
    ensures connect.Ok? && connect.value.startClone(CloneInput(dto.repoUrl, dto.ref)).Err? ==>
      r == Raise(FailedToStart(connect.value.startClone(CloneInput(dto.repoUrl, dto.ref)).error))
  {
    match connect
    case Err(e) => Raise(FailedToStart(e))
    case Ok(client) =>
      match client.startClone(CloneInput(dto.repoUrl, dto.ref))
      case Ok(handle) => Respond(Started(handle.workflowId))
      case Err(e) => Raise(FailedToStart(e))
  }

  /** `getCloneStatus(id)`: the connection is awaited before the `try`, so a
      failure to connect escapes the handler and no handle is taken. */
  function GetCloneStatus(connect: Result<ClientApi, Thrown>, id: string): (h: Handled)
    ensures h.reply.Propagate? <==> connect.Err?
    ensures h.reply.Propagate? ==> h.reply.thrown == connect.error && h.calls == []
    ensures connect.Ok? ==> |h.calls| >= 2 && h.calls[..2] == [GetHandleCall(id), ResultCall(PollOptions)]
    ensures connect.Ok? ==>
      (h.reply.Respond? && h.reply.body.Completed? <==> connect.value.getHandle(id).result(PollOptions).Ok?)
    ensures DescribeCall in h.calls <==> connect.Ok? && connect.value.getHandle(id).result(PollOptions).Err?
    ensures h.reply.Raise? ==> h.reply.exception.status in {422, 500}
    ensures connect.Ok? && connect.value.getHandle(id).result(PollOptions).Ok? ==>
      h.reply == Respond(Completed(id, connect.value.getHandle(id).result(PollOptions).value.sha)) &&
      h.calls == [GetHandleCall(id), ResultCall(PollOptions)]
    ensures connect.Ok? && connect.value.getHandle(id).result(PollOptions).Err? ==>
      h.calls == [GetHandleCall(id), ResultCall(PollOptions), DescribeCall]
    ensures connect.Ok? && connect.value.getHandle(id).result(PollOptions).Err? ==>
      var handle := connect.value.getHandle(id);
      h.reply == AfterFailure(id, handle.result(PollOptions).error,
                              if handle.describe.Ok? then Some(handle.describe.value) else None)
  {
    match connect
    case Err(e) => Handled(Propagate(e), [])
    case Ok(client) =>
      var handle := client.getHandle(id);
      match handle.result(PollOptions)
      case Ok(r) => Handled(Respond(Completed(id, r.sha)), [GetHandleCall(id), ResultCall(PollOptions)])
      case Err(e) =>
        var status := if handle.describe.Ok? then Some(handle.describe.value) else None;
        Handled(AfterFailure(id, e, status), [GetHandleCall(id), ResultCall(PollOptions), DescribeCall])
  }

  /** The two controllers answer a poll alike whenever the sentinel appears in
      neither the result's nor the description's failure. */
  lemma SameStatusWithoutSentinel(temporal: ClientApi, id: string)
    requires var h := temporal.getHandle(id);
      !(h.result(PollOptions).Err? && h.result(PollOptions).error.message == Some(Unavailable)) &&
      !(h.describe.Err? && h.describe.error.message == Some(Unavailable))
    ensures ReposController.GetCloneStatus(temporal, id) == GetCloneStatus(Ok(temporal), id)
  {
  }

  /** Starting a clone: the two controllers differ only on the sentinel,
      which the live one reports as a 503 and the older one as a 500 whose
      detail is the sentinel itself. */
  lemma StartCloneVariants(temporal: ClientApi, dto: CloneDto)
    ensures var s := temporal.startClone(CloneInput(dto.repoUrl, dto.ref));
      !(s.Err? && s.error.message == Some(Unavailable)) ==>
        ReposController.StartClone(temporal, dto) == StartClone(Ok(temporal), dto)
    ensures var s := temporal.startClone(CloneInput(dto.repoUrl, dto.ref));
      s.Err? && s.error.message == Some(Unavailable) ==>
        ReposController.StartClone(temporal, dto).exception.status == 503 &&
        StartClone(Ok(temporal), dto).exception == HttpException(500, "failed to start workflow", Some(Unavailable))
  {
  }

  /** Where the two controllers part: when both the result and the
      description fail with the sentinel, the older controller swallows the
      description's failure and reports a generic 500 carrying the sentinel,
      while the live one answers 503 without asking for a description. */
  lemma SentinelPollVariants(temporal: ClientApi, id: string)
    requires temporal.getHandle(id).result(PollOptions) == Err(Thrown(Some(Unavailable)))
    requires temporal.getHandle(id).describe == Err(Thrown(Some(Unavailable)))
    ensures GetCloneStatus(Ok(temporal), id).reply ==
      Raise(HttpException(500, "workflow failed", Some("temporal-unavailable")))
    ensures ReposController.GetCloneStatus(temporal, id) ==
      Handled(Raise(ReposController.TemporalUnavailable), [GetHandleCall(id), ResultCall(PollOptions)])
  {
    SentinelIsNotRefNotFound(Unavailable);
  }
}
