/** The live `ReposController` (libs/repos): it talks to the injected lazy
    Temporal client, turns the client's "temporal-unavailable" sentinel into a
    503 and every other failure into the running / 422 / 500 cases. */
module ReposController {
  import opened Common
  import opened CloneTypes
  import opened TemporalClient
  import opened HttpApi

  const TemporalUnavailable := HttpException(ServiceUnavailable, "temporal unavailable", None)

  /** `raiseTemporalUnavailable`: a thrown value whose string message is
      exactly the sentinel becomes a 503; anything else passes through. */
  function RaiseTemporalUnavailable(e: Thrown): (r: Option<HttpException>)
    ensures r.Some? <==> e.message == Some(Unavailable)
    ensures r.Some? ==> r.value.status == 503 && r.value.detail.None?
  {
    if e.message == Some(Unavailable) then Some(TemporalUnavailable) else None
  }

  /** `startClone(dto)`: started with the handle's id, or an exception; the
      handler never lets an error escape. */
  function StartClone(temporal: ClientApi, dto: CloneDto): (r: Reply)
    ensures !r.Propagate?
    ensures r.Respond? <==> temporal.startClone(CloneInput(dto.repoUrl, dto.ref)).Ok?
    ensures r.Respond? ==>
      r.body == Started(temporal.startClone(CloneInput(dto.repoUrl, dto.ref)).value.workflowId)
    ensures r.Raise? ==>
      var e := temporal.startClone(CloneInput(dto.repoUrl, dto.ref)).error;
      (e.message == Some(Unavailable) ==> r.exception == TemporalUnavailable) &&
      (e.message != Some(Unavailable) ==> r.exception == FailedToStart(e))
  {
    match temporal.startClone(CloneInput(dto.repoUrl, dto.ref))
    case Ok(handle) => Respond(Started(handle.workflowId))
    case Err(e) =>
      match RaiseTemporalUnavailable(e)
      case Some(x) => Raise(x)
      case None => Raise(FailedToStart(e))
  }

  /** The status name `describe()` yields once its own failures are caught:
      the sentinel is raised as a 503, any other failure means no status. */
  function DescribedStatus(d: Result<string, Thrown>): (r: Result<Option<string>, HttpException>)
    ensures r.Err? <==> d.Err? && d.error.message == Some(Unavailable)
    ensures r.Err? ==> r.error == TemporalUnavailable
    ensures r.Ok? ==> (r.value.Some? <==> d.Ok?) && (d.Ok? ==> r.value == Some(d.value))
  {
    match d
    case Ok(name) => Ok(Some(name))
    case Err(err) =>
      match RaiseTemporalUnavailable(err)
      case Some(x) => Err(x)
      case None => Ok(None)
  }

  /** `getCloneStatus(id)`: the handle is taken from the client, its result is
      awaited with `followRuns: false`, and on failure the status is described
      unless the failure was the sentinel. */
  function GetCloneStatus(temporal: ClientApi, id: string): (h: Handled)
    ensures !h.reply.Propagate?
    ensures |h.calls| >= 2 && h.calls[..2] == [GetHandleCall(id), ResultCall(PollOptions)]
    ensures h.reply.Respond? && h.reply.body.Completed? <==>
      temporal.getHandle(id).result(PollOptions).Ok?
    ensures h.reply.Respond? && h.reply.body.Completed? ==>
      h.reply.body == Completed(id, temporal.getHandle(id).result(PollOptions).value.sha)
    ensures DescribeCall in h.calls <==>
      temporal.getHandle(id).result(PollOptions).Err? &&
      temporal.getHandle(id).result(PollOptions).error.message != Some(Unavailable)
    ensures h.calls == [GetHandleCall(id), ResultCall(PollOptions)] || h.calls == [GetHandleCall(id), ResultCall(PollOptions), DescribeCall]
  {
    var handle := temporal.getHandle(id);
    match handle.result(PollOptions)
    case Ok(r) => Handled(Respond(Completed(id, r.sha)), [GetHandleCall(id), ResultCall(PollOptions)])
    case Err(e) =>
      match RaiseTemporalUnavailable(e)
      case Some(x) => Handled(Raise(x), [GetHandleCall(id), ResultCall(PollOptions)])
      case None =>
        var calls := [GetHandleCall(id), ResultCall(PollOptions), DescribeCall];
        match DescribedStatus(handle.describe)
        case Err(x) => Handled(Raise(x), calls)
        case Ok(status) => Handled(AfterFailure(id, e, status), calls)
  }

  /** Poll outcomes: an unavailable server is a 503 whichever call reports it,
      and a running workflow is reported as running even when the result
      failed with a ref-not-found message. */
  lemma StatusCases(temporal: ClientApi, id: string)
    ensures var h := temporal.getHandle(id);
      h.result(PollOptions).Err? && h.result(PollOptions).error.message == Some(Unavailable) ==>
        GetCloneStatus(temporal, id).reply == Raise(TemporalUnavailable)
    ensures var h := temporal.getHandle(id);
      h.result(PollOptions).Err? && h.result(PollOptions).error.message != Some(Unavailable) &&
      h.describe.Err? && h.describe.error.message == Some(Unavailable) ==>
        GetCloneStatus(temporal, id).reply == Raise(TemporalUnavailable)
    ensures var h := temporal.getHandle(id);
      h.result(PollOptions).Err? && h.result(PollOptions).error.message != Some(Unavailable) &&
      h.describe == Ok("RUNNING") ==>
        GetCloneStatus(temporal, id).reply == Respond(Running(id))
    ensures var h := temporal.getHandle(id);
      h.result(PollOptions).Err? && h.result(PollOptions).error.message != Some(Unavailable) &&
      h.describe != Ok("RUNNING") &&
      !(h.describe.Err? && h.describe.error.message == Some(Unavailable)) ==>
        GetCloneStatus(temporal, id).reply.Raise? &&
        (GetCloneStatus(temporal, id).reply.exception.status == 422 <==>
           MentionsRefNotFound(h.result(PollOptions).error))
    ensures var h := temporal.getHandle(id);
      h.result(PollOptions).Err? && h.result(PollOptions).error.message != Some(Unavailable) &&
      !(h.describe.Err? && h.describe.error.message == Some(Unavailable)) ==>
        GetCloneStatus(temporal, id).reply ==
          AfterFailure(id, h.result(PollOptions).error, if h.describe.Ok? then Some(h.describe.value) else None)
  {
  }

  /** A failed workflow whose error reads "Ref not found…" is an invalid ref
      (422) carrying the original message, whatever the case of its first
      letter. */
  lemma RefNotFoundIsInvalidRef(temporal: ClientApi, id: string, tail: string)
    requires temporal.getHandle(id).result(PollOptions) == Err(Thrown(Some("Ref not found" + tail)))
    requires temporal.getHandle(id).describe == Ok("FAILED")
    ensures GetCloneStatus(temporal, id).reply ==
      Raise(HttpException(422, "invalid ref", Some("Ref not found" + tail)))
  {
    var m := "Ref not found" + tail;
    assert m[0] == 'R' && Unavailable[0] == 't';
    RefNotFoundIgnoresCase(tail);
  }
}
