/** What the two `ReposController`s exchange with the Temporal client and
    with their HTTP callers: awaited outcomes in, a response body or an
    `HttpException` out. */
module HttpApi {
  import opened Common
  import opened Text
  import opened CloneTypes
  import opened TemporalClient

  /** A thrown value as the controllers read it: its `message` when that is a
      string, nothing otherwise. */
  datatype Thrown = Thrown(message: Option<string>)

  /** A workflow handle as the controllers use it: its id, the outcome of
      `result(opts)` and the outcome of `describe()` (the status name). */
  datatype HandleApi = HandleApi(workflowId: string,
                                 result: ResultOptions -> Result<CloneResult, Thrown>,
                                 describe: Result<string, Thrown>)

  /** `TemporalClientApi`: `startClone(input)` and `getHandle(id)`. */
  datatype ClientApi = ClientApi(startClone: CloneInput -> Result<HandleApi, Thrown>,
                                 getHandle: string -> HandleApi)

  /** The `CloneDto` request body. */
  datatype CloneDto = CloneDto(repoUrl: string, ref: string)

  /** Response bodies. A completed body carries the sha and nothing else of the
      clone result. */
  datatype Body = Started(workflowId: string)
                | Running(workflowId: string)
                | Completed(workflowId: string, sha: string)

  /** `new HttpException({ message, detail/error }, status)`. */
  datatype HttpException = HttpException(status: nat, message: string, detail: Option<string>)

  /** How a handler ends: a body, an HTTP exception, or an error it does not
      catch. */
  datatype Reply = Respond(body: Body) | Raise(exception: HttpException) | Propagate(thrown: Thrown)

  /** The handle calls a status poll makes, in order. */
  datatype Call = GetHandleCall(id: string) | ResultCall(opts: ResultOptions) | DescribeCall

  datatype Handled = Handled(reply: Reply, calls: seq<Call>)

  const ServiceUnavailable: nat := 503
  const UnprocessableEntity: nat := 422
  const InternalServerError: nat := 500

  /** `{ followRuns: false }`, the options every poll awaits the result with. */
  const PollOptions := ResultOptions(Some(false))

  /** `e?.message ?? fallback` */
  function MessageOr(e: Thrown, fallback: string): string
  {
    e.message.GetOr(fallback)
  }

  /** `String(e?.message ?? "").toLowerCase().includes("ref not found")` */
  predicate MentionsRefNotFound(e: Thrown)
  {
    Contains(ToLower(MessageOr(e, "")), "ref not found")
  }

  function FailedToStart(e: Thrown): HttpException
  {
    HttpException(InternalServerError, "failed to start workflow", Some(MessageOr(e, "unknown")))
  }

  /** The common tail of both status handlers, once `result` has failed with
      `e` and `status` is the described status name, if any: running wins,
      then a ref-not-found message, then a generic failure. */
  function AfterFailure(id: string, e: Thrown, status: Option<string>): (r: Reply)
    ensures r.Respond? <==> status == Some("RUNNING")
    ensures r.Respond? ==> r.body == Running(id)
    ensures r.Raise? <==> status != Some("RUNNING")
    ensures r.Raise? && r.exception.status == 422 <==> status != Some("RUNNING") && MentionsRefNotFound(e)
    ensures r.Raise? && r.exception.status == 422 ==>
      r.exception == HttpException(422, "invalid ref", Some(MessageOr(e, "ref not found")))
    ensures r.Raise? && r.exception.status != 422 ==>
      r.exception == HttpException(500, "workflow failed", Some(MessageOr(e, "unknown")))
  {
    if status == Some("RUNNING") then Respond(Running(id))
    else if MentionsRefNotFound(e) then
      Raise(HttpException(UnprocessableEntity, "invalid ref", Some(MessageOr(e, "ref not found"))))
    else Raise(HttpException(InternalServerError, "workflow failed", Some(MessageOr(e, "unknown"))))
  }

  /** The phrase with a capital first letter lower-cases to the phrase.
      Stated on variables bound to the two literals, so that the proof goes
      character by character. */
  lemma CapitalisedPhrase(s: string, t: string)
    requires s == "Ref not found" && t == "ref not found"
    ensures ToLower(s) == t
  {
    ToLowerAt(s);
    forall i | 0 <= i < |s|
      ensures ToLower(s)[i] == t[i]
    {
      if i == 0 {
        assert s[i] == 'R';
      } else {
        assert !('A' <= s[i] <= 'Z') && s[i] == t[i];
      }
    }
  }

  /** A message whose lower case starts with the phrase mentions it. */
  lemma {:induction false} MentionsWhenLowerStartsWith(head: string, tail: string)
    requires ToLower(head) == "ref not found"
    ensures MentionsRefNotFound(Thrown(Some(head + tail)))
  {
    ToLowerAppend(head, tail);
    assert OccursAt(ToLower(head + tail), "ref not found", 0);
  }

  /** The substring test ignores the case of ASCII letters: a message that
      starts with "Ref not found" mentions it, whatever follows. */
  lemma RefNotFoundIgnoresCase(tail: string)
    ensures MentionsRefNotFound(Thrown(Some("Ref not found" + tail)))
  {
    CapitalisedPhrase("Ref not found", "ref not found");
    MentionsWhenLowerStartsWith("Ref not found", tail);
  }

  /** A message that mentions the phrase has a space where the phrase's
      fourth character lies, since lower-casing neither makes nor removes
      spaces. */
  lemma MentionHasSpace(m: string)
    requires MentionsRefNotFound(Thrown(Some(m)))
    ensures exists k :: 0 <= k < |m| && m[k] == ' '
  {
    var low := ToLower(m);
    ToLowerAt(m);
    var i: nat :| OccursAt(low, "ref not found", i);
    assert low[i..i + 13][3] == ' ';
    assert LowerChar(m[i + 3]) == ' ';
  }

  /** Hence a message without a space never mentions the phrase. */
  lemma NoSpaceNoMention(m: string)
    requires forall k :: 0 <= k < |m| ==> m[k] != ' '
    ensures !MentionsRefNotFound(Thrown(Some(m)))
  {
    if MentionsRefNotFound(Thrown(Some(m))) {
      MentionHasSpace(m);
    }
  }

  /** The sentinel itself is not a ref-not-found message. */
  lemma SentinelIsNotRefNotFound(s: string)
    requires s == "temporal-unavailable"
    ensures !MentionsRefNotFound(Thrown(Some(s)))
  {
    forall k | 0 <= k < |s| ensures s[k] != ' ' {
    }
    NoSpaceNoMention(s);
  }

  /** Messages without the phrase, or no message at all, are not ref-not-found. */
  lemma OtherMessagesAreNotRefNotFound()
    ensures !MentionsRefNotFound(Thrown(Some("boom")))
    ensures !MentionsRefNotFound(Thrown(None))
  {
    ToLowerAt("boom");
    assert |ToLower("boom")| == 4;
    assert ToLower("") == "";
  }
}
