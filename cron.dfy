/** The restart-job handlers of controller/cron.go. The job table of the
    `crontab` package and the standard cron parser belong to code that is
    not part of this model: what the table holds is an input, what a put or
    a delete answers is an input, and the parser is a predicate. */
module Cron {
  import opened GoText
  import opened Results
  import opened ControllerBase

  /** The one error text both checks of `validateCornExpression` give. */
  const InvalidExpression := "invalid expression"

  /** A restart job: the cron expression the handler checks, and the JSON
      object gin renders for the whole job. */
  datatype RestartJob = RestartJob(expression: string, json: Json)

  /** `validateCornExpression(exp)`: `None` for an accepted expression;
      `parses` is `cron.ParseStandard(exp)` succeeding. */
  function ValidateCronExpression(exp: string, parses: string -> bool): (r: Option<string>)
    ensures r.None? <==> |Fields(exp)| == 5 && parses(exp)
    ensures r.Some? ==> r.value == InvalidExpression
  {
    var expFields := Fields(exp);
    if |expFields| != 5 then Some(InvalidExpression)
    else if !parses(exp) then Some(InvalidExpression)
    else None
  }

  /** Leading, trailing and doubled white space never change the field
      count check. */
  lemma SpacingKeepsFieldCount(a: string, x: char, y: char, b: string)
    requires IsSpace(x) && IsSpace(y)
    ensures |Fields([x] + a)| == |Fields(a)|
    ensures |Fields(a + [x])| == |Fields(a)|
    ensures |Fields(a + [x, y] + b)| == |Fields(a + [x] + b)|
  {
    FieldsLeadingSpace(a, x);
    FieldsTrailingSpace(a, x);
    FieldsRepeatedSpace(a, x, y, b);
  }

  /** `GetRestartJob`: the jobs the table lists, or `None` for Go's nil
      list, which is answered as an empty list and never as null. */
  function GetRestartJob(jobs: Option<seq<RestartJob>>): (r: Response)
    ensures r.code == StatusOK
    ensures r.body.JsonBody? && r.body.json.JList?
    ensures jobs.None? ==> r.body.json.items == []
    ensures jobs.Some? ==> (|r.body.json.items| == |jobs.value|
      && forall i :: 0 <= i < |jobs.value| ==> r.body.json.items[i] == jobs.value[i].json)
  {
    match jobs
    case None => ResponseHandler(JList([]), None, "GET", [])
    case Some(list) => ResponseHandler(JList(seq(|list|, i requires 0 <= i < |list| => list[i].json)), None, "GET", [])
  }

  /** What `UpdateRestartJob` did: its reply, and the job it handed to
      `crontab.Put`, if any. */
  datatype Update = Update(response: Response, put: Option<RestartJob>)

  /** `UpdateRestartJob`: `body` is the decoded request body or the decoding
      error, and `putError` what `crontab.Put` answers when called. A job
      reaches the table only after its expression was accepted. */
  function UpdateRestartJob(body: Result<RestartJob, string>, parses: string -> bool, putError: Option<string>): (r: Update)
    ensures r.put.Some? <==> body.Ok? && ValidateCronExpression(body.value.expression, parses).None?
    ensures r.put.Some? ==> r.put.value == body.value
    ensures r.put.Some? ==> r.put.value.expression != [] && |Fields(r.put.value.expression)| == 5
    ensures r.response.code == StatusOK <==> r.put.Some? && putError.None?
    ensures r.response.code != StatusOK ==> r.response.code == StatusBadRequest
    ensures r.response.code == StatusOK ==> r.response.body == JsonBody(body.value.json)
    ensures body.Ok? && r.put.None? ==> r.response == ResponseHandler(JNull, Some(InvalidExpression), "PUT", [])
  {
    match body
    case Err(e) => Update(ResponseHandler(JNull, Some(e), "PUT", []), None)
    case Ok(job) =>
      match ValidateCronExpression(job.expression, parses)
      case Some(e) => Update(ResponseHandler(JNull, Some(e), "PUT", []), None)
      case None =>
        match putError
        case Some(e) => Update(ResponseHandler(JNull, Some(e), "PUT", []), Some(job))
        case None => Update(ResponseHandler(job.json, None, "PUT", []), Some(job))
  }

  /** `DeleteRestartJob`: `deleteError` is what `crontab.Delete(unit)`
      answers. */
  function DeleteRestartJob(unit: string, deleteError: Option<string>): (r: Response)
    ensures deleteError.Some? ==> r == ResponseHandler(JNull, deleteError, "DELETE", [])
    ensures deleteError.None? ==> (r.code == StatusOK && r.body.JsonBody?
      && r.body.json == Single("message", "deleted " + unit + " restart job successfully"))
  {
    match deleteError
    case Some(e) => ResponseHandler(JNull, Some(e), "DELETE", [])
    case None => ResponseHandler(Single("message", "deleted " + unit + " restart job successfully"), None, "DELETE", [])
  }
}
