/** `get_homeworks`: the status query, with the HTTP call replaced by its
    outcome, and the classification of the answer. */
module Client {
  import opened JsonValues
  import opened Wrappers
  import opened Exceptions
  import opened Logging

  /** The body of an HTTP answer, as `response.json()` sees it. */
  datatype Body = Decoded(json: Json) | Malformed(reason: string)

  datatype Response = Response(statusCode: int, body: Body)

  /** What the HTTP call produced: it raised, or it returned a response. */
  datatype FetchOutcome = TransportFailed(reason: string) | Answered(resp: Response)

  const OK_STATUS := 200
  const ERROR_KEY := "error"

  /** The classification and the INFO records written on the way. */
  datatype Fetched = Fetched(notes: seq<LogRecord>, result: Result<map<string, Json>, Error>)

  /** The answer is usable: status 200, a decoded dictionary, no `error` key. */
  predicate Usable(f: FetchOutcome)
  {
    && f.Answered?
    && f.resp.statusCode == OK_STATUS
    && f.resp.body.Decoded?
    && f.resp.body.json.JObj?
    && ERROR_KEY !in f.resp.body.json.fields
  }

  /** `get_homeworks(current_timestamp)` once the request is made. A status
      other than 200 and a body with an `error` key raise ValueError; a body
      that does not decode, or decodes to something other than a dictionary,
      fails in `response.json()` or on `.keys()`. The INFO record is written
      as soon as the status is 200, before the body is looked at. */
  function GetHomeworks(f: FetchOutcome): (r: Fetched)
    ensures r.result.Success? <==> Usable(f)
    ensures r.result.Success? ==> JObj(r.result.value) == f.resp.body.json
    ensures |r.notes| <= 1
  {
    match f
    case TransportFailed(reason) => Fetched([], Failure(ConnectionError(reason)))
    case Answered(resp) =>
      if resp.statusCode != OK_STATUS then
        Fetched([], Failure(ValueError("Ошибка ответа сервера " + IntToString(resp.statusCode))))
      else
        var notes := [LogRecord(INFO, "Информация о домашке получена")];
        match resp.body
        case Malformed(reason) => Fetched(notes, Failure(JSONDecodeError(reason)))
        case Decoded(json) =>
          if !json.JObj? then Fetched(notes, Failure(AttributeError(TypeName(json), "keys")))
          else if ERROR_KEY in json.fields then Fetched(notes, Failure(ValueError("Ошибка ответа сервера")))
          else Fetched(notes, Success(json.fields))
  }

  /** The two ValueErrors `get_homeworks` raises, with their texts, and the
      INFO record written exactly when the status is 200. */
  lemma ClassifierMessages(f: FetchOutcome)
    ensures f.Answered? && f.resp.statusCode != OK_STATUS ==>
              GetHomeworks(f).result == Failure(ValueError("Ошибка ответа сервера " + IntToString(f.resp.statusCode)))
    ensures f.Answered? && f.resp.statusCode == OK_STATUS && f.resp.body.Decoded? &&
            f.resp.body.json.JObj? && ERROR_KEY in f.resp.body.json.fields ==>
              GetHomeworks(f).result == Failure(ValueError("Ошибка ответа сервера"))
    ensures GetHomeworks(f).notes == if f.Answered? && f.resp.statusCode == OK_STATUS
                                     then [LogRecord(INFO, "Информация о домашке получена")] else []
  {
  }
}
