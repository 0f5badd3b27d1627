/** `main`: the start-up and one pass of the polling loop as a pure step
    from the watcher's state and what the outside world answered to the new
    state and the effects, and finite runs of such steps. */
module Watch {
  import opened JsonValues
  import opened Wrappers
  import opened Exceptions
  import opened Logging
  import opened Formatter
  import opened Client

  /** Seconds slept after every pass, whatever happened in it. */
  const SLEEP_TIME: nat := 20 * 60

  const HOMEWORKS_KEY := "homeworks"

  const STARTED_MESSAGE := "Отслеживание домашки работает"
  const STARTED_NOTE := "Отслеживание запущено"
  const LIST_RECEIVED := "Список домашек получен"
  const NO_HOMEWORKS := "нету домашних работ"
  const STATUS_CHANGED := "Статус изменился"
  const CRASH_PREFIX := "Бот упал с ошибкой: "

  /** The loop's two locals: the `from_date` of every query, and the last
      homework seen (`None` at first, which is also what JSON `null` decodes to). */
  datatype State = State(cursor: int, last: Json)

  datatype StepResult = StepResult(state: State, effects: seq<Effect>)

  /** What the outside world does during one pass: the answer to the query,
      and the outcome of the pass's send attempt, if it makes one. */
  datatype Cycle = Cycle(fetch: FetchOutcome, delivery: Delivery)

  /** What one pass learns from the answer. */
  datatype Observation = Broken(error: Error) | NoHomeworks | Latest(homework: Json)

  /** The body's `homeworks` field is the empty list (`.get(...) == []`);
      a missing field is not. */
  predicate IsEmptyList(body: map<string, Json>)
  {
    HOMEWORKS_KEY in body && body[HOMEWORKS_KEY] == JArr([])
  }

  /** `homeworks['homeworks'][0]`, with every way it can raise. */
  function Newest(body: map<string, Json>): (r: Result<Json, Error>)
    ensures HOMEWORKS_KEY !in body ==> r == Failure(KeyError(JStr(HOMEWORKS_KEY)))
    ensures HOMEWORKS_KEY in body && body[HOMEWORKS_KEY].JArr? && |body[HOMEWORKS_KEY].items| > 0 ==>
              r == Success(body[HOMEWORKS_KEY].items[0])
    ensures HOMEWORKS_KEY in body && body[HOMEWORKS_KEY].JStr? && |body[HOMEWORKS_KEY].s| > 0 ==>
              r == Success(JStr([body[HOMEWORKS_KEY].s[0]]))
    ensures HOMEWORKS_KEY in body && (body[HOMEWORKS_KEY] == JArr([]) || body[HOMEWORKS_KEY] == JStr("")) ==>
              r.Failure? && r.error.IndexError?
    ensures r.Success? <==> HOMEWORKS_KEY in body &&
                            ((body[HOMEWORKS_KEY].JArr? && |body[HOMEWORKS_KEY].items| > 0) ||
                             (body[HOMEWORKS_KEY].JStr? && |body[HOMEWORKS_KEY].s| > 0))
  {
    if HOMEWORKS_KEY !in body then Failure(KeyError(JStr(HOMEWORKS_KEY)))
    else match body[HOMEWORKS_KEY]
      case JArr(items) => if |items| == 0 then Failure(IndexError("list")) else Success(items[0])
      case JStr(s) => if |s| == 0 then Failure(IndexError("string")) else Success(JStr([s[0]]))
      case JObj(_) => Failure(KeyError(JNum(0)))
      case other => Failure(TypeError(TypeName(other)))
  }

  /** The first homework of the answer, the empty list, or the exception the
      pass stops at before comparing. */
  function Observe(f: FetchOutcome): (r: Observation)
    ensures !Usable(f) ==> r == Broken(GetHomeworks(f).result.error)
    ensures r == NoHomeworks <==> Usable(f) && IsEmptyList(f.resp.body.json.fields)
    ensures Usable(f) && !IsEmptyList(f.resp.body.json.fields) && Newest(f.resp.body.json.fields).Failure? ==>
              r == Broken(Newest(f.resp.body.json.fields).error)
    ensures r.Latest? ==> Usable(f) && Newest(f.resp.body.json.fields) == Success(r.homework)
    ensures Usable(f) && !IsEmptyList(f.resp.body.json.fields) && Newest(f.resp.body.json.fields).Success? ==>
              r == Latest(Newest(f.resp.body.json.fields).value)
  {
    match GetHomeworks(f).result
    case Failure(e) => Broken(e)
    case Success(body) =>
      if IsEmptyList(body) then NoHomeworks
      else match Newest(body)
        case Failure(e) => Broken(e)
        case Success(hw) => Latest(hw)
  }

  /** The record the `except` clause logs. */
  function CrashRecord(e: Error): LogRecord
  {
    LogRecord(ERROR, CRASH_PREFIX + Describe(e))
  }

  /** The `except` clause: log at ERROR (and so alert), then sleep. */
  function Crash(e: Error, d: Delivery): (r: seq<Effect>)
    ensures |r| > 2 && r[0] == Wrote(CrashRecord(e)) && r[1] == Sent(LogLine(CrashRecord(e)), d)
    ensures r[|r| - 1] == Slept(SLEEP_TIME)
  {
    Log(CrashRecord(e), d) + [Slept(SLEEP_TIME)]
  }

  function LogAll(recs: seq<LogRecord>, d: Delivery): seq<Effect>
    decreases |recs|
  {
    if |recs| == 0 then [] else Log(recs[0], d) + LogAll(recs[1..], d)
  }

  function Info(msg: string): LogRecord
  {
    LogRecord(INFO, msg)
  }

  /** `str()` of what `send_message` returned: the receipt, or `None`. */
  function ResponseText(d: Delivery): string
  {
    match d
    case Delivered(receipt) => receipt
    case Undelivered(_) => "None"
  }

  /** The lines of `main` before the loop; `now` is the clock's reading. */
  function Start(now: int, d: Delivery): (r: StepResult)
    ensures r.state == State(now, JNull)
    ensures Keep(r.effects, IsSend) == [Sent(STARTED_MESSAGE, d)]
    ensures |r.effects| > 0 && r.effects[|r.effects| - 1] == Wrote(LogRecord(DEBUG, STARTED_NOTE))
  {
    SendMessageEffects(STARTED_MESSAGE, d);
    QuietBelowThreshold(LogRecord(DEBUG, STARTED_NOTE), d);
    KeepAppend(SendMessage(STARTED_MESSAGE, d), Log(LogRecord(DEBUG, STARTED_NOTE), d), IsSend);
    StepResult(State(now, JNull), SendMessage(STARTED_MESSAGE, d) + Log(LogRecord(DEBUG, STARTED_NOTE), d))
  }

  /** One pass of the loop body. The cursor is passed unchanged to every
      query; the new homework becomes the last one before it is formatted. */
  function Step(s: State, c: Cycle): (r: StepResult)
    ensures r.state.cursor == s.cursor
    ensures |r.effects| > 1 && r.effects[0] == Polled(s.cursor)
    ensures r.effects[|r.effects| - 1] == Slept(SLEEP_TIME)
  {
    var d := c.delivery;
    var fetched := GetHomeworks(c.fetch);
    var noted := LogAll(fetched.notes, d);
    var after :=
      match fetched.result
      case Failure(e) => StepResult(s, noted + Crash(e, d))
      case Success(body) =>
        var listed := noted + Log(Info(LIST_RECEIVED), d);
        if IsEmptyList(body) then
          StepResult(s, listed + Log(Info(NO_HOMEWORKS), d) + [Slept(SLEEP_TIME)])
        else match Newest(body)
          case Failure(e) => StepResult(s, listed + Crash(e, d))
          case Success(hw) =>
            if PyEq(hw, s.last) then StepResult(s, listed + [Slept(SLEEP_TIME)])
            else
              var changed := listed + Log(Info(STATUS_CHANGED), d);
              var s' := s.(last := hw);
              match ParseHomeworkStatus(hw)
              case Failure(e) => StepResult(s', changed + Crash(e, d))
              case Success(v) =>
                StepResult(s', changed + Log(Info(v.note), d) +
                               (SendMessage(v.message, d) + Log(Info(ResponseText(d)), d) + [Slept(SLEEP_TIME)]));
    StepResult(after.state, [Polled(s.cursor)] + after.effects)
  }

  /** Finitely many passes of `step`, each from the state the previous one
      left. */
  function Iterate(step: (State, Cycle) -> StepResult, s: State, cs: seq<Cycle>): StepResult
    decreases |cs|
  {
    if |cs| == 0 then StepResult(s, [])
    else
      var first := step(s, cs[0]);
      var rest := Iterate(step, first.state, cs[1..]);
      StepResult(rest.state, first.effects + rest.effects)
  }

  /** Finitely many passes of the loop. */
  function Run(s: State, cs: seq<Cycle>): (r: StepResult)
    ensures r.state.cursor == s.cursor
    ensures |cs| > 0 ==> |r.effects| > 0 && r.effects[0] == Polled(s.cursor)
  {
    IterateKeepsCursor(Step, s, cs);
    Iterate(Step, s, cs)
  }

  /** How a pass ends: in the `except` clause, without sending, or having
      sent a notification. */
  datatype PassKind = Crashed(error: Error) | Idle | Notified(message: string)

  /** The reference account of a pass, from what it observes and the last
      homework alone. */
  function Classify(s: State, f: FetchOutcome): PassKind
  {
    match Observe(f)
    case Broken(e) => Crashed(e)
    case NoHomeworks => Idle
    case Latest(hw) =>
      if PyEq(hw, s.last) then Idle
      else match ParseHomeworkStatus(hw)
        case Failure(e) => Crashed(e)
        case Success(v) => Notified(v.message)
  }

  lemma {:induction false} LogAllBelowThreshold(recs: seq<LogRecord>, d: Delivery)
    requires forall i | 0 <= i < |recs| :: recs[i].level < ALERT_LEVEL
    ensures BelowThreshold(LogAll(recs, d))
    decreases |recs|
  {
    if |recs| > 0 {
      QuietBelowThreshold(recs[0], d);
      LogAllBelowThreshold(recs[1..], d);
    }
  }

  lemma CrashEffects(e: Error, d: Delivery)
    ensures Keep(Crash(e, d), IsSend) == [Sent(LogLine(CrashRecord(e)), d)]
    ensures Keep(Crash(e, d), IsAlert) == [Wrote(CrashRecord(e))]
    ensures Keep(Crash(e, d), IsSleep) == [Slept(SLEEP_TIME)]
  {
    AlertEffects(CrashRecord(e), d);
    KeepAppend(Log(CrashRecord(e), d), [Slept(SLEEP_TIME)], IsSend);
    KeepAppend(Log(CrashRecord(e), d), [Slept(SLEEP_TIME)], IsAlert);
    KeepAppend(Log(CrashRecord(e), d), [Slept(SLEEP_TIME)], IsSleep);
  }

  /** The end of a pass that can send, alert or sleep. */
  function PassEnd(k: PassKind, d: Delivery): seq<Effect>
  {
    match k
    case Crashed(e) => Crash(e, d)
    case Idle => [Slept(SLEEP_TIME)]
    case Notified(m) => SendMessage(m, d) + Log(Info(ResponseText(d)), d) + [Slept(SLEEP_TIME)]
  }

  /** The INFO records a pass writes between its query and its end. */
  function Preamble(s: State, c: Cycle): seq<Effect>
  {
    var d := c.delivery;
    var fetched := GetHomeworks(c.fetch);
    var noted := LogAll(fetched.notes, d);
    match fetched.result
    case Failure(_) => noted
    case Success(body) =>
      var listed := noted + Log(Info(LIST_RECEIVED), d);
      if IsEmptyList(body) then listed + Log(Info(NO_HOMEWORKS), d)
      else match Newest(body)
        case Failure(_) => listed
        case Success(hw) =>
          if PyEq(hw, s.last) then listed
          else
            var changed := listed + Log(Info(STATUS_CHANGED), d);
            match ParseHomeworkStatus(hw)
            case Failure(_) => changed
            case Success(v) => changed + Log(Info(v.note), d)
  }

  /** The state after a pass: only a first homework that differs from the
      last one seen changes it, and then it becomes the last one, before and
      whatever the formatting does. */
  lemma StepNextState(s: State, c: Cycle)
    ensures Step(s, c).state ==
            match Observe(c.fetch)
            case Latest(hw) => if PyEq(hw, s.last) then s else State(s.cursor, hw)
            case _ => s
  {
  }

  lemma PreambleBelowThreshold(s: State, c: Cycle)
    ensures BelowThreshold(Preamble(s, c))
  {
    LogAllBelowThreshold(GetHomeworks(c.fetch).notes, c.delivery);
  }

  /** Every pass is one query from the cursor, a preamble of records below
      the threshold, and the end its reference account names. */
  lemma StepShape(s: State, c: Cycle)
    ensures Step(s, c).effects ==
            [Polled(s.cursor)] + Preamble(s, c) + PassEnd(Classify(s, c.fetch), c.delivery)
  {
  }

  lemma CrashedPassEnd(e: Error, d: Delivery)
    ensures Keep(PassEnd(Crashed(e), d), IsSend) == [Sent(LogLine(CrashRecord(e)), d)]
    ensures Keep(PassEnd(Crashed(e), d), IsAlert) == [Wrote(CrashRecord(e))]
    ensures Keep(PassEnd(Crashed(e), d), IsSleep) == [Slept(SLEEP_TIME)]
    ensures Keep(PassEnd(Crashed(e), d), IsPoll) == []
  {
    CrashEffects(e, d);
    LogNeitherPollsNorSleeps(CrashRecord(e), d);
    KeepAppend(Log(CrashRecord(e), d), [Slept(SLEEP_TIME)], IsPoll);
  }

  /** A notifying end contributes, to any high selector, only its one send
      attempt and its sleep: the rest is INFO and WARNING records. */
  lemma NotifiedKeep(m: string, d: Delivery, p: Effect -> bool)
    requires HighSelector(p)
    ensures Keep(PassEnd(Notified(m), d), p) == Keep([Sent(m, d)], p) + Keep([Slept(SLEEP_TIME)], p)
  {
    SendMessageTailBelowThreshold(m, d);
    QuietBelowThreshold(Info(ResponseText(d)), d);
    KeepBetweenBelowThreshold(Sent(m, d), SendMessage(m, d)[1..], Log(Info(ResponseText(d)), d), [Slept(SLEEP_TIME)], p);
  }

  lemma KeepBetweenBelowThreshold(x: Effect, q1: seq<Effect>, q2: seq<Effect>, tail: seq<Effect>, p: Effect -> bool)
    requires BelowThreshold(q1) && BelowThreshold(q2) && HighSelector(p)
    ensures Keep(([x] + q1) + q2 + tail, p) == Keep([x], p) + Keep(tail, p)
  {
    assert ([x] + q1) + q2 + tail == [x] + (q1 + (q2 + tail));
    KeepAppend([x], q1 + (q2 + tail), p);
    KeepAfterBelowThreshold(q1, q2 + tail, p);
    KeepAfterBelowThreshold(q2, tail, p);
  }

  lemma NotifiedPassEnd(m: string, d: Delivery)
    ensures Keep(PassEnd(Notified(m), d), IsSend) == [Sent(m, d)]
    ensures Keep(PassEnd(Notified(m), d), IsAlert) == []
    ensures Keep(PassEnd(Notified(m), d), IsSleep) == [Slept(SLEEP_TIME)]
    ensures Keep(PassEnd(Notified(m), d), IsPoll) == []
  {
    HighSelectors();
    NotifiedKeep(m, d, IsSend);
    NotifiedKeep(m, d, IsAlert);
    NotifiedKeep(m, d, IsSleep);
    NotifiedKeep(m, d, IsPoll);
  }

  /** What a pass sends, alerts and sleeps is decided by its end alone. */
  lemma StepKeep(s: State, c: Cycle, p: Effect -> bool)
    requires HighSelector(p)
    ensures Keep(Step(s, c).effects, p) ==
            (if p(Polled(s.cursor)) then [Polled(s.cursor)] else []) +
            Keep(PassEnd(Classify(s, c.fetch), c.delivery), p)
  {
    PreambleBelowThreshold(s, c);
    StepShape(s, c);
    KeepPass(Polled(s.cursor), Preamble(s, c), PassEnd(Classify(s, c.fetch), c.delivery), p);
  }

  /** The sends, alerts and sleeps of one pass follow its reference account:
      a crashed pass alerts once and sends that alert's line, an idle pass
      sends nothing, a notifying pass sends exactly its message; every pass
      sleeps exactly once, for the same time, and queries exactly once, from
      the cursor. */
  lemma StepEffects(s: State, c: Cycle)
    ensures Keep(Step(s, c).effects, IsSend) ==
            match Classify(s, c.fetch)
            case Crashed(e) => [Sent(LogLine(CrashRecord(e)), c.delivery)]
            case Idle => []
            case Notified(m) => [Sent(m, c.delivery)]
    ensures Keep(Step(s, c).effects, IsAlert) ==
            if Classify(s, c.fetch).Crashed? then [Wrote(CrashRecord(Classify(s, c.fetch).error))] else []
    ensures Keep(Step(s, c).effects, IsSleep) == [Slept(SLEEP_TIME)]
    ensures Keep(Step(s, c).effects, IsPoll) == [Polled(s.cursor)]
  {
    HighSelectors();
    var k := Classify(s, c.fetch);
    StepKeep(s, c, IsSend);
    StepKeep(s, c, IsAlert);
    StepKeep(s, c, IsSleep);
    StepKeep(s, c, IsPoll);
    match k
    case Crashed(e) => CrashedPassEnd(e, c.delivery);
    case Idle =>
    case Notified(m) => NotifiedPassEnd(m, c.delivery);
  }

  lemma KeepPass(x: Effect, pre: seq<Effect>, end: seq<Effect>, p: Effect -> bool)
    requires BelowThreshold(pre) && HighSelector(p)
    ensures Keep([x] + pre + end, p) == (if p(x) then [x] else []) + Keep(end, p)
  {
    assert [x] + pre + end == [x] + (pre + end);
    KeepAppend([x], pre + end, p);
    KeepAfterBelowThreshold(pre, end, p);
  }

  /** A pass that stops before comparing (the query fails, the answer is
      refused, or indexing its `homeworks` raises) keeps the state and sends
      exactly one thing: the alert line of its ERROR record. */
  lemma BrokenPassKeepsState(s: State, c: Cycle)
    requires Observe(c.fetch).Broken?
    ensures Step(s, c).state == s
    ensures Keep(Step(s, c).effects, IsAlert) == [Wrote(LogRecord(ERROR, CRASH_PREFIX + Describe(Observe(c.fetch).error)))]
    ensures Keep(Step(s, c).effects, IsSend) ==
            [Sent(LogLine(LogRecord(ERROR, CRASH_PREFIX + Describe(Observe(c.fetch).error))), c.delivery)]
  {
    StepNextState(s, c);
    StepEffects(s, c);
  }

  /** An accepted answer without a `homeworks` field is not an empty list:
      subscripting it raises KeyError and the pass alerts. */
  lemma MissingHomeworksIsError(s: State, c: Cycle)
    requires Usable(c.fetch) && HOMEWORKS_KEY !in c.fetch.resp.body.json.fields
    ensures Observe(c.fetch) == Broken(KeyError(JStr("homeworks")))
    ensures Step(s, c).state == s
    ensures Keep(Step(s, c).effects, IsAlert) == [Wrote(LogRecord(ERROR, "Бот упал с ошибкой: 'homeworks'"))]
  {
    MissingHomeworksObserved(c.fetch);
    BrokenPassKeepsState(s, c);
    MissingHomeworksText();
  }

  lemma MissingHomeworksObserved(f: FetchOutcome)
    requires Usable(f) && HOMEWORKS_KEY !in f.resp.body.json.fields
    ensures Observe(f) == Broken(KeyError(JStr(HOMEWORKS_KEY)))
  {
    assert GetHomeworks(f).result == Success(f.resp.body.json.fields);
  }

  lemma MissingHomeworksText()
    ensures CRASH_PREFIX + Describe(KeyError(JStr(HOMEWORKS_KEY))) == "Бот упал с ошибкой: 'homeworks'"
  {
    assert Describe(KeyError(JStr(HOMEWORKS_KEY))) == "'homeworks'";
  }

  /** An empty `homeworks` list: the pass logs that there is no work, sends
      nothing, keeps the state and sleeps the usual time. */
  lemma EmptyListIsQuiet(s: State, c: Cycle)
    requires Usable(c.fetch) && IsEmptyList(c.fetch.resp.body.json.fields)
    ensures Observe(c.fetch) == NoHomeworks
    ensures Step(s, c).state == s
    ensures Keep(Step(s, c).effects, IsSend) == []
    ensures Keep(Step(s, c).effects, IsSleep) == [Slept(SLEEP_TIME)]
    ensures Wrote(LogRecord(INFO, "нету домашних работ")) in Step(s, c).effects
  {
    StepNextState(s, c);
    StepEffects(s, c);
    StepShape(s, c);
    var pre := Preamble(s, c);
    var d := c.delivery;
    var listed := LogAll(GetHomeworks(c.fetch).notes, d) + Log(Info(LIST_RECEIVED), d);
    assert pre == listed + Log(Info(NO_HOMEWORKS), d);
    assert pre[|listed|] == Wrote(Info(NO_HOMEWORKS));
    assert Step(s, c).effects[1 + |listed|] == Wrote(Info(NO_HOMEWORKS));
  }

  /** A first homework equal (in Python's sense) to the last one seen: no
      message, no alert, no change. */
  lemma UnchangedIsQuiet(s: State, c: Cycle)
    requires Observe(c.fetch).Latest? && PyEq(Observe(c.fetch).homework, s.last)
    ensures Step(s, c).state == s
    ensures Keep(Step(s, c).effects, IsSend) == []
    ensures Keep(Step(s, c).effects, IsAlert) == []
  {
    StepNextState(s, c);
    StepEffects(s, c);
  }

  /** A first homework that differs from the last one seen becomes the last
      one whether or not formatting it succeeds; the cursor stays. The pass
      then sends either the formatted message or the alert for the
      formatting error, exactly once. */
  lemma ChangedBecomesLast(s: State, c: Cycle, hw: Json)
    requires Observe(c.fetch) == Latest(hw) && !PyEq(hw, s.last)
    ensures Step(s, c).state == State(s.cursor, hw)
    ensures ParseHomeworkStatus(hw).Success? ==>
              Keep(Step(s, c).effects, IsSend) == [Sent(ParseHomeworkStatus(hw).value.message, c.delivery)]
    ensures ParseHomeworkStatus(hw).Failure? ==>
              Keep(Step(s, c).effects, IsSend) ==
              [Sent(LogLine(LogRecord(ERROR, CRASH_PREFIX + Describe(ParseHomeworkStatus(hw).error))), c.delivery)]
  {
    StepNextState(s, c);
    StepEffects(s, c);
  }

  /** One pass makes at most one send attempt and writes at most one alert
      record, and when it alerts, its one send is that alert's line: a failing
      chat never causes a second attempt. */
  lemma StepBounded(s: State, c: Cycle)
    ensures |Keep(Step(s, c).effects, IsSend)| <= 1
    ensures |Keep(Step(s, c).effects, IsAlert)| <= 1
    ensures Keep(Step(s, c).effects, IsAlert) == [] || Keep(Step(s, c).effects, IsSend) ==
            [Sent(LogLine(Keep(Step(s, c).effects, IsAlert)[0].rec), c.delivery)]
  {
    StepEffects(s, c);
  }

  /** The same answer twice in a row: the second pass sends nothing and
      changes nothing, whatever happened to the first pass's send. */
  lemma RepeatIsQuiet(s: State, f: FetchOutcome, d1: Delivery, d2: Delivery)
    requires Observe(f).Latest?
    ensures Step(Step(s, Cycle(f, d1)).state, Cycle(f, d2)).state == Step(s, Cycle(f, d1)).state
    ensures Keep(Step(Step(s, Cycle(f, d1)).state, Cycle(f, d2)).effects, IsSend) == []
  {
    var hw := Observe(f).homework;
    var s1 := Step(s, Cycle(f, d1)).state;
    StepNextState(s, Cycle(f, d1));
    if PyEq(hw, s.last) {
      assert s1 == s;
    } else {
      assert s1.last == hw;
      PyEqReflexive(hw);
    }
    UnchangedIsQuiet(s1, Cycle(f, d2));
  }

  /** `n` copies of one effect. */
  function Repeat(e: Effect, n: nat): (r: seq<Effect>)
    ensures |r| == n
    decreases n
  {
    if n == 0 then [] else [e] + Repeat(e, n - 1)
  }

  lemma StepPollsOnce(s: State, c: Cycle)
    ensures Keep(Step(s, c).effects, IsPoll) == [Polled(s.cursor)]
  {
    StepEffects(s, c);
  }

  lemma StepSleepsOnce(s: State, c: Cycle)
    ensures Keep(Step(s, c).effects, IsSleep) == [Slept(SLEEP_TIME)]
  {
    StepEffects(s, c);
  }

  /** A step function that never moves the cursor leaves it in place over
      any number of passes. */
  lemma {:induction false} IterateKeepsCursor(step: (State, Cycle) -> StepResult, s: State, cs: seq<Cycle>)
    requires forall t, c :: step(t, c).state.cursor == t.cursor
    ensures Iterate(step, s, cs).state.cursor == s.cursor
    decreases |cs|
  {
    if |cs| > 0 {
      IterateKeepsCursor(step, step(s, cs[0]).state, cs[1..]);
    }
  }

  /** A step function that queries once from the cursor and keeps it queries
      once per pass, always from the starting cursor. */
  lemma {:induction false} IteratePolls(step: (State, Cycle) -> StepResult, s: State, cs: seq<Cycle>)
    requires forall t, c :: step(t, c).state.cursor == t.cursor
    requires forall t, c :: Keep(step(t, c).effects, IsPoll) == [Polled(t.cursor)]
    ensures Keep(Iterate(step, s, cs).effects, IsPoll) == Repeat(Polled(s.cursor), |cs|)
    decreases |cs|
  {
    if |cs| > 0 {
      var first := step(s, cs[0]);
      var rest := Iterate(step, first.state, cs[1..]);
      IteratePolls(step, first.state, cs[1..]);
      KeepAppend(first.effects, rest.effects, IsPoll);
    }
  }

  /** A step function whose every pass has exactly one `e` among its `p`
      effects has exactly one per pass over any number of passes. */
  lemma {:induction false} IterateExactlyOnce(step: (State, Cycle) -> StepResult, s: State, cs: seq<Cycle>,
                                             p: Effect -> bool, e: Effect)
    requires forall t, c :: Keep(step(t, c).effects, p) == [e]
    ensures Keep(Iterate(step, s, cs).effects, p) == Repeat(e, |cs|)
    decreases |cs|
  {
    if |cs| > 0 {
      var first := step(s, cs[0]);
      var rest := Iterate(step, first.state, cs[1..]);
      IterateExactlyOnce(step, first.state, cs[1..], p, e);
      KeepAppend(first.effects, rest.effects, p);
    }
  }

  /** A step function with at most one `p` effect per pass has at most one
      per pass over any number of passes. */
  lemma {:induction false} IterateAtMostOnce(step: (State, Cycle) -> StepResult, s: State, cs: seq<Cycle>,
                                            p: Effect -> bool)
    requires forall t, c :: |Keep(step(t, c).effects, p)| <= 1
    ensures |Keep(Iterate(step, s, cs).effects, p)| <= |cs|
    decreases |cs|
  {
    if |cs| > 0 {
      var first := step(s, cs[0]);
      var rest := Iterate(step, first.state, cs[1..]);
      IterateAtMostOnce(step, first.state, cs[1..], p);
      KeepAppend(first.effects, rest.effects, p);
    }
  }

  /** Over any finite run the state keeps its cursor. */
  lemma RunKeepsCursor(s: State, cs: seq<Cycle>)
    ensures Run(s, cs).state.cursor == s.cursor
  {
    IterateKeepsCursor(Step, s, cs);
  }

  /** Over any finite run: one query per pass, every one from the starting
      cursor, which is never advanced and never clamped. */
  lemma RunPollsFromCursor(s: State, cs: seq<Cycle>)
    ensures Keep(Run(s, cs).effects, IsPoll) == Repeat(Polled(s.cursor), |cs|)
  {
    forall t, c
      ensures Keep(Step(t, c).effects, IsPoll) == [Polled(t.cursor)]
    {
      StepPollsOnce(t, c);
    }
    IteratePolls(Step, s, cs);
  }

  /** Over any finite run: one sleep of the same length per pass. */
  lemma RunSleepsEveryPass(s: State, cs: seq<Cycle>)
    ensures Keep(Run(s, cs).effects, IsSleep) == Repeat(Slept(SLEEP_TIME), |cs|)
  {
    forall t, c
      ensures Keep(Step(t, c).effects, IsSleep) == [Slept(SLEEP_TIME)]
    {
      StepSleepsOnce(t, c);
    }
    IterateExactlyOnce(Step, s, cs, IsSleep, Slept(SLEEP_TIME));
  }

  /** Over any finite run, at most one send attempt and one alert per pass,
      however many of the sends fail: alerts do not feed themselves. */
  lemma RunSendsAtMostOncePerPass(s: State, cs: seq<Cycle>)
    ensures |Keep(Run(s, cs).effects, IsSend)| <= |cs|
    ensures |Keep(Run(s, cs).effects, IsAlert)| <= |cs|
  {
    forall t, c
      ensures |Keep(Step(t, c).effects, IsSend)| <= 1
      ensures |Keep(Step(t, c).effects, IsAlert)| <= 1
    {
      StepBounded(t, c);
    }
    IterateAtMostOnce(Step, s, cs, IsSend);
    IterateAtMostOnce(Step, s, cs, IsAlert);
  }

  /** `main` over finitely many passes: start-up, then the loop from the
      state start-up leaves. The start message is the first thing sent, the
      cursor stays at `now`, and every pass adds at most one send. */
  function Main(now: int, d: Delivery, cs: seq<Cycle>): (r: StepResult)
    ensures r.state.cursor == now
    ensures |Keep(r.effects, IsSend)| > 0 && Keep(r.effects, IsSend)[0] == Sent(STARTED_MESSAGE, d)
    ensures |Keep(r.effects, IsSend)| <= 1 + |cs|
  {
    var start := Start(now, d);
    var run := Run(start.state, cs);
    KeepAppend(start.effects, run.effects, IsSend);
    RunSendsAtMostOncePerPass(start.state, cs);
    StepResult(run.state, start.effects + run.effects)
  }

  /** Two passes over the same answer end where the first one did and send
      only what the first one sent. */
  lemma RunTwice(s: State, f: FetchOutcome, d1: Delivery, d2: Delivery)
    requires Observe(f).Latest?
    ensures Run(s, [Cycle(f, d1), Cycle(f, d2)]).state == Step(s, Cycle(f, d1)).state
    ensures Keep(Run(s, [Cycle(f, d1), Cycle(f, d2)]).effects, IsSend) == Keep(Step(s, Cycle(f, d1)).effects, IsSend)
  {
    var first := Step(s, Cycle(f, d1));
    var second := Step(first.state, Cycle(f, d2));
    IterateTwo(Step, s, Cycle(f, d1), Cycle(f, d2));
    RepeatIsQuiet(s, f, d1, d2);
    KeepAppend(first.effects, second.effects, IsSend);
  }

  /** Two passes of `step`, unfolded. */
  lemma IterateTwo(step: (State, Cycle) -> StepResult, s: State, c1: Cycle, c2: Cycle)
    ensures Iterate(step, s, [c1, c2]) ==
            StepResult(step(step(s, c1).state, c2).state,
                       step(s, c1).effects + step(step(s, c1).state, c2).effects)
  {
    assert [c1, c2][1..] == [c2];
    assert [c2][1..] == [];
    var second := step(step(s, c1).state, c2);
    assert Iterate(step, step(s, c1).state, [c2]) == StepResult(second.state, second.effects + []);
    assert second.effects + [] == second.effects;
  }

  /** The same homework fetched in two consecutive passes is announced at
      most once. */
  lemma SameAnswerTwiceSendsOnce(s: State, f: FetchOutcome, d1: Delivery, d2: Delivery)
    requires Observe(f).Latest?
    ensures |Keep(Run(s, [Cycle(f, d1), Cycle(f, d2)]).effects, IsSend)| <= 1
  {
    RunTwice(s, f, d1, d2);
    StepBounded(s, Cycle(f, d1));
  }

  /** An accepted answer carrying the given `homeworks` list. */
  function Answer(homeworks: seq<Json>): FetchOutcome
  {
    Answered(Response(OK_STATUS, Decoded(JObj(map[HOMEWORKS_KEY := JArr(homeworks)]))))
  }

  /** A homework record as the status endpoint returns it. */
  function Homework(name: string, status: string): Json
  {
    JObj(map[NAME_KEY := JStr(name), STATUS_KEY := JStr(status)])
  }

  /** Start-up, then the same homework under review fetched twice: the
      start-up message and one notification naming the homework are sent,
      nothing else, and that homework is the last one seen. */
  lemma ReviewingScenario(name: string, now: int, d0: Delivery, d1: Delivery, d2: Delivery)
    ensures var f := Answer([Homework(name, "reviewing")]);
            && Keep(Main(now, d0, [Cycle(f, d1), Cycle(f, d2)]).effects, IsSend) ==
               [Sent("Отслеживание домашки работает", d0), Sent("Домашка " + name + " взята в работу", d1)]
            && Main(now, d0, [Cycle(f, d1), Cycle(f, d2)]).state == State(now, Homework(name, "reviewing"))
  {
    var f := Answer([Homework(name, "reviewing")]);
    var cs := [Cycle(f, d1), Cycle(f, d2)];
    var start := Start(now, d0);
    ReviewingTwice(name, now, d1, d2);
    KeepAppend(start.effects, Run(start.state, cs).effects, IsSend);
  }

  /** The loop part of the scenario: from the start-up state, two passes over
      the reviewing homework send its one notification and remember it. */
  lemma ReviewingTwice(name: string, now: int, d1: Delivery, d2: Delivery)
    ensures var f := Answer([Homework(name, "reviewing")]);
            && Keep(Run(State(now, JNull), [Cycle(f, d1), Cycle(f, d2)]).effects, IsSend) ==
               [Sent("Домашка " + name + " взята в работу", d1)]
            && Run(State(now, JNull), [Cycle(f, d1), Cycle(f, d2)]).state ==
               State(now, Homework(name, "reviewing"))
  {
    var hw := Homework(name, "reviewing");
    var f := Answer([hw]);
    var s0 := State(now, JNull);
    AnswerObserved(hw);
    assert !PyEq(hw, JNull);
    ChangedBecomesLast(s0, Cycle(f, d1), hw);
    ReviewingMessage(name);
    RunTwice(s0, f, d1, d2);
  }

  /** The same answer twice when it raises before comparing: nothing is
      remembered, so both passes alert, each with its own send attempt.
      Only a repeated homework is quiet the second time. */
  lemma RepeatedFailureAlertsTwice(s: State, f: FetchOutcome, d1: Delivery, d2: Delivery)
    requires Observe(f).Broken?
    ensures Run(s, [Cycle(f, d1), Cycle(f, d2)]).state == s
    ensures Keep(Run(s, [Cycle(f, d1), Cycle(f, d2)]).effects, IsSend) ==
            [Sent(LogLine(CrashRecord(Observe(f).error)), d1), Sent(LogLine(CrashRecord(Observe(f).error)), d2)]
  {
    IterateTwo(Step, s, Cycle(f, d1), Cycle(f, d2));
    BrokenPassKeepsState(s, Cycle(f, d1));
    BrokenPassKeepsState(s, Cycle(f, d2));
    KeepAppend(Step(s, Cycle(f, d1)).effects, Step(s, Cycle(f, d2)).effects, IsSend);
  }

  /** A homework whose status changes from `true` to `1` compares equal to
      the one seen before: the pass sends nothing and keeps the old record. */
  lemma BoolChangeUnnoticed(now: int, d: Delivery)
    ensures var last := JObj(map["status" := JBool(true)]);
            var f := Answer([JObj(map["status" := JNum(1)])]);
            && Step(State(now, last), Cycle(f, d)).state == State(now, last)
            && Keep(Step(State(now, last), Cycle(f, d)).effects, IsSend) == []
  {
    var last := JObj(map["status" := JBool(true)]);
    var hw := JObj(map["status" := JNum(1)]);
    AnswerObserved(hw);
    BoolEqualsOne();
    PyEqSymmetric(last, hw);
    UnchangedIsQuiet(State(now, last), Cycle(Answer([hw]), d));
  }

  lemma AnswerObserved(hw: Json)
    ensures Observe(Answer([hw])) == Latest(hw)
  {
    assert JArr([hw]) != JArr([]);
  }

  lemma ReviewingMessage(name: string)
    ensures ParseHomeworkStatus(Homework(name, "reviewing")).Success?
    ensures ParseHomeworkStatus(Homework(name, "reviewing")).value.message == "Домашка " + name + " взята в работу"
  {
    var hw := Homework(name, "reviewing");
    assert HasName(hw) && HasKnownStatus(hw);
    assert Show(hw.fields[NAME_KEY]) == name;
  }

  /** A server answering with a status other than 200: the pass logs the
      status at ERROR, alerts with that line, keeps the cursor and the last
      homework for the retry, and sleeps the usual time. */
  lemma ServerErrorScenario(s: State, code: int, body: Body, d: Delivery)
    requires code != OK_STATUS
    ensures var c := Cycle(Answered(Response(code, body)), d);
            && Step(s, c).state == s
            && Keep(Step(s, c).effects, IsAlert) ==
               [Wrote(LogRecord(ERROR, "Бот упал с ошибкой: " + "Ошибка ответа сервера " + IntToString(code)))]
            && Keep(Step(s, c).effects, IsSleep) == [Slept(SLEEP_TIME)]
  {
    var c := Cycle(Answered(Response(code, body)), d);
    var msg := "Ошибка ответа сервера " + IntToString(code);
    assert Observe(c.fetch) == Broken(ValueError(msg));
    assert CRASH_PREFIX + msg == "Бот упал с ошибкой: " + "Ошибка ответа сервера " + IntToString(code);
    BrokenPassKeepsState(s, c);
    StepEffects(s, c);
  }
}
