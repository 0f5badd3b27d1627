/** The logger the watcher installs, reduced to what it decides: every record
    reaches the file and console handlers, and records at or above the alert
    threshold are also forwarded through `send_message` to the chat. A failed
    send is itself logged, at WARNING, which is below the threshold: that
    asymmetry is what makes the alert path terminate, and it is the measure in
    the `decreases` clauses below. */
module Logging {
  import opened JsonValues

  /** Python logging levels, ordered as naturals. */
  type Level = nat

  const DEBUG: Level := 10
  const INFO: Level := 20
  const WARNING: Level := 30
  const ERROR: Level := 40
  const CRITICAL: Level := 50

  /** The level of the chat-forwarding handler. */
  const ALERT_LEVEL: Level := ERROR

  /** The name the module-level logger gets when the script is run directly. */
  const LOGGER_NAME := "__main__"

  datatype LogRecord = LogRecord(level: Level, msg: string)

  /** What the chat transport does with one send attempt: it returns a message
      receipt (shown by `str()` as `receipt`) or raises with `reason`. */
  datatype Delivery = Delivered(receipt: string) | Undelivered(reason: string)

  /** An observable action of the watcher, in the order it happens. */
  datatype Effect =
    | Polled(fromDate: int)                  // a status query with this `from_date`
    | Wrote(rec: LogRecord)                  // the record reaches the file and console handlers
    | Sent(text: string, outcome: Delivery)  // one `bot.send_message` attempt
    | Slept(seconds: nat)

  function LevelName(l: Level): string
  {
    if l == DEBUG then "DEBUG"
    else if l == INFO then "INFO"
    else if l == WARNING then "WARNING"
    else if l == ERROR then "ERROR"
    else if l == CRITICAL then "CRITICAL"
    else "Level " + NatToString(l)
  }

  /** The line the chat handler sends, `levelname, name, message` (the time
      stamp that leads the real line is not modelled). */
  function LogLine(rec: LogRecord): string
  {
    LevelName(rec.level) + ", " + LOGGER_NAME + ", " + rec.msg
  }

  /** The warning `send_message` logs when the transport raises. */
  function SendFailureRecord(reason: string): LogRecord
  {
    LogRecord(WARNING, "Не отправляется сообщение \"" + reason + "\"")
  }

  /** Logging one record: the file and console handlers write it, and the
      chat handler, when the level reaches its threshold, sends its line. */
  function Log(rec: LogRecord, d: Delivery): (es: seq<Effect>)
    ensures |es| > 0 && es[0] == Wrote(rec)
    decreases rec.level, 1
  {
    [Wrote(rec)] + (if rec.level >= ALERT_LEVEL then SendMessage(LogLine(rec), d) else [])
  }

  /** `send_message`: one send attempt; a failure is caught and logged. The
      measure is that of a WARNING record plus one, and every record that can
      reach `SendMessage` through `Log` is at ALERT_LEVEL > WARNING. */
  function SendMessage(text: string, d: Delivery): (es: seq<Effect>)
    ensures |es| > 0 && es[0] == Sent(text, d)
    decreases WARNING + 1, 0
  {
    [Sent(text, d)] +
    match d
    case Delivered(_) => []
    case Undelivered(reason) => Log(SendFailureRecord(reason), d)
  }

  predicate IsSend(e: Effect) { e.Sent? }
  predicate IsWrite(e: Effect) { e.Wrote? }
  predicate IsSleep(e: Effect) { e.Slept? }
  predicate IsPoll(e: Effect) { e.Polled? }

  /** The effects satisfying `p`, in order. */
  function Keep(es: seq<Effect>, p: Effect -> bool): (r: seq<Effect>)
    ensures |r| <= |es|
    ensures forall i | 0 <= i < |r| :: p(r[i])
    decreases |es|
  {
    if |es| == 0 then []
    else (if p(es[0]) then [es[0]] else []) + Keep(es[1..], p)
  }

  lemma {:induction false} KeepAppend(a: seq<Effect>, b: seq<Effect>, p: Effect -> bool)
    ensures Keep(a + b, p) == Keep(a, p) + Keep(b, p)
    decreases |a|
  {
    if |a| == 0 {
      assert a + b == b;
    } else {
      assert (a + b)[1..] == a[1..] + b;
      KeepAppend(a[1..], b, p);
    }
  }

  /** The written records of a run of effects. */
  function Records(es: seq<Effect>): (rs: seq<LogRecord>)
    ensures |rs| == |Keep(es, IsWrite)|
  {
    var ws := Keep(es, IsWrite);
    seq(|ws|, i requires 0 <= i < |ws| => ws[i].rec)
  }

  lemma RecordsAppend(a: seq<Effect>, b: seq<Effect>)
    ensures Records(a + b) == Records(a) + Records(b)
  {
    KeepAppend(a, b, IsWrite);
  }

  /** A record below the threshold is only written, never sent. */
  lemma QuietBelowThreshold(rec: LogRecord, d: Delivery)
    requires rec.level < ALERT_LEVEL
    ensures Log(rec, d) == [Wrote(rec)]
    ensures Keep(Log(rec, d), IsSend) == []
  {
  }

  /** The sends and writes of one `send_message` call: exactly one attempt,
      and on failure one WARNING record and nothing sent about it. */
  lemma SendMessageEffects(text: string, d: Delivery)
    ensures Keep(SendMessage(text, d), IsSend) == [Sent(text, d)]
    ensures Records(SendMessage(text, d)) ==
            if d.Undelivered? then [SendFailureRecord(d.reason)] else []
  {
    var tail := if d.Undelivered? then Log(SendFailureRecord(d.reason), d) else [];
    assert SendMessage(text, d) == [Sent(text, d)] + tail;
    KeepAppend([Sent(text, d)], tail, IsSend);
    KeepAppend([Sent(text, d)], tail, IsWrite);
    if d.Undelivered? {
      QuietBelowThreshold(SendFailureRecord(d.reason), d);
    }
  }

  /** After its attempt, `send_message` only writes records below the
      threshold. */
  lemma SendMessageTailBelowThreshold(text: string, d: Delivery)
    ensures SendMessage(text, d) == [Sent(text, d)] + SendMessage(text, d)[1..]
    ensures BelowThreshold(SendMessage(text, d)[1..])
  {
    if d.Undelivered? {
      QuietBelowThreshold(SendFailureRecord(d.reason), d);
    }
  }

  /** Severity routing: a record is forwarded to the chat exactly when its
      level reaches the threshold, and then in exactly one attempt whose text
      is the record's log line, even when that attempt fails. Besides the
      record itself, at most the send-failure warning is written, and it is
      below the threshold, so no further alert follows. */
  lemma {:induction false} AlertRouting(rec: LogRecord, d: Delivery)
    ensures Keep(Log(rec, d), IsSend) ==
            if rec.level >= ALERT_LEVEL then [Sent(LogLine(rec), d)] else []
    ensures Records(Log(rec, d)) ==
            [rec] + if rec.level >= ALERT_LEVEL && d.Undelivered?
                    then [SendFailureRecord(d.reason)] else []
    ensures forall i | 1 <= i < |Records(Log(rec, d))| :: Records(Log(rec, d))[i].level < ALERT_LEVEL
  {
    if rec.level >= ALERT_LEVEL {
      var tail := SendMessage(LogLine(rec), d);
      assert Log(rec, d) == [Wrote(rec)] + tail;
      KeepAppend([Wrote(rec)], tail, IsSend);
      RecordsAppend([Wrote(rec)], tail);
      SendMessageEffects(LogLine(rec), d);
    } else {
      QuietBelowThreshold(rec, d);
    }
  }

  /** A write that the chat handler forwards. */
  predicate IsAlert(e: Effect) { e.Wrote? && e.rec.level >= ALERT_LEVEL }

  /** Effects that are only records below the threshold. */
  predicate BelowThreshold(es: seq<Effect>)
  {
    forall i | 0 <= i < |es| :: es[i].Wrote? && es[i].rec.level < ALERT_LEVEL
  }

  /** `p` never selects a record below the threshold. */
  ghost predicate HighSelector(p: Effect -> bool)
  {
    forall e :: p(e) ==> !(e.Wrote? && e.rec.level < ALERT_LEVEL)
  }

  lemma {:induction false} KeepNone(es: seq<Effect>, p: Effect -> bool)
    requires forall i | 0 <= i < |es| :: !p(es[i])
    ensures Keep(es, p) == []
    decreases |es|
  {
    if |es| > 0 {
      KeepNone(es[1..], p);
    }
  }

  lemma KeepBelowThreshold(es: seq<Effect>, p: Effect -> bool)
    requires BelowThreshold(es) && HighSelector(p)
    ensures Keep(es, p) == []
  {
    KeepNone(es, p);
  }

  lemma HighSelectors()
    ensures HighSelector(IsSend) && HighSelector(IsSleep) && HighSelector(IsAlert) && HighSelector(IsPoll)
  {
  }

  lemma {:induction false} KeepAfterBelowThreshold(a: seq<Effect>, b: seq<Effect>, p: Effect -> bool)
    requires BelowThreshold(a) && HighSelector(p)
    ensures Keep(a + b, p) == Keep(b, p)
  {
    KeepAppend(a, b, p);
    KeepBelowThreshold(a, p);
  }

  /** What one `send_message` call contributes besides its attempt: nothing
      that sleeps or alerts. */
  lemma SendMessageIsNoAlert(text: string, d: Delivery)
    ensures Keep(SendMessage(text, d), IsSend) == [Sent(text, d)]
    ensures Keep(SendMessage(text, d), IsSleep) == []
    ensures Keep(SendMessage(text, d), IsAlert) == []
  {
    SendMessageEffects(text, d);
    var tail := if d.Undelivered? then Log(SendFailureRecord(d.reason), d) else [];
    assert SendMessage(text, d) == [Sent(text, d)] + tail;
    assert BelowThreshold(tail);
    HighSelectors();
    KeepAppend([Sent(text, d)], tail, IsSleep);
    KeepAppend([Sent(text, d)], tail, IsAlert);
    KeepBelowThreshold(tail, IsSleep);
    KeepBelowThreshold(tail, IsAlert);
  }

  /** Logging at or above the threshold: one alert record, one send attempt
      with its line, no sleep. */
  lemma AlertEffects(rec: LogRecord, d: Delivery)
    requires rec.level >= ALERT_LEVEL
    ensures Keep(Log(rec, d), IsSend) == [Sent(LogLine(rec), d)]
    ensures Keep(Log(rec, d), IsAlert) == [Wrote(rec)]
    ensures Keep(Log(rec, d), IsSleep) == []
  {
    AlertRouting(rec, d);
    SendMessageIsNoAlert(LogLine(rec), d);
    assert Log(rec, d) == [Wrote(rec)] + SendMessage(LogLine(rec), d);
    KeepAppend([Wrote(rec)], SendMessage(LogLine(rec), d), IsAlert);
    KeepAppend([Wrote(rec)], SendMessage(LogLine(rec), d), IsSleep);
  }

  /** The whole of what logging one record does. */
  lemma LogShape(rec: LogRecord, d: Delivery)
    ensures Log(rec, d) ==
            [Wrote(rec)] +
            if rec.level < ALERT_LEVEL then []
            else [Sent(LogLine(rec), d)] +
                 if d.Undelivered? then [Wrote(SendFailureRecord(d.reason))] else []
  {
    if rec.level >= ALERT_LEVEL && d.Undelivered? {
      QuietBelowThreshold(SendFailureRecord(d.reason), d);
    }
  }

  /** Logging never queries and never sleeps. */
  lemma LogNeitherPollsNorSleeps(rec: LogRecord, d: Delivery)
    ensures Keep(Log(rec, d), IsPoll) == []
    ensures Keep(Log(rec, d), IsSleep) == []
  {
    LogShape(rec, d);
    KeepNone(Log(rec, d), IsPoll);
    KeepNone(Log(rec, d), IsSleep);
  }
}
