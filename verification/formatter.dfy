/** `parse_homework_status`: the message the watcher sends for one homework
    record, or the exception that formatting it raises. */
module Formatter {
  import opened JsonValues
  import opened Wrappers
  import opened Exceptions

  const NAME_KEY := "homework_name"
  const STATUS_KEY := "status"

  const REJECTED_VERDICT := "К сожалению, в работе нашлись ошибки."
  const APPROVED_VERDICT := "Ревьюеру всё понравилось, работа зачтена!"

  const REVIEWING_PREFIX := "Домашка "
  const REVIEWING_SUFFIX := " взята в работу"
  const CHECKED_PREFIX := "У вас проверили работу \""
  const CHECKED_INFIX := "\"!\n\n"

  /** The three review states the formatter recognises. */
  datatype Status = Rejected | Reviewing | Approved

  /** What a notification says: whose homework, and in which state. */
  datatype Notice = Notice(name: string, status: Status)

  /** A successful formatting: the chat message and the INFO line logged
      while choosing it. */
  datatype Formatted = Formatted(message: string, note: string)

  /** The record is a dictionary whose `homework_name` is present and not null
      (`homework.get('homework_name') is not None`). */
  predicate HasName(hw: Json)
  {
    hw.JObj? && NAME_KEY in hw.fields && hw.fields[NAME_KEY] != JNull
  }

  /** The record's `status` compares equal to one of the recognised strings. */
  predicate HasKnownStatus(hw: Json)
  {
    hw.JObj? && STATUS_KEY in hw.fields &&
    hw.fields[STATUS_KEY] in {JStr("rejected"), JStr("reviewing"), JStr("approved")}
  }

  function ReadStatus(j: Json): Option<Status>
  {
    if j == JStr("rejected") then Some(Rejected)
    else if j == JStr("reviewing") then Some(Reviewing)
    else if j == JStr("approved") then Some(Approved)
    else None
  }

  function StatusNote(st: Status): string
  {
    match st
    case Rejected => "Домашку нужно доделать"
    case Reviewing => "Домашку начали проверять"
    case Approved => "С домашкой все ОК"
  }

  /** The two message templates: one for work taken up for review, one shared
      by the two final verdicts. */
  function Render(n: Notice): string
  {
    match n.status
    case Reviewing => REVIEWING_PREFIX + n.name + REVIEWING_SUFFIX
    case Rejected => CHECKED_PREFIX + n.name + CHECKED_INFIX + REJECTED_VERDICT
    case Approved => CHECKED_PREFIX + n.name + CHECKED_INFIX + APPROVED_VERDICT
  }

  /** `parse_homework_status(homework)`. A record that is not a dictionary
      fails on `.get`; a missing or null name raises ValueError; a missing
      status raises KeyError; any other status leaves `verdict` unbound. */
  function ParseHomeworkStatus(hw: Json): (r: Result<Formatted, Error>)
    ensures !HasName(hw) ==> r.Failure?
    ensures r.Success? <==> HasName(hw) && HasKnownStatus(hw)
  {
    if !hw.JObj? then Failure(AttributeError(TypeName(hw), "get"))
    else if NAME_KEY !in hw.fields || hw.fields[NAME_KEY] == JNull then Failure(ValueError("Нет такого поля"))
    else if STATUS_KEY !in hw.fields then Failure(KeyError(JStr(STATUS_KEY)))
    else match ReadStatus(hw.fields[STATUS_KEY])
      case None => Failure(UnboundLocalError("verdict"))
      case Some(st) => Success(Formatted(Render(Notice(Show(hw.fields[NAME_KEY]), st)), StatusNote(st)))
  }

  /** The exact outcomes: a record without a name (or with a null one) fails
      with ValueError whatever its status; a named record without a status
      raises KeyError, and one with any other status leaves `verdict`
      unbound; `reviewing` has its own short
      template; `rejected` and `approved` share the second template, each
      with its fixed verdict sentence. */
  lemma FormatterMessages(hw: Json)
    ensures hw.JObj? && !HasName(hw) ==> ParseHomeworkStatus(hw) == Failure(ValueError("Нет такого поля"))
    ensures HasName(hw) && STATUS_KEY !in hw.fields ==> ParseHomeworkStatus(hw) == Failure(KeyError(JStr("status")))
    ensures HasName(hw) && STATUS_KEY in hw.fields && !HasKnownStatus(hw) ==>
              ParseHomeworkStatus(hw) == Failure(UnboundLocalError("verdict"))
    ensures HasName(hw) && HasKnownStatus(hw) && hw.fields[STATUS_KEY] == JStr("reviewing") ==>
              ParseHomeworkStatus(hw).value.message ==
              "Домашка " + Show(hw.fields[NAME_KEY]) + " взята в работу"
    ensures HasName(hw) && HasKnownStatus(hw) && hw.fields[STATUS_KEY] == JStr("rejected") ==>
              ParseHomeworkStatus(hw).value.message ==
              "У вас проверили работу \"" + Show(hw.fields[NAME_KEY]) + "\"!\n\n" +
              "К сожалению, в работе нашлись ошибки."
    ensures HasName(hw) && HasKnownStatus(hw) && hw.fields[STATUS_KEY] == JStr("approved") ==>
              ParseHomeworkStatus(hw).value.message ==
              "У вас проверили работу \"" + Show(hw.fields[NAME_KEY]) + "\"!\n\n" +
              "Ревьюеру всё понравилось, работа зачтена!"
  {
  }

  predicate HasPrefix(s: string, p: string) { |p| <= |s| && s[..|p|] == p }
  predicate HasSuffix(s: string, q: string) { |q| <= |s| && s[|s| - |q|..] == q }

  /** The text strictly between a prefix and a suffix of `s`, if `s` has both
      without overlap. */
  function Between(s: string, p: string, q: string): (r: Option<string>)
    ensures r.Some? ==> s == p + r.value + q
  {
    if |p| + |q| <= |s| && HasPrefix(s, p) && HasSuffix(s, q) then
      var mid := s[|p|..|s| - |q|];
      assert s == s[..|p|] + mid + s[|s| - |q|..];
      Some(mid)
    else None
  }

  /** Reads a notification back: which template it follows and the name it
      carries. The three templates end differently, so this is unambiguous. */
  function ReadNotification(msg: string): Option<Notice>
  {
    var reviewing := Between(msg, REVIEWING_PREFIX, REVIEWING_SUFFIX);
    var rejected := Between(msg, CHECKED_PREFIX, CHECKED_INFIX + REJECTED_VERDICT);
    var approved := Between(msg, CHECKED_PREFIX, CHECKED_INFIX + APPROVED_VERDICT);
    if reviewing.Some? then Some(Notice(reviewing.value, Reviewing))
    else if rejected.Some? then Some(Notice(rejected.value, Rejected))
    else if approved.Some? then Some(Notice(approved.value, Approved))
    else None
  }

  lemma BetweenOf(p: string, x: string, q: string)
    ensures Between(p + x + q, p, q) == Some(x)
  {
    var s := p + x + q;
    assert s[..|p|] == p;
    assert s[|s| - |q|..] == q;
    assert s[|p|..|s| - |q|] == x;
  }

  lemma SuffixLastChar(s: string, q: string)
    requires |q| > 0 && HasSuffix(s, q)
    ensures s[|s| - 1] == q[|q| - 1]
  {
    assert s[|s| - |q|..][|q| - 1] == s[|s| - 1];
  }

  lemma PrefixFirstChar(s: string, p: string)
    requires |p| > 0 && HasPrefix(s, p)
    ensures s[0] == p[0]
  {
    assert s[..|p|][0] == s[0];
  }

  /** A string whose last character differs from the last character of `q`
      does not end with `q`, so nothing lies between any prefix and `q`. */
  lemma NoSuffixByLastChar(s: string, p: string, q: string)
    requires |s| > 0 && |q| > 0 && s[|s| - 1] != q[|q| - 1]
    ensures !HasSuffix(s, q)
    ensures Between(s, p, q).None?
  {
    if HasSuffix(s, q) {
      SuffixLastChar(s, q);
    }
  }

  /** Reading a rendered notification recovers its name and status. */
  lemma ReadRendered(n: Notice)
    ensures ReadNotification(Render(n)) == Some(n)
  {
    var msg := Render(n);
    match n.status
    case Reviewing =>
      BetweenOf(REVIEWING_PREFIX, n.name, REVIEWING_SUFFIX);
    case Rejected =>
      assert msg[0] == 'У';
      assert !HasPrefix(msg, REVIEWING_PREFIX) by {
        if HasPrefix(msg, REVIEWING_PREFIX) { PrefixFirstChar(msg, REVIEWING_PREFIX); }
      }
      BetweenOf(CHECKED_PREFIX, n.name, CHECKED_INFIX + REJECTED_VERDICT);
      assert msg == CHECKED_PREFIX + n.name + (CHECKED_INFIX + REJECTED_VERDICT);
    case Approved =>
      assert msg[0] == 'У';
      assert !HasPrefix(msg, REVIEWING_PREFIX) by {
        if HasPrefix(msg, REVIEWING_PREFIX) { PrefixFirstChar(msg, REVIEWING_PREFIX); }
      }
      assert msg == CHECKED_PREFIX + n.name + (CHECKED_INFIX + APPROVED_VERDICT);
      assert msg[|msg| - 1] == '!';
      NoSuffixByLastChar(msg, CHECKED_PREFIX, CHECKED_INFIX + REJECTED_VERDICT);
      BetweenOf(CHECKED_PREFIX, n.name, CHECKED_INFIX + APPROVED_VERDICT);
  }

  /** Whatever `ReadNotification` accepts is exactly a rendered notification:
      together with `ReadRendered`, `Render` and `ReadNotification` are
      inverse, so a message determines the name and the verdict. */
  lemma ReadOnlyRendered(msg: string)
    ensures ReadNotification(msg).Some? ==> Render(ReadNotification(msg).value) == msg
  {
    var reviewing := Between(msg, REVIEWING_PREFIX, REVIEWING_SUFFIX);
    var rejected := Between(msg, CHECKED_PREFIX, CHECKED_INFIX + REJECTED_VERDICT);
    var approved := Between(msg, CHECKED_PREFIX, CHECKED_INFIX + APPROVED_VERDICT);
    if reviewing.Some? {
      assert ReadNotification(msg) == Some(Notice(reviewing.value, Reviewing));
    } else if rejected.Some? {
      assert ReadNotification(msg) == Some(Notice(rejected.value, Rejected));
      RegroupTail(CHECKED_PREFIX, rejected.value, CHECKED_INFIX, REJECTED_VERDICT);
    } else if approved.Some? {
      assert ReadNotification(msg) == Some(Notice(approved.value, Approved));
      RegroupTail(CHECKED_PREFIX, approved.value, CHECKED_INFIX, APPROVED_VERDICT);
    }
  }

  lemma RegroupTail(a: string, b: string, c: string, d: string)
    ensures a + b + (c + d) == a + b + c + d
  {
  }

  /** Every successful formatting renders the record's shown name and status,
      so the message names the homework and its verdict without ambiguity. */
  lemma FormattedNotice(hw: Json)
    requires ParseHomeworkStatus(hw).Success?
    ensures ReadNotification(ParseHomeworkStatus(hw).value.message) ==
            Some(Notice(Show(hw.fields[NAME_KEY]), ReadStatus(hw.fields[STATUS_KEY]).value))
  {
    ReadRendered(Notice(Show(hw.fields[NAME_KEY]), ReadStatus(hw.fields[STATUS_KEY]).value));
  }

  /** Two records with the same shown name get the same message exactly when
      their statuses agree. */
  lemma MessagesSeparateStatuses(hw1: Json, hw2: Json)
    requires ParseHomeworkStatus(hw1).Success? && ParseHomeworkStatus(hw2).Success?
    requires Show(hw1.fields[NAME_KEY]) == Show(hw2.fields[NAME_KEY])
    ensures ParseHomeworkStatus(hw1).value.message == ParseHomeworkStatus(hw2).value.message
            <==> hw1.fields[STATUS_KEY] == hw2.fields[STATUS_KEY]
  {
    FormattedNotice(hw1);
    FormattedNotice(hw2);
  }
}
