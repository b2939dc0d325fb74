/** The decision logic of homework.py: the status catalog, the notification
    text built from one homework record, the response and token checks, and
    the status-code handling of a request to the homework API. */
module Homework {
  import opened Wrappers
  import opened PyValues

  const ApprovedVerdict: string := "Работа проверена: ревьюеру всё понравилось. Ура!"
  const ReviewingVerdict: string := "Работа взята на проверку ревьюером."
  const RejectedVerdict: string := "Работа проверена: у ревьюера есть замечания."

  /** HOMEWORK_STATUSES: review status code to verdict sentence. */
  const Statuses: map<string, string> :=
    map["approved" := ApprovedVerdict, "reviewing" := ReviewingVerdict, "rejected" := RejectedVerdict]

  /** The fixed parts of the notification: the change notice around the
      quoted homework name, then the verdict. */
  const Prefix: string := "Изменился статус проверки работы \""
  const Separator: string := "\". "

  /** The two sentences: the change notice quoting the name, then the verdict. */
  function Notification(name: string, verdict: string): (r: string)
    ensures |r| == |Prefix| + |name| + |Separator| + |verdict|
    ensures r[..|Prefix|] == Prefix
    ensures r[|Prefix|..|Prefix| + |name|] == name
    ensures EndsWith(r, Separator + verdict)
  {
    AppendedPrefix(Prefix, name + (Separator + verdict));
    AppendedSuffix(Prefix + name, Separator + verdict);
    Prefix + (name + (Separator + verdict))
  }

  /** `HOMEWORK_STATUSES[status]` for a status value taken from a record. */
  function VerdictOf(status: Json): (r: Result<string, Error>)
    ensures r.Success? <==> status.JStr? && status.s in Statuses
    ensures r.Success? ==> r.value == Statuses[status.s]
    ensures r.Failure? && (status.JList? || status.JObject?) ==> r.error == TypeError
    ensures r.Failure? && !(status.JList? || status.JObject?) ==> r.error == KeyError(status)
  {
    match status
    case JStr(s) => if s in Statuses then Success(Statuses[s]) else Failure(KeyError(status))
    case JList(_) => Failure(TypeError)
    case JObject(_) => Failure(TypeError)
    case _ => Failure(KeyError(status))
  }

  /** parse_status: the notification for one homework record. The name is
      read before the status, so a record lacking both fails on the name. */
  function ParseStatus(homework: Json): (r: Result<string, Error>)
    ensures r.Success? <==>
      && homework.JObject?
      && "homework_name" in homework.fields
      && "status" in homework.fields
      && homework.fields["status"].JStr?
      && homework.fields["status"].s in Statuses
    ensures r.Success? ==>
      r.value == Notification(Display(homework.fields["homework_name"]), Statuses[homework.fields["status"].s])
    ensures !homework.JObject? ==> r == Failure(TypeError)
    ensures homework.JObject? && "homework_name" !in homework.fields ==>
      r == Failure(KeyError(JStr("homework_name")))
    ensures homework.JObject? && "homework_name" in homework.fields && "status" !in homework.fields ==>
      r == Failure(KeyError(JStr("status")))
  {
    match Subscript(homework, "homework_name")
    case Failure(e) => Failure(e)
    case Success(name) =>
      match Subscript(homework, "status")
      case Failure(e) => Failure(e)
      case Success(status) =>
        match VerdictOf(status)
        case Failure(e) => Failure(e)
        case Success(verdict) => Success(Notification(Display(name), verdict))
  }

  /** check_response: the `homeworks` value of a decoded response, which must
      be a list. An empty list is returned like any other. */
  function CheckResponse(response: Json): (r: Result<seq<Json>, Error>)
    ensures r.Success? <==>
      response.JObject? && "homeworks" in response.fields && response.fields["homeworks"].JList?
    ensures r.Success? ==> r.value == response.fields["homeworks"].items
    ensures !response.JObject? ==> r == Failure(TypeError)
    ensures response.JObject? && "homeworks" !in response.fields ==> r == Failure(KeyError(JStr("homeworks")))
    ensures response.JObject? && "homeworks" in response.fields && !response.fields["homeworks"].JList? ==>
      r == Failure(NotAList)
  {
    match Subscript(response, "homeworks")
    case Failure(e) => Failure(e)
    case Success(homework) =>
      if homework.JList? then Success(homework.items) else Failure(NotAList)
  }

  /** Python's `v is None`. */
  predicate IsNone(v: Json) {
    v == JNull
  }

  /** check_tokens: the three secrets read from the environment (None when
      unset) and whether a `.env` file exists. The file test compares a
      boolean with None, so it can never make the check fail; an empty
      secret is not None and passes. */
  function CheckTokens(envFileExists: bool, practicumToken: Option<string>,
                       telegramToken: Option<string>, telegramChatId: Option<string>): (ok: bool)
    ensures ok <==> practicumToken.Some? && telegramToken.Some? && telegramChatId.Some?
  {
    var checkFile := JBool(envFileExists);
    !(IsNone(checkFile) || practicumToken.None? || telegramToken.None? || telegramChatId.None?)
  }

  /** What the homework endpoint gives back for one request: no reply at all,
      or a status code with a body that may or may not decode as JSON. */
  datatype Reply =
    | NoConnection
    | Reply(statusCode: int, body: Option<Json>)

  /** The homework endpoint, as a function of the `from_date` query value. */
  type Server = Json -> Reply

  /** `current_timestamp or int(time.time())`: the start of the query window. */
  function FromDate(cursor: Json, now: int): (r: Json)
    ensures Truthy(cursor) ==> r == cursor
    ensures !Truthy(cursor) ==> r == JInt(now)
  {
    if Truthy(cursor) then cursor else JInt(now)
  }

  /** The status-code test and the `response.json()` of get_api_answer. */
  function Answer(reply: Reply): (r: Result<Json, Error>)
    ensures r.Success? <==> reply.Reply? && reply.statusCode == 200 && reply.body.Some?
    ensures r.Success? ==> r.value == reply.body.value
    ensures reply.Reply? && reply.statusCode != 200 ==> r == Failure(NonOkStatus(reply.statusCode))
  {
    match reply
    case NoConnection => Failure(ConnectionError)
    case Reply(code, body) =>
      if code != 200 then Failure(NonOkStatus(code))
      else if body.None? then Failure(JsonDecodeError)
      else Success(body.value)
  }

  /** get_api_answer: one request to the endpoint, starting the window at the
      cursor when it is truthy and at the current time otherwise. */
  function GetApiAnswer(cursor: Json, now: int, server: Server): (r: Result<Json, Error>)
    ensures Truthy(cursor) ==> r == Answer(server(cursor))
    ensures !Truthy(cursor) ==> r == Answer(server(JInt(now)))
    ensures r.Success? ==> server(FromDate(cursor, now)) == Reply(200, Some(r.value))
  {
    Answer(server(FromDate(cursor, now)))
  }

  /** Reads a notification back: the displayed name and the status code whose
      verdict ends the message, or None when the text is not a notification. */
  function ReadNotification(message: string): Option<(string, string)> {
    if |message| < |Prefix| || message[..|Prefix|] != Prefix then None
    else ReadTail(message[|Prefix|..])
  }

  /** The part of a notification after the prefix: the name, then the
      separator and a catalog verdict. */
  function ReadTail(rest: string): Option<(string, string)> {
    if EndsWith(rest, Separator + ApprovedVerdict) then Some((Drop(rest, Separator + ApprovedVerdict), "approved"))
    else if EndsWith(rest, Separator + ReviewingVerdict) then Some((Drop(rest, Separator + ReviewingVerdict), "reviewing"))
    else if EndsWith(rest, Separator + RejectedVerdict) then Some((Drop(rest, Separator + RejectedVerdict), "rejected"))
    else None
  }

  predicate EndsWith(s: string, suffix: string) {
    |suffix| <= |s| && s[|s| - |suffix|..] == suffix
  }

  function Drop(s: string, suffix: string): string
    requires EndsWith(s, suffix)
  {
    s[..|s| - |suffix|]
  }

  lemma AppendedSuffix(x: string, suffix: string)
    ensures EndsWith(x + suffix, suffix) && Drop(x + suffix, suffix) == x
  {
  }

  lemma LastCharsDiffer(s: string, suffix: string, k: nat)
    requires 0 < k <= |s| && k <= |suffix| && s[|s| - k] != suffix[|suffix| - k]
    ensures !EndsWith(s, suffix)
  {
  }

  lemma AppendedPrefix(prefix: string, x: string)
    ensures (prefix + x)[..|prefix|] == prefix && (prefix + x)[|prefix|..] == x
  {
  }

  /** The verdicts are told apart by their last two characters. */
  lemma VerdictEndings()
    ensures ApprovedVerdict[|ApprovedVerdict| - 1] == '!'
    ensures ReviewingVerdict[|ReviewingVerdict| - 1] == '.' && ReviewingVerdict[|ReviewingVerdict| - 2] == 'м'
    ensures RejectedVerdict[|RejectedVerdict| - 1] == '.' && RejectedVerdict[|RejectedVerdict| - 2] == 'я'
  {
  }

  lemma {:induction false} ReadTailInverts(name: string, status: string)
    requires status in Statuses
    ensures ReadTail(name + (Separator + Statuses[status])) == Some((name, status))
  {
    var a, v, j := Separator + ApprovedVerdict, Separator + ReviewingVerdict, Separator + RejectedVerdict;
    var rest := name + (Separator + Statuses[status]);
    AppendedSuffix(name, Separator + Statuses[status]);
    VerdictEndings();
    if status == "reviewing" {
      LastCharsDiffer(rest, a, 1);
    } else if status == "rejected" {
      LastCharsDiffer(rest, a, 1);
      LastCharsDiffer(rest, v, 2);
    }
  }

  /** Every notification can be read back to the name and the status it was
      built from, so no two (name, status) pairs share a message. */
  lemma {:induction false} ReadNotificationInverts(name: string, status: string)
    requires status in Statuses
    ensures ReadNotification(Notification(name, Statuses[status])) == Some((name, status))
  {
    var tail := name + (Separator + Statuses[status]);
    AppendedPrefix(Prefix, tail);
    ReadTailInverts(name, status);
  }

  /** Conversely, whatever reads as a notification is the notification of
      the name and status it reads as. */
  lemma ReadNotificationSound(message: string, name: string, status: string)
    requires ReadNotification(message) == Some((name, status))
    ensures status in Statuses
    ensures message == Notification(name, Statuses[status])
  {
    var rest := message[|Prefix|..];
    assert message == Prefix + rest;
    var suffix := Separator + Statuses[status];
    assert rest == Drop(rest, suffix) + suffix;
  }

  /** A successful parse_status message names the record's status: reading
      the message back gives the displayed name and the status code. */
  lemma ParseStatusReadable(homework: Json)
    requires ParseStatus(homework).Success?
    ensures ReadNotification(ParseStatus(homework).value)
         == Some((Display(homework.fields["homework_name"]), homework.fields["status"].s))
  {
    ReadNotificationInverts(Display(homework.fields["homework_name"]), homework.fields["status"].s);
  }

  /** The notification for a record carrying a catalog status and a string
      name, whatever other fields the record has. */
  lemma ParseStatusCatalog(fields: map<string, Json>, name: string, status: string)
    requires status in Statuses
    ensures ParseStatus(JObject(fields["homework_name" := JStr(name)]["status" := JStr(status)]))
         == Success("Изменился статус проверки работы \"" + name + "\". " + Statuses[status])
  {
    var verdict := Statuses[status];
    assert Prefix + name + Separator + verdict == Notification(name, verdict);
  }

  /** A status outside the catalog yields no message, only an error. */
  lemma ParseStatusUnknown(fields: map<string, Json>)
    requires "homework_name" in fields && "status" in fields
    requires fields["status"] !in {JStr("approved"), JStr("reviewing"), JStr("rejected")}
    ensures ParseStatus(JObject(fields)).Failure?
  {
  }

  /** check_response hands back any list it finds, the empty list included. */
  lemma CheckResponseReturnsList(fields: map<string, Json>, homeworks: seq<Json>)
    ensures CheckResponse(JObject(fields["homeworks" := JList(homeworks)])) == Success(homeworks)
    ensures CheckResponse(JObject(fields["homeworks" := JList([])])).Success?
  {
  }
}
