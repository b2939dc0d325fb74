/** One iteration of main's polling loop in homework.py, as a transition of
    the time cursor, a bounded run of iterations, and the bot object that
    keeps the cursor and the messages it has sent. */
module Polling {
  import opened Wrappers
  import opened PyValues
  import opened Homework

  /** The value main gives the cursor before its first iteration. */
  const InitialCursor: Json := JInt(1643477528)

  /** What one iteration meets from the outside: the current time (read only
      when the cursor is falsy), the homework endpoint, and whether the
      Telegram bot delivers a given text. */
  datatype World = World(now: int, server: Server, deliver: string -> bool)

  /** The outcome of one iteration: the new cursor, the messages sent, and
      the exception the loop caught, if any. */
  datatype Step = Step(cursor: Json, sent: seq<string>, error: Option<Error>)

  /** The body of the `try` after the request: read `homeworks`, notify about
      its element 0 when it is truthy, then move the cursor to the reply's
      `current_date` (None when absent). Any exception leaves the cursor. */
  function Process(cursor: Json, response: Json, deliver: string -> bool): (r: Step)
    ensures |r.sent| <= 1
    ensures r.error.Some? ==> r.cursor == cursor && r.sent == []
    ensures r.error.None? <==>
      && response.JObject?
      && (Truthy(DictGet(response.fields, "homeworks")) ==>
            && First(DictGet(response.fields, "homeworks")).Success?
            && ParseStatus(First(DictGet(response.fields, "homeworks")).value).Success?
            && deliver(ParseStatus(First(DictGet(response.fields, "homeworks")).value).value))
    ensures r.error.None? ==> r.cursor == DictGet(response.fields, "current_date")
    ensures !response.JObject? ==> r.error == Some(AttributeError)
    ensures r.sent != [] ==>
      && response.JObject?
      && DictGet(response.fields, "homeworks").JList?
      && DictGet(response.fields, "homeworks").items != []
      && r.sent == [ParseStatus(DictGet(response.fields, "homeworks").items[0]).value]
    ensures response.JObject? && !Truthy(DictGet(response.fields, "homeworks")) ==>
      r == Step(DictGet(response.fields, "current_date"), [], None)
    ensures r.error.None? && r.sent == [] ==> !Truthy(DictGet(response.fields, "homeworks"))
  {
    if !response.JObject? then Step(cursor, [], Some(AttributeError))
    else
      var homeworks := DictGet(response.fields, "homeworks");
      var advanced := DictGet(response.fields, "current_date");
      if !Truthy(homeworks) then Step(advanced, [], None)
      else
        match First(homeworks)
        case Failure(e) => Step(cursor, [], Some(e))
        case Success(homework) =>
          match ParseStatus(homework)
          case Failure(e) => Step(cursor, [], Some(e))
          case Success(message) =>
            if deliver(message) then Step(advanced, [message], None)
            else Step(cursor, [], Some(SendError))
  }

  /** One pass of the `while True` body: request, process, or catch. */
  function Iterate(cursor: Json, w: World): (r: Step)
    ensures |r.sent| <= 1
    ensures r.error.Some? ==> r.cursor == cursor && r.sent == []
    ensures GetApiAnswer(cursor, w.now, w.server).Failure? ==>
      r == Step(cursor, [], Some(GetApiAnswer(cursor, w.now, w.server).error))
    ensures r.error.None? ==>
      && GetApiAnswer(cursor, w.now, w.server).Success?
      && GetApiAnswer(cursor, w.now, w.server).value.JObject?
      && r.cursor == DictGet(GetApiAnswer(cursor, w.now, w.server).value.fields, "current_date")
  {
    match GetApiAnswer(cursor, w.now, w.server)
    case Failure(e) => Step(cursor, [], Some(e))
    case Success(response) => Process(cursor, response, w.deliver)
  }

  /** What a run of iterations leaves behind: the final cursor, every message
      sent in order, and every exception the loop caught in order. */
  datatype History = History(cursor: Json, sent: seq<string>, errors: seq<Error>)

  /** The loop run over a finite sequence of iterations. */
  function Run(cursor: Json, ws: seq<World>): (r: History)
    ensures |r.sent| <= |ws| && |r.errors| <= |ws|
    decreases |ws|
  {
    if ws == [] then History(cursor, [], [])
    else
      var step := Iterate(cursor, ws[0]);
      var rest := Run(step.cursor, ws[1..]);
      History(rest.cursor, step.sent + rest.sent, ErrorLog(step.error) + rest.errors)
  }

  function ErrorLog(e: Option<Error>): seq<Error> {
    if e.Some? then [e.value] else []
  }

  /** Running from position i is one pass followed by the run from i + 1. */
  lemma RunFirst(cursor: Json, ws: seq<World>, i: nat)
    requires i < |ws|
    ensures var step := Iterate(cursor, ws[i]);
      && Run(cursor, ws[i..]).cursor == Run(step.cursor, ws[i + 1..]).cursor
      && Run(cursor, ws[i..]).sent == step.sent + Run(step.cursor, ws[i + 1..]).sent
      && Run(cursor, ws[i..]).errors == ErrorLog(step.error) + Run(step.cursor, ws[i + 1..]).errors
  {
    assert ws[i..][0] == ws[i];
    assert ws[i..][1..] == ws[i + 1..];
  }

  lemma Associative<T>(a: seq<T>, b: seq<T>, c: seq<T>)
    ensures a + (b + c) == (a + b) + c
  {
  }

  /** Each iteration either sends one message, or catches one exception, or
      neither, so their counts together never exceed the number of passes. */
  lemma {:induction false} RunSendsAtMostOnePerIteration(cursor: Json, ws: seq<World>)
    ensures |Run(cursor, ws).sent| + |Run(cursor, ws).errors| <= |ws|
    decreases |ws|
  {
    if ws != [] {
      RunSendsAtMostOnePerIteration(Iterate(cursor, ws[0]).cursor, ws[1..]);
    }
  }

  /** When every iteration raises, the cursor never moves and nothing is sent. */
  lemma {:induction false} RunFailingKeepsCursor(cursor: Json, ws: seq<World>)
    requires forall i | 0 <= i < |ws| :: GetApiAnswer(cursor, ws[i].now, ws[i].server).Failure?
    ensures Run(cursor, ws) == History(cursor, [], Run(cursor, ws).errors)
    ensures |Run(cursor, ws).errors| == |ws|
    decreases |ws|
  {
    if ws != [] {
      assert GetApiAnswer(cursor, ws[0].now, ws[0].server).Failure?;
      RunFailingKeepsCursor(cursor, ws[1..]);
    }
  }

  /** One pass that meets a newest record parse_status rejects. */
  lemma PassStuckOnUnparsableRecord(cursor: Json, response: Json, w: World)
    requires Truthy(cursor)
    requires response.JObject? && "homeworks" in response.fields
    requires response.fields["homeworks"].JList? && response.fields["homeworks"].items != []
    requires ParseStatus(response.fields["homeworks"].items[0]).Failure?
    requires w.server(cursor) == Reply(200, Some(response))
    ensures Iterate(cursor, w) == Step(cursor, [], Some(ParseStatus(response.fields["homeworks"].items[0]).error))
  {
    assert GetApiAnswer(cursor, w.now, w.server) == Success(response);
    assert First(DictGet(response.fields, "homeworks")) == Success(response.fields["homeworks"].items[0]);
  }

  /** A newest record that parse_status rejects stops the bot for as long as
      the endpoint keeps answering with that record first: with a truthy
      cursor the same window is requested every time, and since the cursor
      only moves after a successful send, nothing is sent meanwhile. */
  lemma {:induction false} RunStuckOnUnparsableRecord(cursor: Json, response: Json, ws: seq<World>)
    requires Truthy(cursor)
    requires response.JObject? && "homeworks" in response.fields
    requires response.fields["homeworks"].JList? && response.fields["homeworks"].items != []
    requires ParseStatus(response.fields["homeworks"].items[0]).Failure?
    requires forall i | 0 <= i < |ws| :: ws[i].server(cursor) == Reply(200, Some(response))
    ensures Run(cursor, ws).cursor == cursor
    ensures Run(cursor, ws).sent == []
    ensures |Run(cursor, ws).errors| == |ws|
    decreases |ws|
  {
    if ws != [] {
      PassStuckOnUnparsableRecord(cursor, response, ws[0]);
      RunStuckOnUnparsableRecord(cursor, response, ws[1..]);
    }
  }

  /** The block lasts only while that record comes first: once the endpoint
      answers with a newer record that parses and is delivered, its
      notification is sent and the cursor moves on. */
  lemma NewerRecordUnblocks(cursor: Json, w: World, fields: map<string, Json>, newer: Json, rest: seq<Json>)
    requires Truthy(cursor)
    requires "homeworks" in fields && fields["homeworks"] == JList([newer] + rest)
    requires w.server(cursor) == Reply(200, Some(JObject(fields)))
    requires ParseStatus(newer).Success? && w.deliver(ParseStatus(newer).value)
    ensures Iterate(cursor, w) == Step(DictGet(fields, "current_date"), [ParseStatus(newer).value], None)
  {
    assert GetApiAnswer(cursor, w.now, w.server) == Success(JObject(fields));
    ProcessSendsFirstRecord(cursor, fields, newer, rest, w.deliver);
  }

  /** Records after the first never influence an iteration. */
  lemma OnlyFirstRecordMatters(cursor: Json, fields: map<string, Json>, first: Json,
                               rest1: seq<Json>, rest2: seq<Json>, deliver: string -> bool)
    ensures Process(cursor, JObject(fields["homeworks" := JList([first] + rest1)]), deliver)
         == Process(cursor, JObject(fields["homeworks" := JList([first] + rest2)]), deliver)
  {
  }

  /** main reads `homeworks` with `.get` and never calls check_response: a
      reply that check_response rejects for lacking `homeworks` still ends the
      iteration normally and moves the cursor. */
  lemma MainSkipsCheckResponse(cursor: Json, fields: map<string, Json>, deliver: string -> bool)
    requires "homeworks" !in fields
    ensures CheckResponse(JObject(fields)).Failure?
    ensures Process(cursor, JObject(fields), deliver) == Step(DictGet(fields, "current_date"), [], None)
  {
  }

  /** A successful reply without `current_date` leaves the cursor None, so
      the next request starts its window at the current time. */
  lemma MissingDateFallsBackToNow(cursor: Json, w: World, next: World)
    requires Iterate(cursor, w).error.None?
    requires "current_date" !in GetApiAnswer(cursor, w.now, w.server).value.fields
    ensures Iterate(cursor, w).cursor == JNull
    ensures GetApiAnswer(Iterate(cursor, w).cursor, next.now, next.server) == Answer(next.server(JInt(next.now)))
  {
  }

  /** A non-200 reply is caught: nothing is sent and the cursor stays. */
  lemma NonOkStatusKeepsCursor(cursor: Json, w: World, code: int, body: Option<Json>)
    requires w.server(FromDate(cursor, w.now)) == Reply(code, body) && code != 200
    ensures Iterate(cursor, w) == Step(cursor, [], Some(NonOkStatus(code)))
  {
  }

  /** A truthy list of homeworks whose first record parses and is delivered:
      that record's notification is the one message sent, and the cursor moves
      to the reply's current_date. */
  lemma ProcessSendsFirstRecord(cursor: Json, fields: map<string, Json>, first: Json,
                                rest: seq<Json>, deliver: string -> bool)
    requires "homeworks" in fields && fields["homeworks"] == JList([first] + rest)
    requires ParseStatus(first).Success? && deliver(ParseStatus(first).value)
    ensures Process(cursor, JObject(fields), deliver)
         == Step(DictGet(fields, "current_date"), [ParseStatus(first).value], None)
  {
  }

  /** Example: a reply whose only homework is named hw1 with status approved,
      and whose current_date is 1700000000; the verdict is the catalog entry
      for "approved". */
  lemma ApprovedExample(cursor: Json, deliver: string -> bool)
    requires deliver("Изменился статус проверки работы \"hw1\". " + ApprovedVerdict)
    ensures Process(cursor,
                    JObject(map["homeworks" := JList([JObject(map["homework_name" := JStr("hw1"), "status" := JStr("approved")])]),
                                "current_date" := JInt(1700000000)]),
                    deliver)
         == Step(JInt(1700000000),
                 ["Изменился статус проверки работы \"hw1\". " + ApprovedVerdict],
                 None)
  {
    var record := map["homework_name" := JStr("hw1"), "status" := JStr("approved")];
    assert record == map[]["homework_name" := JStr("hw1")]["status" := JStr("approved")];
    ApprovedHw1Message();
    var response := map["homeworks" := JList([JObject(record)]), "current_date" := JInt(1700000000)];
    assert response["homeworks"] == JList([JObject(record)] + []);
    ProcessSendsFirstRecord(cursor, response, JObject(record), [], deliver);
  }

  lemma ApprovedHw1Message()
    ensures ParseStatus(JObject(map[]["homework_name" := JStr("hw1")]["status" := JStr("approved")]))
         == Success("Изменился статус проверки работы \"hw1\". " + ApprovedVerdict)
  {
    ParseStatusCatalog(map[], "hw1", "approved");
    assert Statuses["approved"] == ApprovedVerdict;
    assert "Изменился статус проверки работы \"" + "hw1" + "\". " == "Изменился статус проверки работы \"hw1\". ";
  }

  /** The running bot: the cursor main keeps in `current_timestamp`, and the
      messages Telegram has accepted so far. */
  class Poller {
    var cursor: Json
    var outbox: seq<string>

    constructor ()
      ensures cursor == InitialCursor && outbox == []
    {
      cursor := InitialCursor;
      outbox := [];
    }

    /** One iteration of the loop; returns the exception it caught, if any. */
    method Poll(w: World) returns (caught: Option<Error>)
      modifies this
      ensures cursor == Iterate(old(cursor), w).cursor
      ensures outbox == old(outbox) + Iterate(old(cursor), w).sent
      ensures caught == Iterate(old(cursor), w).error
    {
      var answer := GetApiAnswer(cursor, w.now, w.server);
      if answer.Failure? {
        return Some(answer.error);
      }
      var response := answer.value;
      if !response.JObject? {
        return Some(AttributeError);
      }
      var homeworks := DictGet(response.fields, "homeworks");
      if Truthy(homeworks) {
        var homework := First(homeworks);
        if homework.Failure? {
          return Some(homework.error);
        }
        var message := ParseStatus(homework.value);
        if message.Failure? {
          return Some(message.error);
        }
        if !w.deliver(message.value) {
          return Some(SendError);
        }
        outbox := outbox + [message.value];
      }
      cursor := DictGet(response.fields, "current_date");
      caught := None;
    }

    /** The loop over a finite sequence of iterations; returns the log of
        exceptions caught. */
    method Serve(ws: seq<World>) returns (log: seq<Error>)
      modifies this
      ensures cursor == Run(old(cursor), ws).cursor
      ensures outbox == old(outbox) + Run(old(cursor), ws).sent
      ensures log == Run(old(cursor), ws).errors
    {
      log := [];
      var i := 0;
      while i < |ws|
        invariant 0 <= i <= |ws|
        invariant Run(old(cursor), ws).cursor == Run(cursor, ws[i..]).cursor
        invariant old(outbox) + Run(old(cursor), ws).sent == outbox + Run(cursor, ws[i..]).sent
        invariant Run(old(cursor), ws).errors == log + Run(cursor, ws[i..]).errors
      {
        ghost var step := Iterate(cursor, ws[i]);
        ghost var rest := Run(step.cursor, ws[i + 1..]);
        RunFirst(cursor, ws, i);
        Associative(outbox, step.sent, rest.sent);
        Associative(log, ErrorLog(step.error), rest.errors);
        var caught := Poll(ws[i]);
        log := log + ErrorLog(caught);
        i := i + 1;
      }
    }
  }
}
