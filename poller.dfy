/** The bot's main loop: start-up and one polling iteration. The HTTP call is
    replaced by its outcome, sending a message by appending it to `sent`, and
    the sleeps between iterations are dropped. */
module Bot {
  import opened PyRuntime
  import opened Homework

  /** What get_api_answer gave back: the decoded JSON answer, or the text of
      the exception it raised (`str(error)`). */
  datatype FetchOutcome = Fetched(response: Json) | FetchFailed(text: string)

  /** What the `try` block of one iteration ends with: a status message ready
      for deduplication, or the text of the exception caught. */
  datatype Cycle = Status(message: string) | Failure(text: string)

  const StartupMessage := "Запрашиваю статус!"

  /** The `try` block of one iteration: the cursor it leaves and how it ends.
      The cursor is taken from the answer with `response.get` before any
      validation, which raises AttributeError when the answer is not a dict. */
  function Attempt(cursor: Json, outcome: FetchOutcome): (Json, Cycle)
  {
    match outcome
    case FetchFailed(text) => (cursor, Failure(text))
    case Fetched(response) =>
      if !response.Map? then (cursor, Failure(ErrorText(AttrErr(NoGetMessage(response)))))
      else
        var cursor' := Get(response.fields, "current_date");
        match CheckResponse(response)
        case Err(e) => (cursor', Failure(ErrorText(e)))
        case Ok(homework) =>
          match ParseStatus(homework)
          case Err(e) => (cursor', Failure(ErrorText(e)))
          case Ok(message) => (cursor', Status(message))
  }

  /** The loop's variables: `timestamp`, `LAST_STATUS` and `ERROR`, with every
      message sent so far. */
  datatype State = State(cursor: Json, lastStatus: string, lastError: string, sent: seq<string>)

  /** One iteration of the loop: a status message or an error text is sent
      only when it differs from the one remembered in its own slot. */
  function Next(s: State, outcome: FetchOutcome): State
  {
    var (cursor', cycle) := Attempt(s.cursor, outcome);
    match cycle
    case Status(m) =>
      if m != s.lastStatus then State(cursor', m, s.lastError, s.sent + [m])
      else s.(cursor := cursor')
    case Failure(text) =>
      if text != s.lastError then State(cursor', s.lastStatus, text, s.sent + [text])
      else s.(cursor := cursor')
  }

  /** Iterations one after another, one per fetch outcome. */
  function Run(s: State, outcomes: seq<FetchOutcome>): State
    decreases |outcomes|
  {
    if outcomes == [] then s else Run(Next(s, outcomes[0]), outcomes[1..])
  }

  /** The state main holds right after start-up: the cursor at the current
      time, both slots empty, the start-up notice sent. */
  function Initial(now: int): State
  {
    State(Int(now), "", "", [StartupMessage])
  }

  class Poller {
    var timestamp: Json
    var lastStatus: string
    var lastError: string
    var sent: seq<string>

    function Snapshot(): State
      reads this
    {
      State(timestamp, lastStatus, lastError, sent)
    }

    /** Start-up after the configuration check passed. */
    constructor (now: int)
      ensures Snapshot() == Initial(now)
    {
      timestamp := Int(now);
      lastStatus := "";
      lastError := "";
      sent := [StartupMessage];
    }

    /** The body of `while True` in main, for one fetch outcome. */
    method Step(outcome: FetchOutcome)
      modifies this
      ensures Snapshot() == Next(old(Snapshot()), outcome)
    {
      var failure: Option<string> := None;
      match outcome {
        case FetchFailed(text) =>
          failure := Some(text);
        case Fetched(response) =>
          if !response.Map? {
            failure := Some(ErrorText(AttrErr(NoGetMessage(response))));
          } else {
            timestamp := Get(response.fields, "current_date");
            var checked := CheckResponse(response);
            var parsed := if checked.Ok? then ParseStatus(checked.value) else Err(checked.error);
            match parsed {
              case Ok(message) =>
                if message != lastStatus {
                  sent := sent + [message];
                  lastStatus := message;
                }
              case Err(e) =>
                failure := Some(ErrorText(e));
            }
          }
      }
      if failure.Some? && failure.value != lastError {
        sent := sent + [failure.value];
        lastError := failure.value;
      }
    }
  }

  /** main up to the loop: with any configuration value missing the process
      exits before sending anything; otherwise the start-up notice goes out. */
  method Launch(practicum: Option<string>, telegram: Option<string>, chatId: Option<string>, now: int)
    returns (poller: Poller?)
    ensures (poller != null) <==> Truthy(practicum) && Truthy(telegram) && Truthy(chatId)
    ensures poller != null ==> fresh(poller) && poller.Snapshot() == Initial(now)
  {
    var ok, _ := CheckTokens(practicum, telegram, chatId);
    if !ok {
      return null;
    }
    poller := new Poller(now);
  }

  // ---------------------------------------------------------------------------
  // Properties of one iteration

  /** Success path: the message is sent exactly when it differs from
      LAST_STATUS, LAST_STATUS then holds it, and ERROR is left alone. */
  lemma StatusDeduplicated(s: State, outcome: FetchOutcome, m: string)
    requires Attempt(s.cursor, outcome).1 == Status(m)
    ensures Next(s, outcome).sent == if m != s.lastStatus then s.sent + [m] else s.sent
    ensures Next(s, outcome).lastStatus == m
    ensures Next(s, outcome).lastError == s.lastError
  {
  }

  /** Failure path: the same rule for the error text and ERROR, leaving
      LAST_STATUS alone. */
  lemma ErrorDeduplicated(s: State, outcome: FetchOutcome, text: string)
    requires Attempt(s.cursor, outcome).1 == Failure(text)
    ensures Next(s, outcome).sent == if text != s.lastError then s.sent + [text] else s.sent
    ensures Next(s, outcome).lastError == text
    ensures Next(s, outcome).lastStatus == s.lastStatus
  {
  }

  /** A dict answer moves the cursor to its `current_date` (None when absent)
      whatever validation says afterwards; a failed fetch or an answer that is
      not a dict leaves it where it was. */
  lemma CursorUpdate(s: State, outcome: FetchOutcome)
    ensures outcome.Fetched? && outcome.response.Map? ==>
      Next(s, outcome).cursor == Get(outcome.response.fields, "current_date")
    ensures outcome.FetchFailed? || !outcome.response.Map? ==> Next(s, outcome).cursor == s.cursor
  {
  }

  /** An iteration repeated with the same outcome changes nothing more: in
      particular it sends nothing. */
  lemma NextIdempotent(s: State, outcome: FetchOutcome)
    ensures Next(Next(s, outcome), outcome) == Next(s, outcome)
  {
  }

  /** However many iterations in a row see the same outcome, they send what
      the first one sends and nothing more. */
  lemma {:induction false} RepeatedOutcome(s: State, outcome: FetchOutcome, n: nat)
    requires n > 0
    ensures Run(s, seq(n, _ => outcome)) == Next(s, outcome)
    decreases n
  {
    var os := seq(n, _ => outcome);
    if n > 1 {
      assert os[1..] == seq(n - 1, _ => outcome);
      RepeatedOutcome(Next(s, outcome), outcome, n - 1);
      NextIdempotent(s, outcome);
    } else {
      assert os[1..] == [];
    }
  }

  /** Messages are only ever appended, at most one per iteration. */
  lemma {:induction false} RunAppends(s: State, outcomes: seq<FetchOutcome>)
    ensures |s.sent| <= |Run(s, outcomes).sent| <= |s.sent| + |outcomes|
    ensures Run(s, outcomes).sent[..|s.sent|] == s.sent
    decreases |outcomes|
  {
    if outcomes != [] {
      var t := Next(s, outcomes[0]);
      RunAppends(t, outcomes[1..]);
      assert t.sent[..|s.sent|] == s.sent;
    }
  }

  /** An answer that is not a dict fails at `response.get`, before
      check_response: the AttributeError text is reported, never
      check_response's own "not a dict" message, and the cursor stays. */
  lemma NonDictAnswer(cursor: Json, response: Json)
    requires !response.Map?
    ensures Attempt(cursor, Fetched(response)) == (cursor, Failure(NoGetMessage(response)))
    ensures NoGetMessage(response) != NotDictMessage
  {
  }

  /** An answer with an empty `homeworks` list is reported as an error, with
      the cursor advanced and LAST_STATUS untouched. */
  lemma EmptyHomeworksReported(s: State, fields: map<string, Json>)
    requires Get(fields, "homeworks") == List([])
    ensures Next(s, Fetched(Map(fields))).cursor == Get(fields, "current_date")
    ensures Next(s, Fetched(Map(fields))).lastStatus == s.lastStatus
    ensures Next(s, Fetched(Map(fields))).lastError == EmptyListMessage
    ensures Next(s, Fetched(Map(fields))).sent ==
      if s.lastError != EmptyListMessage then s.sent + [EmptyListMessage] else s.sent
  {
  }

  /** After one status report, a changed status of the same homework is
      always sent, whatever else the two answers hold. */
  lemma StatusChangeSent(s: State, f1: map<string, Json>, f2: map<string, Json>)
    requires CheckResponse(Map(f1)).Ok? && CheckResponse(Map(f2)).Ok?
    requires ParseStatus(CheckResponse(Map(f1)).value).Ok?
    requires ParseStatus(CheckResponse(Map(f2)).value).Ok?
    requires CheckResponse(Map(f1)).value.fields["homework_name"] == CheckResponse(Map(f2)).value.fields["homework_name"]
    requires CheckResponse(Map(f1)).value.fields["status"] != CheckResponse(Map(f2)).value.fields["status"]
    ensures Next(Next(s, Fetched(Map(f1))), Fetched(Map(f2))).sent ==
      Next(s, Fetched(Map(f1))).sent + [ParseStatus(CheckResponse(Map(f2)).value).value]
  {
  }

  function Record(name: string, status: string): Json
  {
    Map(map["homework_name" := Str(name), "status" := Str(status)])
  }

  function Answer(homework: Json, date: int): FetchOutcome
  {
    Fetched(Map(map["homeworks" := List([homework]), "current_date" := Int(date)]))
  }

  /** Three polls: "hw1" taken for review, the same again, then approved. The
      first and the third are notified, the second is not. */
  lemma ReviewThenApproveScenario(now: int, t1: int, t2: int, t3: int)
    ensures Run(Initial(now), [Answer(Record("hw1", "reviewing"), t1),
                               Answer(Record("hw1", "reviewing"), t2),
                               Answer(Record("hw1", "approved"), t3)]).sent ==
      [StartupMessage, StatusMessage("hw1", ReviewingText), StatusMessage("hw1", ApprovedText)]
  {
    var os := [Answer(Record("hw1", "reviewing"), t1),
               Answer(Record("hw1", "reviewing"), t2),
               Answer(Record("hw1", "approved"), t3)];
    var reviewing := StatusMessage("hw1", ReviewingText);
    var approved := StatusMessage("hw1", ApprovedText);
    var s1 := Next(Initial(now), os[0]);
    assert s1.sent == [StartupMessage, reviewing];
    var s2 := Next(s1, os[1]);
    assert s2.sent == s1.sent;
    assert reviewing != approved by {
      if reviewing == approved {
        StatusMessageDeterminesVerdict("hw1", ReviewingText, ApprovedText);
      }
    }
    var s3 := Next(s2, os[2]);
    assert s3.sent == s2.sent + [approved];
    assert Run(s3, os[1..][1..][1..]) == s3 by { assert os[1..][1..][1..] == []; }
    assert Run(s2, os[1..][1..]) == Run(s3, os[1..][1..][1..]);
    assert Run(s1, os[1..]) == Run(s2, os[1..][1..]);
  }
}
