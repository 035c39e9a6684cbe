/** One iteration of the `while True` loop of `main`: fetch, validate, announce
    the first homework's status, and on any exception notify the failure unless
    it repeats the previous one. The request itself and the Telegram call are
    parameters: the fetch's classified outcome, and whether the send succeeded. */
module PollLoop {
  import opened Python
  import opened Exceptions
  import opened Homework

  /** The text every failure notification starts with. */
  const FailurePrefix: string := "Сбой в работе программы: "

  /** What Python 3.11 and later say when `send_message_status` is read before
      any iteration assigned it. */
  const UnboundSendStatusText: string :=
    "cannot access local variable 'send_message_status' where it is not associated with a value"

  /** The variables of `main` that carry over from one iteration to the next:
      the `from_date` watermark, the last failure notified, and the result of the
      last status send (None while `send_message_status` is still unbound). */
  datatype LoopState = LoopState(timestamp: Json, lastError: string, sendStatus: Option<bool>)

  /** `timestamp = 0`, `last_error = ''`, `send_message_status` not yet bound. */
  const Initial: LoopState := LoopState(JInt(0), "", None)

  /** The state after one iteration and the messages handed to the bot during it, in order. */
  datatype CycleResult = CycleResult(state: LoopState, messages: seq<string>)

  /** `if send_message_status:` taken: the watermark moves to the payload's
      `current_date` (any JSON value stored there, or unchanged when the key is
      absent) and the failure fingerprint is cleared. */
  function Confirm(s: LoopState, response: map<string, Json>): LoopState
  {
    s.(timestamp := GetOr(response, "current_date", s.timestamp), lastError := "")
  }

  /** The `try` block: either it raises (Err) or it completes with the new state
      and the messages sent. `delivered` is what `send_message` returns. */
  function TryBlock(s: LoopState, outcome: FetchOutcome, delivered: bool): Result<CycleResult>
  {
    var response :- GetApiAnswer(outcome);
    var homeworks :- CheckResponse(response);
    if homeworks != [] then
      var verdict :- ParseStatus(homeworks[0]);
      var sending := s.(sendStatus := Some(delivered));
      Ok(CycleResult(if delivered then Confirm(sending, response.fields) else sending, [verdict]))
    else
      match s.sendStatus
      case None => Err(UnboundLocalError(UnboundSendStatusText))
      case Some(ok) => Ok(CycleResult(if ok then Confirm(s, response.fields) else s, []))
  }

  /** The `except` block: notify the failure only when its text differs from the
      last one notified, and remember it whether or not the send succeeded. */
  function Except(s: LoopState, e: Error): CycleResult
  {
    var error := FailurePrefix + Str(e);
    if s.lastError != error then CycleResult(s.(lastError := error), [error])
    else CycleResult(s, [])
  }

  /** One whole iteration. */
  function Cycle(s: LoopState, outcome: FetchOutcome, delivered: bool): CycleResult
  {
    match TryBlock(s, outcome, delivered)
    case Ok(r) => r
    case Err(e) => Except(s, e)
  }

  /** The loop of `main` as an object: its carried-over variables are fields, and
      `sent` and `fromDates` log what went to the bot and to the API. */
  class Bot {
    var timestamp: Json
    var lastError: string
    var sendStatus: Option<bool>
    /** Every message handed to `bot.send_message`, delivered or not. */
    ghost var sent: seq<string>
    /** The `from_date` of every request made. */
    ghost var fromDates: seq<Json>

    function State(): LoopState
      reads this
    {
      LoopState(timestamp, lastError, sendStatus)
    }

    /** The state `main` enters its loop with. */
    constructor ()
      ensures State() == Initial && sent == [] && fromDates == []
    {
      timestamp := JInt(0);
      lastError := "";
      sendStatus := None;
      sent := [];
      fromDates := [];
    }

    /** send_message: hands the text to the bot, and reports whether the bot API
        accepted it instead of letting its exception escape. */
    method SendMessage(message: string, delivered: bool) returns (ok: bool)
      modifies this`sent
      ensures ok == delivered
      ensures sent == old(sent) + [message]
    {
      sent := sent + [message];
      ok := delivered;
    }

    /** One pass through the body of `while True`, the sleep left out. */
    method Step(outcome: FetchOutcome, delivered: bool)
      modifies this
      ensures State() == Cycle(old(State()), outcome, delivered).state
      ensures sent == old(sent) + Cycle(old(State()), outcome, delivered).messages
      ensures fromDates == old(fromDates) + [old(timestamp)]
    {
      fromDates := fromDates + [timestamp];
      var raised: Option<Error> := None;
      var response := GetApiAnswer(outcome);
      if response.Err? {
        raised := Some(response.error);
      } else {
        var homeworks := CheckResponse(response.value);
        if homeworks.Err? {
          raised := Some(homeworks.error);
        } else {
          if homeworks.value != [] {
            var verdict := ParseStatus(homeworks.value[0]);
            if verdict.Err? {
              raised := Some(verdict.error);
            } else {
              var ok := SendMessage(verdict.value, delivered);
              sendStatus := Some(ok);
            }
          }
          if raised.None? {
            match sendStatus
            case None =>
              raised := Some(UnboundLocalError(UnboundSendStatusText));
            case Some(ok) =>
              if ok {
                timestamp := GetOr(response.value.fields, "current_date", timestamp);
                lastError := "";
              }
          }
        }
      }
      if raised.Some? {
        var error := FailurePrefix + Str(raised.value);
        if lastError != error {
          var _ := SendMessage(error, delivered);
          lastError := error;
        }
      }
    }
  }

  // ---------------------------------------------------------------------------
  // What one iteration does
  // ---------------------------------------------------------------------------

  /** No iteration sends more than one message. */
  lemma AtMostOneMessage(s: LoopState, outcome: FetchOutcome, delivered: bool)
    ensures |Cycle(s, outcome, delivered).messages| <= 1
  {
  }

  /** On any exception the watermark and the send status stay as they were, the
      failure text becomes the fingerprint, and it is sent only if it is new. */
  lemma FailedCycle(s: LoopState, outcome: FetchOutcome, delivered: bool)
    requires TryBlock(s, outcome, delivered).Err?
    ensures var r := Cycle(s, outcome, delivered);
            var error := FailurePrefix + Str(TryBlock(s, outcome, delivered).error);
            && r.state.timestamp == s.timestamp
            && r.state.sendStatus == s.sendStatus
            && r.state.lastError == error
            && r.messages == (if s.lastError == error then [] else [error])
  {
  }

  /** The watermark moves only in an iteration that raised nothing and whose
      status flag is true; that iteration also clears the fingerprint. */
  lemma WatermarkMovesOnlyOnConfirmedCycle(s: LoopState, outcome: FetchOutcome, delivered: bool)
    ensures var r := Cycle(s, outcome, delivered);
            r.state.timestamp != s.timestamp ==>
              && TryBlock(s, outcome, delivered).Ok?
              && r.state.sendStatus == Some(true)
              && r.state.lastError == ""
  {
  }

  /** The reply the API gives on success: status 200 and a decodable dict. */
  function Payload(reason: string, response: map<string, Json>): FetchOutcome
  {
    Reply(HttpOk, reason, Decoded(JObj(response)))
  }

  /** A non-empty homework list: exactly one message, about the first homework
      only. If it was delivered the watermark moves to `current_date` (kept when
      absent) and the fingerprint is cleared; if not, nothing else changes and
      nothing is raised. A first homework parse_status refuses is a failure. */
  lemma StatusCycle(s: LoopState, reason: string, response: map<string, Json>, delivered: bool)
    requires "homeworks" in response && response["homeworks"].JList? && response["homeworks"].items != []
    ensures var first := response["homeworks"].items[0];
            var r := Cycle(s, Payload(reason, response), delivered);
            && (ParseStatus(first).Ok? ==>
                  && r.messages == [ParseStatus(first).value]
                  && r.state.sendStatus == Some(delivered)
                  && (delivered ==>
                        && r.state.lastError == ""
                        && r.state.timestamp ==
                             (if "current_date" in response then response["current_date"] else s.timestamp))
                  && (!delivered ==> r.state.timestamp == s.timestamp && r.state.lastError == s.lastError))
            && (ParseStatus(first).Err? ==> r == Except(s, ParseStatus(first).error))
  {
  }

  /** An empty homework list sends no status message. What happens next depends
      on the send status left by an earlier iteration: unbound, it raises; true,
      the watermark moves and the fingerprint is cleared; false, nothing changes. */
  lemma EmptyListCycle(s: LoopState, reason: string, response: map<string, Json>, delivered: bool)
    requires "homeworks" in response && response["homeworks"] == JList([])
    ensures var r := Cycle(s, Payload(reason, response), delivered);
            && (s.sendStatus == None ==> r == Except(s, UnboundLocalError(UnboundSendStatusText)))
            && (s.sendStatus == Some(true) ==>
                  && r.messages == []
                  && r.state.lastError == ""
                  && r.state.timestamp ==
                       (if "current_date" in response then response["current_date"] else s.timestamp))
            && (s.sendStatus == Some(false) ==> r == CycleResult(s, []))
  {
  }

  // ---------------------------------------------------------------------------
  // Two iterations in a row
  // ---------------------------------------------------------------------------

  /** Two consecutive failures with the same text notify at most once between
      them and leave the watermark where it was. */
  lemma RepeatedFailureNotifiedOnce(s: LoopState, outcome1: FetchOutcome, delivered1: bool,
                                    outcome2: FetchOutcome, delivered2: bool)
    requires TryBlock(s, outcome1, delivered1).Err?
    requires TryBlock(Cycle(s, outcome1, delivered1).state, outcome2, delivered2).Err?
    requires Str(TryBlock(s, outcome1, delivered1).error) ==
             Str(TryBlock(Cycle(s, outcome1, delivered1).state, outcome2, delivered2).error)
    ensures var r1 := Cycle(s, outcome1, delivered1);
            var r2 := Cycle(r1.state, outcome2, delivered2);
            |r1.messages + r2.messages| <= 1 && r2.messages == [] && r2.state.timestamp == s.timestamp
  {
  }

  /** A failure whose text differs from the one handled just before it is
      notified again, whatever was sent for the earlier one. */
  lemma ChangedFailureNotified(s: LoopState, e1: Error, e2: Error)
    requires Str(e1) != Str(e2)
    ensures Except(Except(s, e1).state, e2).messages == [FailurePrefix + Str(e2)]
  {
    assert (FailurePrefix + Str(e1))[|FailurePrefix|..] == Str(e1);
    assert (FailurePrefix + Str(e2))[|FailurePrefix|..] == Str(e2);
  }

  /** Two consecutive non-200 replies are notified twice exactly when their status
      codes or reasons differ. */
  lemma RepeatedErrorReplies(s: LoopState, code1: int, reason1: string, body1: Body,
                             code2: int, reason2: string, body2: Body, delivered1: bool, delivered2: bool)
    requires code1 != HttpOk && code2 != HttpOk
    ensures var r1 := Cycle(s, Reply(code1, reason1, body1), delivered1);
            var r2 := Cycle(r1.state, Reply(code2, reason2, body2), delivered2);
            && r2.state.timestamp == s.timestamp
            && (r2.messages == [] <==> code1 == code2 && reason1 == reason2)
  {
    var o1, o2 := Reply(code1, reason1, body1), Reply(code2, reason2, body2);
    var r1 := Cycle(s, o1, delivered1);
    var t1, t2 := ResponseApiErrorText(code1, reason1), ResponseApiErrorText(code2, reason2);
    assert TryBlock(s, o1, delivered1) == Err(ResponseApiError(t1));
    assert TryBlock(r1.state, o2, delivered2) == Err(ResponseApiError(t2));
    if t1 == t2 {
      RepeatedFailureNotifiedOnce(s, o1, delivered1, o2, delivered2);
      ResponseApiErrorTextInjective(code1, reason1, code2, reason2);
    } else {
      ChangedFailureNotified(s, ResponseApiError(t1), ResponseApiError(t2));
    }
  }

  /** An announcement the bot could not deliver is attempted again on the next
      iteration when the API returns the same payload: the watermark that would
      have hidden it did not move. */
  lemma UndeliveredAnnouncementRetried(s: LoopState, reason: string, response: map<string, Json>,
                                       delivered2: bool)
    requires "homeworks" in response && response["homeworks"].JList? && response["homeworks"].items != []
    requires ParseStatus(response["homeworks"].items[0]).Ok?
    ensures var r1 := Cycle(s, Payload(reason, response), false);
            var r2 := Cycle(r1.state, Payload(reason, response), delivered2);
            && r1.state.timestamp == s.timestamp
            && r2.messages == r1.messages == [ParseStatus(response["homeworks"].items[0]).value]
  {
  }

  // ---------------------------------------------------------------------------
  // Worked scenarios
  // ---------------------------------------------------------------------------

  /** As written, the very first iteration that sees an empty list raises (the
      status flag is still unbound) and notifies that failure; the watermark stays 0. */
  lemma FirstEmptyListCycleReportsFailure(reason: string, delivered: bool)
    ensures var r := Cycle(Initial, Payload(reason, map["homeworks" := JList([]), "current_date" := JInt(1000)]), delivered);
            && r.messages == ["Сбой в работе программы: " + UnboundSendStatusText]
            && r.state.timestamp == JInt(0)
  {
  }

  /** An approved homework, delivered: one announcement and the watermark moves to 1100. */
  lemma ApprovedHomeworkAnnounced(s: LoopState, reason: string)
    ensures var homework := JObj(map["homework_name" := JStr("X"), "status" := JStr("approved")]);
            var r := Cycle(s, Payload(reason, map["homeworks" := JList([homework]), "current_date" := JInt(1100)]), true);
            && r.messages == ["Изменился статус проверки работы \"" + "X" + "\". " + "Работа проверена: ревьюеру всё понравилось. Ура!"]
            && r.state.timestamp == JInt(1100)
            && r.state.lastError == ""
  {
  }

  /** Two 503 replies in a row from the start: one notification naming the code,
      none for the repeat, and the watermark stays 0. */
  lemma RepeatedServiceUnavailable(reason: string, body: Body, delivered1: bool, delivered2: bool)
    ensures var r1 := Cycle(Initial, Reply(503, reason, body), delivered1);
            var r2 := Cycle(r1.state, Reply(503, reason, body), delivered2);
            && ResponseApiErrorText(503, reason) == "Код ответа: " + "503" + ", причина: " + reason
            && r1.messages == [FailurePrefix + ResponseApiErrorText(503, reason)]
            && r2.messages == []
            && r2.state.timestamp == JInt(0)
  {
    assert NatToString(503) == NatToString(50) + [DigitChar(3)];
    assert NatToString(50) == NatToString(5) + [DigitChar(0)];
    RepeatedErrorReplies(Initial, 503, reason, body, 503, reason, body, delivered1, delivered2);
  }

  /** An unknown status is a failure: one notification, watermark unchanged. */
  lemma UnknownStatusReported(s: LoopState, reason: string)
    requires s.lastError == ""
    ensures var homework := JObj(map["homework_name" := JStr("X"), "status" := JStr("archived")]);
            var r := Cycle(s, Payload(reason, map["homeworks" := JList([homework])]), true);
            && r.messages == ["Сбой в работе программы: " + "Статус работы некорректно заполнен."]
            && r.state.timestamp == s.timestamp
  {
  }

  /** A client of Bot: a service outage at start-up is reported once, and the
      watermark sent with every request stays 0. */
  method OutageReportedOnce(reason: string, body: Body)
  {
    var bot := new Bot();
    bot.Step(Reply(503, reason, body), true);
    bot.Step(Reply(503, reason, body), false);
    RepeatedServiceUnavailable(reason, body, true, false);
    assert |bot.sent| == 1;
    assert bot.fromDates == [JInt(0), JInt(0)];
    assert bot.timestamp == JInt(0);
  }
}
