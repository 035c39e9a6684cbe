/** The bot's validation functions: the verdict catalogue, `check_tokens`,
    the failure classification of `get_api_answer`, `check_response` and
    `parse_status`. */
module Homework {
  import opened Python
  import opened Exceptions

  // ---------------------------------------------------------------------------
  // Verdict catalogue
  // ---------------------------------------------------------------------------

  /** HOMEWORK_VERDICTS: the three known review statuses and their texts. */
  const HomeworkVerdicts: map<string, string> := map[
    "approved" := "Работа проверена: ревьюеру всё понравилось. Ура!",
    "reviewing" := "Работа взята на проверку ревьюером.",
    "rejected" := "Работа проверена: у ревьюера есть замечания."
  ]

  /** The text every status-change announcement starts with. */
  const StatusChangedPrefix: string := "Изменился статус проверки работы \""

  /** The announcement for a homework called `name` whose status has verdict `verdict`. */
  function Announcement(name: string, verdict: string): string
  {
    StatusChangedPrefix + name + "\". " + verdict
  }

  // ---------------------------------------------------------------------------
  // check_tokens
  // ---------------------------------------------------------------------------

  /** The three required settings, in declaration order. */
  const TokenNames: seq<string> := ["PRACTICUM_TOKEN", "TELEGRAM_TOKEN", "TELEGRAM_CHAT_ID"]

  const MissingTokensPrefix: string := "Отсутсвуют переменные окружения:"

  /** The TOKENS tuple: each setting's name paired with its value (None when unset). */
  function Tokens(practicumToken: Option<string>, telegramToken: Option<string>,
                  telegramChatId: Option<string>): seq<(string, Option<string>)>
  {
    [(TokenNames[0], practicumToken), (TokenNames[1], telegramToken), (TokenNames[2], telegramChatId)]
  }

  /** The names of the unset settings among `tokens`, in their order. */
  function MissedTokens(tokens: seq<(string, Option<string>)>): seq<string>
  {
    if tokens == [] then []
    else
      var last := tokens[|tokens| - 1];
      MissedTokens(tokens[..|tokens| - 1]) + (if last.1.None? then [last.0] else [])
  }

  /** Every name in MissedTokens belongs to an unset setting, and every unset setting is named. */
  lemma {:induction false} MissedTokensExactly(tokens: seq<(string, Option<string>)>, name: string)
    ensures name in MissedTokens(tokens) <==>
              exists i :: 0 <= i < |tokens| && tokens[i].0 == name && tokens[i].1.None?
  {
    if tokens != [] {
      var init := tokens[..|tokens| - 1];
      MissedTokensExactly(init, name);
      assert forall i :: 0 <= i < |init| ==> init[i] == tokens[i];
    }
  }

  /** The unset names of the TOKENS tuple, spelled out setting by setting. */
  lemma MissedTokensInDeclarationOrder(practicumToken: Option<string>, telegramToken: Option<string>,
                                       telegramChatId: Option<string>)
    ensures MissedTokens(Tokens(practicumToken, telegramToken, telegramChatId)) ==
              (if practicumToken.None? then ["PRACTICUM_TOKEN"] else []) +
              (if telegramToken.None? then ["TELEGRAM_TOKEN"] else []) +
              (if telegramChatId.None? then ["TELEGRAM_CHAT_ID"] else [])
  {
    var tokens := Tokens(practicumToken, telegramToken, telegramChatId);
    assert tokens[..3] == tokens && tokens[..3][..2] == tokens[..2];
    assert tokens[..2][..1] == tokens[..1] && tokens[..1][..0] == [];
    assert MissedTokens(tokens[..1]) == (if practicumToken.None? then ["PRACTICUM_TOKEN"] else []);
    assert MissedTokens(tokens[..2]) == MissedTokens(tokens[..1]) +
                                        (if telegramToken.None? then ["TELEGRAM_TOKEN"] else []);
  }

  /** check_tokens, over the three settings instead of the environment: passes
      exactly when all three are set, and otherwise raises CheckTokensError whose
      text lists the unset names in declaration order, separated by commas. */
  method CheckTokens(practicumToken: Option<string>, telegramToken: Option<string>,
                     telegramChatId: Option<string>) returns (r: Outcome)
    ensures r.Pass? <==> practicumToken.Some? && telegramToken.Some? && telegramChatId.Some?
    ensures r.Fail? ==>
              r.error == CheckTokensError(MissingTokensPrefix + Join(
                (if practicumToken.None? then ["PRACTICUM_TOKEN"] else []) +
                (if telegramToken.None? then ["TELEGRAM_TOKEN"] else []) +
                (if telegramChatId.None? then ["TELEGRAM_CHAT_ID"] else []), ","))
  {
    var tokens := Tokens(practicumToken, telegramToken, telegramChatId);
    var missedTokens: seq<string> := [];
    for i := 0 to |tokens|
      invariant missedTokens == MissedTokens(tokens[..i])
    {
      assert tokens[..i + 1][..i] == tokens[..i];
      if tokens[i].1.None? {
        missedTokens := missedTokens + [tokens[i].0];
      }
    }
    assert tokens[..|tokens|] == tokens;
    MissedTokensInDeclarationOrder(practicumToken, telegramToken, telegramChatId);
    if missedTokens != [] {
      r := Fail(CheckTokensError(MissingTokensPrefix + Join(missedTokens, ",")));
    } else {
      r := Pass;
    }
  }

  // ---------------------------------------------------------------------------
  // get_api_answer
  // ---------------------------------------------------------------------------

  /** HTTPStatus.OK */
  const HttpOk: int := 200

  /** What became of `response.json()`. */
  datatype Body = Decoded(value: Json) | Undecodable(detail: string)

  /** What became of the request: the requests exception's text, or the reply. */
  datatype FetchOutcome =
    | TransportErr(detail: string)
    | Reply(statusCode: int, reason: string, body: Body)

  function ResponseApiErrorText(statusCode: int, reason: string): string
  {
    "Код ответа: " + IntToString(statusCode) + ", причина: " + reason
  }

  /** get_api_answer after the request was made: a transport failure raises
      RequestApiError, any status other than 200 ResponseApiError, a 200 whose
      body does not decode InvalidJSONError; otherwise the decoded body. */
  function GetApiAnswer(outcome: FetchOutcome): (r: Result<Json>)
    ensures r.Ok? <==> outcome.Reply? && outcome.statusCode == HttpOk && outcome.body.Decoded?
    ensures r.Ok? ==> r.value == outcome.body.value
    ensures r.Err? && r.error.RequestApiError? <==> outcome.TransportErr?
    ensures r.Err? && r.error.ResponseApiError? <==> outcome.Reply? && outcome.statusCode != HttpOk
    ensures r.Err? && r.error.InvalidJSONError? <==>
              outcome.Reply? && outcome.statusCode == HttpOk && outcome.body.Undecodable?
    ensures outcome.Reply? && outcome.statusCode != HttpOk ==>
              Contains(Str(r.error), IntToString(outcome.statusCode)) && Contains(Str(r.error), outcome.reason)
  {
    match outcome
    case TransportErr(detail) => Err(RequestApiError("Ошибка запроса к api: " + detail + "."))
    case Reply(statusCode, reason, body) =>
      if statusCode != HttpOk then
        var text := ResponseApiErrorText(statusCode, reason);
        assert HasPrefix(text[12..], IntToString(statusCode));
        assert HasPrefix(text[|text| - |reason|..], reason);
        Err(ResponseApiError(text))
      else
        match body
        case Undecodable(detail) => Err(InvalidJSONError("Невалидный JSON - " + detail))
        case Decoded(value) => Ok(value)
  }

  /** A comma-free head followed by a comma-led tail splits a string in one way only. */
  lemma CommaSplitUnique(d1: string, t1: string, d2: string, t2: string)
    requires forall i :: 0 <= i < |d1| ==> d1[i] != ','
    requires forall i :: 0 <= i < |d2| ==> d2[i] != ','
    requires |t1| > 0 && t1[0] == ',' && |t2| > 0 && t2[0] == ','
    requires d1 + t1 == d2 + t2
    ensures d1 == d2 && t1 == t2
  {
    var x, y := d1 + t1, d2 + t2;
    assert forall i :: 0 <= i < |d2| ==> y[i] == d2[i] && y[i] != ',';
    assert forall i :: 0 <= i < |d1| ==> x[i] == d1[i] && x[i] != ',';
    assert x[|d1|] == ',' && y[|d2|] == ',';
    assert |d1| == |d2|;
    assert d1 == x[..|d1|] && d2 == y[..|d2|];
    assert t1 == x[|d1|..] && t2 == y[|d2|..];
  }

  /** Two non-200 replies raise the same text only when both the status code and
      the reason agree. */
  lemma ResponseApiErrorTextInjective(code1: int, reason1: string, code2: int, reason2: string)
    requires ResponseApiErrorText(code1, reason1) == ResponseApiErrorText(code2, reason2)
    ensures code1 == code2 && reason1 == reason2
  {
    var d1, d2 := IntToString(code1), IntToString(code2);
    var sep := ", причина: ";
    var t1, t2 := sep + reason1, sep + reason2;
    var prefix := "Код ответа: ";
    assert d1 + t1 == ResponseApiErrorText(code1, reason1)[|prefix|..];
    assert d2 + t2 == ResponseApiErrorText(code2, reason2)[|prefix|..];
    CommaSplitUnique(d1, t1, d2, t2);
    IntToStringInjective(code1, code2);
    assert reason1 == t1[|sep|..] && reason2 == t2[|sep|..];
  }

  // ---------------------------------------------------------------------------
  // check_response
  // ---------------------------------------------------------------------------

  /** check_response: the decoded payload must be a dict with a `homeworks` key
      holding a list, and that list is returned as it is. */
  function CheckResponse(response: Json): (r: Result<seq<Json>>)
    ensures r.Ok? <==>
              response.JObj? && "homeworks" in response.fields && response.fields["homeworks"].JList?
    ensures r.Ok? ==> response.fields["homeworks"] == JList(r.value)
    ensures !response.JObj? ==> r.Err? && r.error.TypeError?
    ensures response.JObj? && "homeworks" !in response.fields ==>
              r == Err(KeyError("Отсутствует ключ homeworks."))
    ensures response.JObj? && "homeworks" in response.fields && !response.fields["homeworks"].JList? ==>
              r.Err? && r.error.TypeError? && |r.error.args| == 2
  {
    if !response.JObj? then
      Err(TypeError(["Некорректный тип данных ответа - <class '" + TypeName(response) + "'>"]))
    else if "homeworks" !in response.fields then
      Err(KeyError("Отсутствует ключ homeworks."))
    else
      var homeworks := response.fields["homeworks"];
      if !homeworks.JList? then
        Err(TypeError(["В ответе API под ключом `homeworks` данные", "приходят не в виде списка."]))
      else
        Ok(homeworks.items)
  }

  // ---------------------------------------------------------------------------
  // parse_status
  // ---------------------------------------------------------------------------

  /** What parse_status accepts: a dict whose `homework_name` is present and not
      null, and whose `status` is one of the three known codes. */
  predicate IsParsable(homework: Json)
  {
    && homework.JObj?
    && Get(homework.fields, "homework_name") != JNull
    && Get(homework.fields, "status").JStr?
    && Get(homework.fields, "status").s in HomeworkVerdicts
  }

  /** parse_status: the announcement for a well-formed homework record; a
      non-dict fails on `.get`, a missing or null name or status and an
      unknown status raise TypeError. */
  function ParseStatus(homework: Json): (r: Result<string>)
    ensures r.Ok? <==> IsParsable(homework)
    ensures r.Ok? ==>
              HasPrefix(r.value, StatusChangedPrefix) &&
              HasSuffix(r.value, HomeworkVerdicts[Get(homework.fields, "status").s])
    ensures !homework.JObj? ==> r.Err? && r.error.AttributeError?
    ensures homework.JObj? && !IsParsable(homework) ==> r.Err? && r.error.TypeError?
  {
    if !homework.JObj? then
      Err(AttributeError("'" + TypeName(homework) + "' object has no attribute 'get'"))
    else
      var name := Get(homework.fields, "homework_name");
      var status := Get(homework.fields, "status");
      if name == JNull then
        Err(TypeError(["В ответе нет ключа homework_name"]))
      else if status == JNull then
        Err(TypeError(["В ответе нет ключа status"]))
      else if status.JList? || status.JObj? then
        Err(TypeError(["unhashable type: '" + TypeName(status) + "'"]))
      else if !(status.JStr? && status.s in HomeworkVerdicts) then
        Err(TypeError(["Статус работы некорректно заполнен."]))
      else
        var verdict := HomeworkVerdicts[status.s];
        var text := Announcement(PyStr(name), verdict);
        assert text[..|StatusChangedPrefix|] == StatusChangedPrefix;
        assert text[|text| - |verdict|..] == verdict;
        Ok(text)
  }

  /** The record shape the API documents: a string name and a string status. */
  function Record(name: string, status: string, others: map<string, Json>): Json
  {
    JObj(others["homework_name" := JStr(name)]["status" := JStr(status)])
  }

  /** Each of the three codes yields its fixed text after the name, for any
      name (the empty one included); every other status string is refused. */
  lemma ParseStatusOfRecord(name: string, status: string, others: map<string, Json>)
    ensures status == "approved" ==>
              ParseStatus(Record(name, status, others)) ==
              Ok("Изменился статус проверки работы \"" + name + "\". " + "Работа проверена: ревьюеру всё понравилось. Ура!")
    ensures status == "reviewing" ==>
              ParseStatus(Record(name, status, others)) ==
              Ok("Изменился статус проверки работы \"" + name + "\". " + "Работа взята на проверку ревьюером.")
    ensures status == "rejected" ==>
              ParseStatus(Record(name, status, others)) ==
              Ok("Изменился статус проверки работы \"" + name + "\". " + "Работа проверена: у ревьюера есть замечания.")
    ensures status !in {"approved", "reviewing", "rejected"} ==>
              ParseStatus(Record(name, status, others)) == Err(TypeError(["Статус работы некорректно заполнен."]))
  {
  }

  /** The checks run in order: a missing name is reported even when the status
      is missing or unknown too, and a missing status before an unknown one. */
  lemma ParseStatusFailureOrder(fields: map<string, Json>)
    ensures Get(fields, "homework_name") == JNull ==>
              ParseStatus(JObj(fields)) == Err(TypeError(["В ответе нет ключа homework_name"]))
    ensures Get(fields, "homework_name") != JNull && Get(fields, "status") == JNull ==>
              ParseStatus(JObj(fields)) == Err(TypeError(["В ответе нет ключа status"]))
  {
  }

  /** The same homework announced under two different statuses gives two
      different texts: the verdict can be read back from the announcement. */
  lemma AnnouncementsDistinguishStatus(name: string, status1: string, status2: string)
    requires status1 in HomeworkVerdicts && status2 in HomeworkVerdicts && status1 != status2
    ensures Announcement(name, HomeworkVerdicts[status1]) != Announcement(name, HomeworkVerdicts[status2])
  {
  }
}
