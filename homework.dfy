/** The validation and rendering rules of the homework-status bot: the start-up
    guard on its three configuration values, the shape check of the review
    service's answer, and the rendering of a homework's status as the
    notification text. */
module Homework {
  import opened PyRuntime

  // ---------------------------------------------------------------------------
  // HOMEWORK_VERDICTS

  const ApprovedText := "Работа проверена: ревьюеру всё понравилось. Ура!"
  const ReviewingText := "Работа взята на проверку ревьюером."
  const RejectedText := "Работа проверена: у ревьюера есть замечания."

  /** The fixed table from review status to the verdict text shown to the user. */
  const Verdicts: map<string, string> :=
    map["approved" := ApprovedText, "reviewing" := ReviewingText, "rejected" := RejectedText]

  /** The table knows exactly the three statuses, and no two of them share a
      text. */
  lemma VerdictsTable()
    ensures Verdicts.Keys == {"approved", "reviewing", "rejected"}
    ensures forall s1, s2 :: s1 in Verdicts && s2 in Verdicts && Verdicts[s1] == Verdicts[s2] ==> s1 == s2
  {
  }

  // ---------------------------------------------------------------------------
  // check_tokens

  /** Python truthiness of an environment variable: set and not empty. */
  predicate Truthy(token: Option<string>)
  {
    token.Some? && token.value != ""
  }

  /** A dict as the sequence of its (key, value) entries in insertion order. */
  type TokenTable = seq<(Option<string>, string)>

  /** The keys of a dict, given as its entries. */
  function Keys(table: TokenTable): set<Option<string>>
  {
    if table == [] then {} else {table[0].0} + Keys(table[1..])
  }

  /** No key occurs in two entries, as in every Python dict. */
  predicate DistinctKeys(table: TokenTable)
  {
    forall i, j :: 0 <= i < j < |table| ==> table[i].0 != table[j].0
  }

  /** One `key: value` item of a dict display: a key already present keeps its
      place and takes the new value, a new key goes at the end. */
  function DictInsert(table: TokenTable, key: Option<string>, value: string): (r: TokenTable)
    requires DistinctKeys(table)
    ensures DistinctKeys(r)
    ensures Keys(r) == Keys(table) + {key}
    ensures forall i :: 0 <= i < |r| && r[i].0 == key ==> r[i].1 == value
    ensures forall i :: 0 <= i < |r| ==> r[i] in table || r[i] == (key, value)
    ensures forall i :: 0 <= i < |table| && table[i].0 != key ==> table[i] in r
    ensures |r| <= |table| + 1
  {
    if table == [] then [(key, value)]
    else if table[0].0 == key then
      var r := [(key, value)] + table[1..];
      assert r[1..] == table[1..];
      assert forall i :: 0 < i < |table| ==> table[i] == r[i];
      r
    else
      var rest := DictInsert(table[1..], key, value);
      var r := [table[0]] + rest;
      assert r[1..] == rest;
      NotInKeys(table[1..], table[0].0);
      forall i | 0 <= i < |rest| ensures rest[i].0 != table[0].0 {
        KeysHas(rest, i);
      }
      forall i | 0 < i < |table| && table[i].0 != key ensures table[i] in r {
        assert table[i] == table[1..][i - 1];
      }
      r
  }

  /** A value that no entry has as its key is not a key of the dict. */
  lemma {:induction false} NotInKeys(table: TokenTable, key: Option<string>)
    requires forall i :: 0 <= i < |table| ==> table[i].0 != key
    ensures key !in Keys(table)
  {
    if table != [] {
      NotInKeys(table[1..], key);
    }
  }

  /** The key of every entry is a key of the dict. */
  lemma {:induction false} KeysHas(table: TokenTable, i: nat)
    requires i < |table|
    ensures table[i].0 in Keys(table)
  {
    if i > 0 {
      KeysHas(table[1..], i - 1);
      assert table[1..][i - 1] == table[i];
    }
  }

  /** A key of the dict is the key of one of its entries. */
  lemma {:induction false} KeysAt(table: TokenTable, key: Option<string>)
    requires key in Keys(table)
    ensures exists i :: 0 <= i < |table| && table[i].0 == key
  {
    if table[0].0 != key {
      KeysAt(table[1..], key);
      var i :| 0 <= i < |table[1..]| && table[1..][i].0 == key;
      assert table[i + 1].0 == key;
    }
  }

  const PracticumName := "PRACTICUM_TOKEN"
  const TelegramName := "TELEGRAM_TOKEN"
  const ChatIdName := "TELEGRAM_CHAT_ID"

  /** The dict `{PRACTICUM_TOKEN: 'PRACTICUM_TOKEN', ...}` keyed by the token
      VALUES: equal values collapse into one entry carrying the later name. */
  function Tokens(practicum: Option<string>, telegram: Option<string>, chatId: Option<string>): (table: TokenTable)
    ensures DistinctKeys(table)
    ensures Keys(table) == {practicum, telegram, chatId}
    ensures forall i :: 0 <= i < |table| && table[i].0 == chatId ==> table[i].1 == ChatIdName
    ensures forall i :: 0 <= i < |table| && table[i].0 == telegram && telegram != chatId ==>
      table[i].1 == TelegramName
    ensures forall i :: 0 <= i < |table| && table[i].0 == practicum && practicum != telegram && practicum != chatId ==>
      table[i].1 == PracticumName
    ensures forall i :: 0 <= i < |table| ==>
      (table[i].1 == PracticumName && table[i].0 == practicum) ||
      (table[i].1 == TelegramName && table[i].0 == telegram) ||
      (table[i].1 == ChatIdName && table[i].0 == chatId)
  {
    DictInsert(DictInsert(DictInsert([], practicum, PracticumName), telegram, TelegramName), chatId, ChatIdName)
  }

  /** The loop of check_tokens over the dict's items: the flag stays true
      only if every value is truthy, and each falsy value's name is logged. */
  method ScanTokens(table: TokenTable) returns (ok: bool, reported: seq<string>)
    ensures ok <==> forall j :: 0 <= j < |table| ==> Truthy(table[j].0)
    ensures ok <==> reported == []
    ensures forall k :: 0 <= k < |reported| ==>
      exists j :: 0 <= j < |table| && table[j].1 == reported[k] && !Truthy(table[j].0)
    ensures forall j :: 0 <= j < |table| && !Truthy(table[j].0) ==> table[j].1 in reported
  {
    ok := true;
    reported := [];
    for i := 0 to |table|
      invariant ok <==> forall j :: 0 <= j < i ==> Truthy(table[j].0)
      invariant ok <==> reported == []
      invariant forall k :: 0 <= k < |reported| ==>
        exists j :: 0 <= j < i && table[j].1 == reported[k] && !Truthy(table[j].0)
      invariant forall j :: 0 <= j < i && !Truthy(table[j].0) ==> table[j].1 in reported
    {
      var (token, tokenName) := table[i];
      if !Truthy(token) {
        ok := false;
        reported := reported + [tokenName];
      }
    }
  }

  /** check_tokens: builds the token dict and walks it, clearing the flag for
      every falsy value. `reported` lists the names it logs at critical level,
      in order. */
  method CheckTokens(practicum: Option<string>, telegram: Option<string>, chatId: Option<string>)
    returns (ok: bool, reported: seq<string>)
    ensures ok <==> Truthy(practicum) && Truthy(telegram) && Truthy(chatId)
    ensures ok <==> reported == []
    ensures forall k :: 0 <= k < |reported| ==>
      (reported[k] == PracticumName && !Truthy(practicum)) ||
      (reported[k] == TelegramName && !Truthy(telegram)) ||
      (reported[k] == ChatIdName && !Truthy(chatId))
    ensures !Truthy(chatId) ==> ChatIdName in reported
    ensures !Truthy(telegram) && telegram != chatId ==> TelegramName in reported
    ensures !Truthy(practicum) && practicum != telegram && practicum != chatId ==> PracticumName in reported
  {
    var table := Tokens(practicum, telegram, chatId);
    ok, reported := ScanTokens(table);
    KeysAt(table, practicum);
    KeysAt(table, telegram);
    KeysAt(table, chatId);
  }

  // ---------------------------------------------------------------------------
  // check_response

  const NotDictMessage := "Ответ API не является словарем!"
  const NotListMessage := "Данные по ключу homeworks не являются списком!"
  const EmptyListMessage := "Список домашних работ пуст!"

  /** check_response: the first homework record of the service's answer.
      Its loop over `homeworks` and `current_date` only calls `dict.get`,
      which never raises KeyError, so neither key is required here: an absent
      `homeworks` reads as None and fails the list test. */
  function CheckResponse(response: Json): (r: Result<Json>)
    ensures !response.Map? ==> r == Err(TypeErr(NotDictMessage))
    ensures response.Map? && !Get(response.fields, "homeworks").List? ==> r == Err(TypeErr(NotListMessage))
    ensures response.Map? && Get(response.fields, "homeworks") == List([]) <==> r == Err(IndexErr(EmptyListMessage))
    ensures r.Ok? <==>
      response.Map? && "homeworks" in response.fields &&
      response.fields["homeworks"].List? && response.fields["homeworks"].items != []
    ensures r.Ok? ==> r.value == response.fields["homeworks"].items[0]
  {
    if !response.Map? then Err(TypeErr(NotDictMessage))
    else
      var homeworks := Get(response.fields, "homeworks");
      if !homeworks.List? then Err(TypeErr(NotListMessage))
      else if homeworks.items == [] then Err(IndexErr(EmptyListMessage))
      else Ok(homeworks.items[0])
  }

  /** Whatever `current_date` holds, or its absence, never changes the outcome
      of check_response. */
  lemma CheckResponseIgnoresCurrentDate(fields: map<string, Json>, date: Json)
    ensures CheckResponse(Map(fields["current_date" := date])) == CheckResponse(Map(fields - {"current_date"}))
  {
  }

  // ---------------------------------------------------------------------------
  // parse_status

  const MissingKeyPrefix := "В ответе API отсутствует ключ "

  /** Text of the KeyError raised for a homework record without `key`: it
      names the key. */
  function MissingKeyMessage(key: string): (text: string)
    ensures |text| == |MissingKeyPrefix| + |key| + 1
    ensures text[..|MissingKeyPrefix|] == MissingKeyPrefix
    ensures OccursAt(text, key, |MissingKeyPrefix|)
    ensures text[|text| - 1] == '!'
  {
    MissingKeyPrefix + key + "!"
  }

  const UnknownStatusPrefix := "Неизвестный статус работы: "

  /** Text of the Exception raised for a status outside the verdict table: it
      quotes the status as `str()` prints it. */
  function UnknownStatusMessage(shown: string): (text: string)
    ensures |text| == |UnknownStatusPrefix| + |shown| + 1
    ensures text[..|UnknownStatusPrefix|] == UnknownStatusPrefix
    ensures OccursAt(text, shown, |UnknownStatusPrefix|)
    ensures text[|text| - 1] == '!'
  {
    UnknownStatusPrefix + shown + "!"
  }

  const MessagePrefix := "Изменился статус проверки работы \""
  const NameSeparator := "\". "

  /** The notification for homework `name` whose verdict text is `verdict`.
      It reads back into its parts: the fixed opening, the name, the closing
      quote, and the verdict text at the end. */
  function StatusMessage(name: string, verdict: string): (m: string)
    ensures var n := |MessagePrefix| + |name|;
      |m| == n + |NameSeparator| + |verdict| &&
      m[..|MessagePrefix|] == MessagePrefix &&
      m[|MessagePrefix|..n] == name &&
      m[n..n + |NameSeparator|] == NameSeparator &&
      m[n + |NameSeparator|..] == verdict
  {
    MessagePrefix + name + NameSeparator + verdict
  }

  /** The `for key in keys: if key not in homework: raise KeyError` loop:
      the first exception it raises, if any. */
  function RequireKeys(homework: Json, keys: seq<string>): (raised: Option<PyError>)
    ensures homework.Map? ==>
      (raised.None? <==> forall k :: 0 <= k < |keys| ==> keys[k] in homework.fields)
    ensures homework.Map? && raised.Some? ==>
      exists k :: 0 <= k < |keys| && raised == Some(KeyErr(MissingKeyMessage(keys[k]))) &&
        keys[k] !in homework.fields && forall j :: 0 <= j < k ==> keys[j] in homework.fields
  {
    if keys == [] then None
    else match Contains(homework, keys[0])
      case Err(e) => Some(e)
      case Ok(found) =>
        if !found then Some(KeyErr(MissingKeyMessage(keys[0])))
        else
          var raised := RequireKeys(homework, keys[1..]);
          if homework.Map? && raised.Some? then
            var k :| 0 <= k < |keys[1..]| && raised == Some(KeyErr(MissingKeyMessage(keys[1..][k]))) &&
              keys[1..][k] !in homework.fields && forall j :: 0 <= j < k ==> keys[1..][j] in homework.fields;
            assert forall j :: 0 <= j < k + 1 ==> keys[j] in homework.fields by {
              forall j | 0 <= j < k + 1 ensures keys[j] in homework.fields {
                if j > 0 { assert keys[j] == keys[1..][j - 1]; }
              }
            }
            assert keys[k + 1] == keys[1..][k];
            raised
          else
            raised
  }

  /** `status in HOMEWORK_VERDICTS`: a list or a dict cannot be hashed, so the
      test raises a TypeError; any other non-string is simply absent. */
  function IsKnownStatus(status: Json): (r: Result<bool>)
    ensures r == Ok(true) <==> status.Str? && status.s in Verdicts
    ensures r.Err? <==> status.List? || status.Map?
    ensures r.Err? ==> r.error.TypeErr?
  {
    match status
    case Str(s) => Ok(s in Verdicts)
    case List(_) => Err(TypeErr("unhashable type: 'list'"))
    case Map(_) => Err(TypeErr("unhashable type: 'dict'"))
    case _ => Ok(false)
  }

  /** parse_status: the notification text for one homework record. */
  function ParseStatus(homework: Json): (r: Result<string>)
    ensures homework.Map? && "homework_name" !in homework.fields ==>
      r == Err(KeyErr(MissingKeyMessage("homework_name")))
    ensures homework.Map? && "homework_name" in homework.fields && "status" !in homework.fields ==>
      r == Err(KeyErr(MissingKeyMessage("status")))
    ensures (homework.Map? && "homework_name" in homework.fields && "status" in homework.fields &&
             !homework.fields["status"].List? && !homework.fields["status"].Map? &&
             !(homework.fields["status"].Str? && homework.fields["status"].s in Verdicts)) ==>
      r == Err(OtherErr(UnknownStatusMessage(Show(homework.fields["status"]))))
    ensures (homework.Map? && "homework_name" in homework.fields && "status" in homework.fields &&
             (homework.fields["status"].List? || homework.fields["status"].Map?)) ==>
      r.Err? && r.error.TypeErr?
    ensures r.Ok? <==>
      homework.Map? && "homework_name" in homework.fields && "status" in homework.fields &&
      homework.fields["status"].Str? && homework.fields["status"].s in Verdicts
    ensures r.Ok? ==>
      r.value == StatusMessage(Show(homework.fields["homework_name"]), Verdicts[homework.fields["status"].s])
  {
    var keys := ["homework_name", "status"];
    assert keys[0] == "homework_name" && keys[1] == "status";
    var raised := RequireKeys(homework, keys);
    if raised.Some? then Err(raised.value)
    else if !homework.Map? then Err(AttrErr(NoGetMessage(homework)))
    else
      var name := Get(homework.fields, "homework_name");
      var status := Get(homework.fields, "status");
      match IsKnownStatus(status)
      case Err(e) => Err(e)
      case Ok(known) =>
        if !known then Err(OtherErr(UnknownStatusMessage(Show(status))))
        else Ok(StatusMessage(Show(name), Verdicts[status.s]))
  }

  /** An unknown status is quoted verbatim, as `str()` prints it, in the text
      of the error. */
  lemma UnknownStatusIsQuoted(homework: Json)
    requires homework.Map? && "homework_name" in homework.fields && "status" in homework.fields
    requires !homework.fields["status"].List? && !homework.fields["status"].Map?
    requires !(homework.fields["status"].Str? && homework.fields["status"].s in Verdicts)
    ensures ParseStatus(homework).Err?
    ensures HasSubstring(ErrorText(ParseStatus(homework).error), Show(homework.fields["status"]))
  {
  }

  /** For one homework, the text tells its verdict: two notifications about
      the same name are equal only when their verdicts are. */
  lemma StatusMessageDeterminesVerdict(name: string, v1: string, v2: string)
    requires StatusMessage(name, v1) == StatusMessage(name, v2)
    ensures v1 == v2
  {
  }

  /** So a change of status of the same homework always changes the text. */
  lemma StatusChangeChangesMessage(h1: Json, h2: Json)
    requires ParseStatus(h1).Ok? && ParseStatus(h2).Ok?
    requires h1.fields["homework_name"] == h2.fields["homework_name"]
    requires h1.fields["status"] != h2.fields["status"]
    ensures ParseStatus(h1).value != ParseStatus(h2).value
  {
  }
}
