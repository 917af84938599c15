/**
 * The pure steps of the bot: the verdict table, the rewrap of messenger failures, the
 * projection of the API answer, the response validator and the status formatter.
 */
module Homework {
  import opened Errors
  import opened Json

  /** The closed vocabulary of review verdicts and the sentence sent for each. */
  const Verdicts: map<string, string> := map[
    "approved" := "Работа проверена: ревьюеру всё понравилось. Ура!",
    "reviewing" := "Работа взята на проверку ревьюером.",
    "rejected" := "Работа проверена: у ревьюера есть замечания."
  ]

  lemma VerdictTableIsClosed()
    ensures Verdicts.Keys == {"approved", "reviewing", "rejected"}
    ensures |Verdicts| == 3
  {
    assert Verdicts.Keys == {"approved", "reviewing", "rejected"};
    assert "approved" != "reviewing" && "approved" != "rejected" && "reviewing" != "rejected";
  }

  // ---------------------------------------------------------------------------------------
  // send_message: the messenger is an oracle; a failure is rewrapped as DoNotSendToBot.

  /** What the messenger does with one send request. */
  datatype SendOutcome = Delivered | Failed(reason: string)

  /** The exception `send_message` raises for an outcome, if any. */
  function SendMessage(o: SendOutcome): (r: Option<Error>)
    ensures r.None? <==> o.Delivered?
    ensures r.Some? ==> r.value.kind == DoNotSendToBot
    ensures r.Some? ==> r.value.msg == "Unable to send message: " + o.reason
  {
    match o
    case Delivered => None
    case Failed(reason) => Some(Error(DoNotSendToBot, "Unable to send message: " + reason))
  }

  // ---------------------------------------------------------------------------------------
  // get_api_answer, after the request: status check and projection onto two keys.

  const HTTP_OK := 200

  /** The body of an HTTP answer: decoded JSON, or text that is not JSON. */
  datatype Body = Decoded(value: JsonValue) | Undecodable

  /** What the request to the status endpoint produced. */
  datatype FetchOutcome = RequestFailed(reason: string) | Answered(status: int, body: Body)

  /** The fresh two-key dict built from the decoded body with `.get`. */
  function Project(body: map<string, JsonValue>): (r: map<string, JsonValue>)
    ensures r.Keys == {"homeworks", "current_date"}
    ensures r["homeworks"] == (if "homeworks" in body then body["homeworks"] else JNull)
    ensures r["current_date"] == (if "current_date" in body then body["current_date"] else JNull)
  {
    map["homeworks" := if "homeworks" in body then body["homeworks"] else JNull,
        "current_date" := if "current_date" in body then body["current_date"] else JNull]
  }

  function GetApiAnswer(f: FetchOutcome): (r: Result<JsonValue>)
    ensures r.Ok? <==> f.Answered? && f.status == HTTP_OK && f.body.Decoded? && f.body.value.JObj?
    ensures r.Ok? ==> r.value == JObj(Project(f.body.value.fields))
    ensures r.Err? ==> r.error.kind == EndpointResponse || r.error.kind == Generic
    ensures (r.Err? && r.error.kind == EndpointResponse) <==> (f.Answered? && f.status != HTTP_OK)
    ensures f.Answered? && f.status != HTTP_OK ==>
      r.error.msg == "Endpoint response returned wrong status: " + IntToString(f.status)
    ensures f.RequestFailed? ==> r.error.msg == "Unexpected request error: " + f.reason
    ensures f.Answered? && f.status == HTTP_OK && f.body.Undecodable? ==>
      r == Err(Error(Generic, "No valid json found in response."))
    ensures f.Answered? && f.status == HTTP_OK && f.body.Decoded? && !f.body.value.JObj? ==>
      r == Err(Error(Generic, "Unexpected error: '" + TypeName(f.body.value) + "' object has no attribute 'get'"))
  {
    match f
    case RequestFailed(reason) => Err(Error(Generic, "Unexpected request error: " + reason))
    case Answered(status, body) =>
      if status != HTTP_OK then
        Err(Error(EndpointResponse, "Endpoint response returned wrong status: " + IntToString(status)))
      else
        match body
        case Undecodable => Err(Error(Generic, "No valid json found in response."))
        case Decoded(v) =>
          if v.JObj? then Ok(JObj(Project(v.fields)))
          else Err(Error(Generic, "Unexpected error: '" + TypeName(v) + "' object has no attribute 'get'"))
  }

  // ---------------------------------------------------------------------------------------
  // check_response

  /** The shape every later step relies on. */
  predicate WellShaped(v: JsonValue)
  {
    && v.JObj?
    && "current_date" in v.fields && v.fields["current_date"].JInt?
    && "homeworks" in v.fields && v.fields["homeworks"].JArr?
  }

  predicate HasResponseKeys(v: JsonValue)
    requires v.JObj?
  {
    "current_date" in v.fields && "homeworks" in v.fields
  }

  /** The four checks in order; the first that fails decides the exception. */
  function CheckResponse(v: JsonValue): (r: Result<bool>)
    ensures r.Ok? <==> WellShaped(v)
    ensures r.Ok? ==> r.value
    ensures r.Err? ==> r.error.kind == TypeError || r.error.kind == KeyError
    ensures !v.JObj? ==>
      r == Err(Error(TypeError, "Response recieved should be dict not <class '" + TypeName(v) + "'>"))
    ensures v.JObj? && !HasResponseKeys(v) ==> r.Err? && r.error.kind == KeyError
    ensures v.JObj? && HasResponseKeys(v) && !v.fields["current_date"].JInt? ==>
      r == Err(Error(TypeError, "Unexpected type of date in response: "
                                + TypeName(v.fields["current_date"]) + ". int expected."))
    ensures v.JObj? && HasResponseKeys(v) && v.fields["current_date"].JInt? && !v.fields["homeworks"].JArr? ==>
      r == Err(Error(TypeError, "Cannot get list of homeworks."))
  {
    if !v.JObj? then
      Err(Error(TypeError, "Response recieved should be dict not <class '" + TypeName(v) + "'>"))
    else if !HasResponseKeys(v) then
      Err(Error(KeyError, "One or more of expected keys are absent in API response. Keys recieved: "))
    else if TypeName(v.fields["current_date"]) != "int" then
      Err(Error(TypeError, "Unexpected type of date in response: "
                           + TypeName(v.fields["current_date"]) + ". int expected."))
    else if TypeName(v.fields["homeworks"]) != "list" then
      Err(Error(TypeError, "Cannot get list of homeworks."))
    else
      Ok(true)
  }

  /**
   * A projected answer always has both keys, so its validation never raises KeyError; a
   * missing `homeworks` reaches the list check as None instead.
   */
  lemma CheckAfterProjection(f: FetchOutcome, v: JsonValue)
    requires GetApiAnswer(f) == Ok(v)
    ensures CheckResponse(v).Err? ==> CheckResponse(v).error.kind == TypeError
    ensures CheckResponse(v).Ok? <==>
      && "current_date" in f.body.value.fields && f.body.value.fields["current_date"].JInt?
      && "homeworks" in f.body.value.fields && f.body.value.fields["homeworks"].JArr?
    ensures "homeworks" !in f.body.value.fields
            && "current_date" in f.body.value.fields && f.body.value.fields["current_date"].JInt? ==>
      CheckResponse(v) == Err(Error(TypeError, "Cannot get list of homeworks."))
  {
  }

  // ---------------------------------------------------------------------------------------
  // parse_status and the message template

  const Opening: string := "Изменился статус проверки работы \""

  /** What follows the work's name in the message for a verdict code. */
  function Closing(code: string): (c: string)
    requires code in Verdicts
    ensures |c| >= 4
  {
    "\". " + Verdicts[code]
  }

  /** The fields a notification message is built from. */
  datatype Notice = Notice(name: string, status: string)

  /** `m` starts with the opening text and ends with the closing text of `code`. */
  predicate Frames(m: string, code: string)
    requires code in Verdicts
  {
    && |Opening| + |Closing(code)| <= |m|
    && m[..|Opening|] == Opening
    && m[|m| - |Closing(code)|..] == Closing(code)
  }

  function Inner(m: string, code: string): string
    requires code in Verdicts && Frames(m, code)
  {
    m[|Opening|..|m| - |Closing(code)|]
  }

  /** Reads the name and the verdict code back out of a status message. */
  function ParseMessage(m: string): Option<Notice>
  {
    if Frames(m, "approved") then Some(Notice(Inner(m, "approved"), "approved"))
    else if Frames(m, "reviewing") then Some(Notice(Inner(m, "reviewing"), "reviewing"))
    else if Frames(m, "rejected") then Some(Notice(Inner(m, "rejected"), "rejected"))
    else None
  }

  /** A suffix fixes the characters at the end of the sequence. */
  lemma SuffixChar(m: string, d: string, k: nat)
    requires 1 <= k <= |d|
    ensures |d| <= |m| && m[|m| - |d|..] == d ==> m[|m| - k] == d[|d| - k]
  {
    if |d| <= |m| && m[|m| - |d|..] == d {
      assert m[|m| - k] == m[|m| - |d|..][|d| - k];
    }
  }

  /** No verdict's closing text is a suffix of a message that ends with another's. */
  lemma ClosingsDisagree(m: string, code: string, other: string)
    requires code in Verdicts && other in Verdicts && code != other
    requires Frames(m, code)
    ensures !Frames(m, other)
  {
    var c, d := Closing(code), Closing(other);
    // approved ends in '!', the other two in '.'; reviewing and rejected differ one before
    var k := if c[|c| - 1] != d[|d| - 1] then 1 else 2;
    assert c[|c| - k] != d[|d| - k];
    SuffixChar(m, c, k);
    SuffixChar(m, d, k);
  }

  /** Reading a formatted message back gives the name and the code it was made from. */
  lemma {:induction false} FormatRoundTrip(name: string, code: string)
    requires code in Verdicts
    ensures ParseMessage(FormatVerdict(name, code)) == Some(Notice(name, code))
  {
    var m := FormatVerdict(name, code);
    assert m[..|Opening|] == Opening;
    assert m[|m| - |Closing(code)|..] == Closing(code);
    assert Frames(m, code) && Inner(m, code) == name;
    if code != "approved" {
      ClosingsDisagree(m, code, "approved");
    }
    if code == "rejected" {
      ClosingsDisagree(m, code, "reviewing");
    }
  }

  /** The f-string that reports a new verdict for a work. */
  function FormatVerdict(name: string, code: string): (m: string)
    requires code in Verdicts
  {
    Opening + name + Closing(code)
  }

  /** The status message for one homework record, or the exception parse_status raises. */
  function ParseStatus(hw: JsonValue): (r: Result<string>)
    ensures r.Ok? <==>
      && hw.JObj? && "homework_name" in hw.fields && "status" in hw.fields
      && hw.fields["status"].JStr? && hw.fields["status"].s in Verdicts
    ensures !hw.JObj? ==>
      r == Err(Error(AttributeError, "'" + TypeName(hw) + "' object has no attribute 'keys'"))
    ensures hw.JObj? && !("homework_name" in hw.fields && "status" in hw.fields) ==>
      r == Err(Error(KeyError, "One or more keys is missingin homework's dictionary."))
    ensures hw.JObj? && "homework_name" in hw.fields && "status" in hw.fields
            && (hw.fields["status"].JArr? || hw.fields["status"].JObj?) ==>
      r == Err(Error(TypeError, "unhashable type: '" + TypeName(hw.fields["status"]) + "'"))
    ensures hw.JObj? && "homework_name" in hw.fields && "status" in hw.fields
            && !(hw.fields["status"].JArr? || hw.fields["status"].JObj?)
            && !(hw.fields["status"].JStr? && hw.fields["status"].s in Verdicts) ==>
      r == Err(Error(ValueError, "Unexpected status of homework: " + Str(hw.fields["status"])))
  {
    if !hw.JObj? then
      Err(Error(AttributeError, "'" + TypeName(hw) + "' object has no attribute 'keys'"))
    else if !("homework_name" in hw.fields && "status" in hw.fields) then
      Err(Error(KeyError, "One or more keys is missingin homework's dictionary."))
    else
      var name, verdict := hw.fields["homework_name"], hw.fields["status"];
      match verdict
      case JStr(code) =>
        if code in Verdicts then Ok(FormatVerdict(Str(name), code))
        else Err(Error(ValueError, "Unexpected status of homework: " + code))
      case JArr(_) => Err(Error(TypeError, "unhashable type: 'list'"))
      case JObj(_) => Err(Error(TypeError, "unhashable type: 'dict'"))
      case _ => Err(Error(ValueError, "Unexpected status of homework: " + Str(verdict)))
  }

  /** A status message reads back as the name and the verdict code of its homework. */
  lemma ParseStatusRoundTrip(hw: JsonValue)
    requires ParseStatus(hw).Ok?
    ensures ParseMessage(ParseStatus(hw).value)
            == Some(Notice(Str(hw.fields["homework_name"]), hw.fields["status"].s))
  {
    FormatRoundTrip(Str(hw.fields["homework_name"]), hw.fields["status"].s);
  }

  /** On a string name the message is exactly the template, and is the same on every call. */
  lemma ParseStatusText(name: string, code: string, extra: map<string, JsonValue>)
    requires code in Verdicts
    ensures var hw := JObj(extra["homework_name" := JStr(name)]["status" := JStr(code)]);
      ParseStatus(hw) == Ok(Opening + name + "\". " + Verdicts[code])
  {
    var hw := JObj(extra["homework_name" := JStr(name)]["status" := JStr(code)]);
    assert hw.fields["homework_name"] == JStr(name) && hw.fields["status"] == JStr(code);
    assert ParseStatus(hw) == Ok(FormatVerdict(Str(JStr(name)), code));
    assert Opening + name + Closing(code) == Opening + name + "\". " + Verdicts[code];
  }
}
