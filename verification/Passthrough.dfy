/** What a proxy worker records in its request, and the JSON answer built from all of them. */
module Passthrough {
  import opened Wrappers
  import opened FanOut
  import opened GoText

  /** How the exchange with the endpoint went. */
  datatype Outcome =
    | BadRequest(error: Text)
    | NoTokenRecord(error: Text)
    | SendFailed(error: Text)
    | Answered(code: int, text: Text, body: Text, readError: Option<Text>)

  const NO_ANSWER := Answer(0, [], [], None)

  /** The answer a worker sends; a worker starts from a request without one. */
  function Recorded(o: Outcome): Answer {
    match o
    case BadRequest(e) => NO_ANSWER.(error := Some(e))
    case NoTokenRecord(e) => Answer(400, Ascii("Unable to retrieve CNSI token record"), [], Some(e))
    case SendFailed(e) => Answer(500, Ascii("Error proxing request"), e, Some(e))
    case Answered(code, text, body, readError) => Answer(code, text, body, readError)
  }

  class CnsiRequest {
    const guid: string
    const responseGuid: string
    var statusCode: int
    var status: Text
    var response: Text
    var error: Option<Text>
    ghost var sent: seq<Answer>

    ghost function Current(): Answer
      reads this
    {
      Answer(statusCode, status, response, error)
    }

    constructor (guid: string, responseGuid: string)
      ensures this.guid == guid && this.responseGuid == responseGuid
      ensures Current() == NO_ANSWER && sent == []
    {
      this.guid, this.responseGuid := guid, responseGuid;
      statusCode, status, response, error := 0, [], [], None;
      sent := [];
    }

    /** Every path through a worker sends on the channel exactly once, after the last change. */
    method DoRequest(o: Outcome)
      requires Current() == NO_ANSWER
      modifies this
      ensures Current() == Recorded(o) && sent == old(sent) + [Current()]
    {
      match o {
        case BadRequest(e) =>
          error := Some(e);
          sent := sent + [Current()];
          return;
        case NoTokenRecord(e) =>
          error := Some(e);
          statusCode := 400;
          status := Ascii("Unable to retrieve CNSI token record");
          sent := sent + [Current()];
          return;
        case SendFailed(e) =>
          statusCode := 500;
          status := Ascii("Error proxing request");
          response := e;
          error := Some(e);
        case Answered(code, text, body, readError) =>
          statusCode := code;
          status := text;
          response, error := body, readError;
      }
      sent := sent + [Current()];
    }
  }

  /** The JSON value under one endpoint: nothing, the endpoint's own body, or an error object. */
  datatype Entry = Null | Raw(body: Text) | Failure(statusCode: int, status: Text, errorResponse: Option<Text>)

  /** The response inside an error object: the body if it parses as JSON, or else the body quoted. */
  function ErrorText(json: Json, body: Text): Text {
    if json.parses(body) then body else Quote(json.printer, body)
  }

  predicate IsFailure(a: Answer) {
    a.error.Some? || a.statusCode >= 400
  }

  /** The error object can be marshalled; a response is part of it from status 400 on. */
  predicate CanMarshal(json: Json, a: Answer) {
    a.statusCode < 400 || json.wellFormed(ErrorText(json, a.response))
  }

  /** What the answer of one endpoint shows of its request. */
  ghost predicate Reports(e: Entry, a: Answer, json: Json) {
    && (e.Failure? <==> IsFailure(a) && CanMarshal(json, a))
    && (e.Failure? && a.statusCode >= 400 ==> e == Failure(a.statusCode, a.status, Some(ErrorText(json, a.response))))
    && (e.Failure? && a.statusCode < 400 ==> e == Failure(500, a.error.value, None))
    && (IsFailure(a) && !e.Failure? ==> e == Null)
    && (!IsFailure(a) ==> e == if a.response == [] then Null else Raw(a.response))
  }

  /**
   The answer has one entry per listed endpoint. For an endpoint without a result the code means to
   report "Request timed out", but then reads a field of the missing result and crashes: `None`. The
   error of marshalling an error object is dropped, and the entry is nothing.
   */
  method BuildJsonResponse(cnsiList: seq<string>, responses: map<string, Answer>, json: Json)
    returns (r: Option<map<string, Entry>>)
    ensures r.Some? <==> forall g <- cnsiList :: g in responses
    ensures r.Some? ==> r.value.Keys == set g | g in cnsiList
    ensures r.Some? ==> forall g <- cnsiList ::
        g in r.value && g in responses && Reports(r.value[g], responses[g], json)
  {
    var entries: map<string, Entry> := map[];
    for i := 0 to |cnsiList|
      invariant forall g <- cnsiList[..i] :: g in responses
      invariant entries.Keys == set g | g in cnsiList[..i]
      invariant forall g <- entries :: g in responses && Reports(entries[g], responses[g], json)
    {
      var guid := cnsiList[i];
      assert guid in cnsiList && cnsiList[..i + 1] == cnsiList[..i] + [guid];
      var code: int, status: Text, response: Text := -1, [], [];
      var errorResponse: Option<Text> := None;
      if guid !in responses {
        code, status := 500, Ascii("Request timed out");
      } else if responses[guid].error.Some? {
        code, status := 500, responses[guid].error.value;
      } else {
        response := responses[guid].response;
      }
      if guid !in responses {
        return None;
      }
      if responses[guid].statusCode >= 400 {
        code, status := responses[guid].statusCode, responses[guid].status;
        errorResponse := Some(ErrorText(json, responses[guid].response));
      }
      if code >= 0 {
        var marshalled := errorResponse.None? || json.wellFormed(errorResponse.value);
        entries := entries[guid := if marshalled then Failure(code, status, errorResponse) else Null];
      } else if |response| > 0 {
        entries := entries[guid := Raw(response)];
      } else {
        entries := entries[guid := Null];
      }
    }
    assert cnsiList[..|cnsiList|] == cnsiList;
    r := Some(entries);
  }

  /** `Unencodable` means that the encoder failed before it wrote anything. */
  datatype Sent = Crash | Direct(statusCode: int, body: Text) | Unencodable | Json(entries: map<string, Entry>)

  /** A body that is passed on as it is must be JSON. */
  predicate CanEncode(json: Json, a: Answer) {
    IsFailure(a) || a.response == [] || json.wellFormed(a.response)
  }

  /** What is written for the collected answers when there is no passthrough. */
  ghost predicate Writes(sent: Sent, responses: map<string, Answer>, json: Json) {
    && (sent.Json? || sent.Unencodable?)
    && (sent.Json? <==> forall g <- responses :: CanEncode(json, responses[g]))
    && (sent.Json? ==>
          && sent.entries.Keys == responses.Keys
          && forall g <- responses :: g in sent.entries && Reports(sent.entries[g], responses[g], json))
  }

  /** Passthrough mode copies the one answer there is; otherwise the collected keys are what is listed. */
  method SendProxiedResponse(passthrough: bool, responses: map<string, Answer>, json: Json) returns (r: Sent)
    ensures r.Crash? <==> passthrough && responses == map[]
    ensures passthrough && |responses| == 1 ==>
      forall g <- responses :: r == Direct(responses[g].statusCode, responses[g].response)
    ensures !passthrough ==> Writes(r, responses, json)
  {
    var cnsiList: seq<string> := [];
    var left := responses.Keys;
    while left != {}
      invariant left <= responses.Keys
      invariant forall g <- responses :: g in left || g in cnsiList
      invariant forall g <- cnsiList :: g in responses
      decreases |left|
    {
      var k :| k in left;
      cnsiList := cnsiList + [k];
      left := left - {k};
    }
    if passthrough {
      if cnsiList == [] {
        return Crash;
      }
      assert cnsiList[0] in cnsiList;
      forall g <- responses
        ensures |responses| == 1 ==> g == cnsiList[0]
      {
        OnlyKey(responses, g, cnsiList[0]);
      }
      return Direct(responses[cnsiList[0]].statusCode, responses[cnsiList[0]].response);
    }
    var entries := BuildJsonResponse(cnsiList, responses, json);
    assert entries.value.Keys == responses.Keys;
    r := Encode(entries.value, json);
  }

  /** Encoding fails as a whole if one raw message is not well-formed. */
  method Encode(entries: map<string, Entry>, json: Json) returns (r: Sent)
    ensures r == if forall g <- entries :: entries[g].Raw? ==> json.wellFormed(entries[g].body)
                 then Sent.Json(entries) else Unencodable
  {
    var left := entries.Keys;
    while left != {}
      invariant left <= entries.Keys
      invariant forall g <- entries :: g in left || (entries[g].Raw? ==> json.wellFormed(entries[g].body))
      decreases |left|
    {
      var k :| k in left;
      if entries[k].Raw? && !json.wellFormed(entries[k].body) {
        return Unencodable;
      }
      left := left - {k};
    }
    return Sent.Json(entries);
  }

  lemma OnlyKey(m: map<string, Answer>, a: string, b: string)
    requires a in m && b in m
    ensures |m| == 1 ==> a == b
  {
    if a != b {
      assert {a, b} <= m.Keys;
      assert |m.Keys - {a, b}| == |m.Keys| - 2;
    }
  }

  // ---------------------------------------------------------------- a whole call

  function JobsOf(guids: seq<string>, outcomes: seq<Outcome>): seq<Job>
    requires |guids| == |outcomes|
  {
    seq(|guids|, i requires 0 <= i < |guids| => Job(true, guids[i], Recorded(outcomes[i])))
  }

  predicate Failed(o: Outcome) {
    !o.Answered? || o.code >= 400 || o.readError.Some?
  }

  /** The status of the failure is below 400, or the body of the response is JSON, or can be quoted as JSON. */
  ghost predicate Presentable(o: Outcome, json: Json) {
    match o
    case BadRequest(_) => true
    case NoTokenRecord(_) => true
    case SendFailed(e) => json.parses(e) || forall u <- e :: JsonSafe(json.printer, u)
    case Answered(code, _, body, _) => code < 400 || json.parses(body) || forall u <- body :: JsonSafe(json.printer, u)
  }

  /** A quoted text is well-formed JSON exactly if all its characters are safe. */
  lemma ErrorTextIsJson(json: Json, body: Text)
    requires Lawful(json)
    ensures json.wellFormed(ErrorText(json, body))
        <==> json.parses(body) || forall u <- body :: JsonSafe(json.printer, u)
  {
    QuoteIsJsonString(json.printer, body);
  }

  /** A failed exchange has an error object that can be marshalled exactly if it is presentable. */
  lemma FailureIsPresentable(o: Outcome, json: Json)
    requires Lawful(json)
    ensures IsFailure(Recorded(o)) <==> Failed(o)
    ensures CanMarshal(json, Recorded(o)) <==> Presentable(o, json)
  {
    ErrorTextIsJson(json, Recorded(o).response);
  }

  /** The answers of a finished call to different endpoints are those of their own exchanges. */
  lemma CallCollectsOutcomes(guids: seq<string>, outcomes: seq<Outcome>, steps: seq<Step>, s: State)
    requires |guids| == |outcomes| && forall a, b | 0 <= a < b < |guids| :: guids[a] != guids[b]
    requires Finished(JobsOf(guids, outcomes), steps, s)
    ensures s.responses.Keys == set g | g in guids
    ensures forall i | 0 <= i < |guids| :: guids[i] in s.responses && s.responses[guids[i]] == Recorded(outcomes[i])
  {
    var jobs := JobsOf(guids, outcomes);
    EachAnswerIsItsOwn(jobs, steps, s);
    forall i | 0 <= i < |guids|
      ensures guids[i] in s.responses && s.responses[guids[i]] == Recorded(outcomes[i])
    {
      assert jobs[i].key == guids[i] && jobs[i].result == Recorded(outcomes[i]);
    }
  }

  /**
   A call to different endpoints writes an answer, whatever the interleaving of the workers, exactly if
   every body that is not empty and belongs to an exchange that did not fail is well-formed JSON.
   */
  lemma AnswerIsWritten(guids: seq<string>, outcomes: seq<Outcome>, steps: seq<Step>, s: State, sent: Sent, json: Json)
    requires |guids| == |outcomes| && forall a, b | 0 <= a < b < |guids| :: guids[a] != guids[b]
    requires Finished(JobsOf(guids, outcomes), steps, s) && Writes(sent, s.responses, json)
    ensures sent.Json? <==>
      forall i | 0 <= i < |guids| ::
          !Failed(outcomes[i]) && outcomes[i].body != [] ==> json.wellFormed(outcomes[i].body)
    ensures sent.Json? ==> sent.entries.Keys == set g | g in guids
  {
    CallCollectsOutcomes(guids, outcomes, steps, s);
    forall i | 0 <= i < |guids|
      ensures CanEncode(json, s.responses[guids[i]])
              <==> (!Failed(outcomes[i]) && outcomes[i].body != [] ==> json.wellFormed(outcomes[i].body))
    {
    }
    forall g <- s.responses
      ensures exists i :: 0 <= i < |guids| && guids[i] == g
    {
      assert g in guids;
    }
  }

  /**
   In an answer that is written an endpoint shows its body if the exchange with it did not fail, and
   otherwise an error object exactly if the failure is presentable, and nothing if it is not.
   */
  lemma EveryEndpointIsReported(guids: seq<string>, outcomes: seq<Outcome>, steps: seq<Step>, s: State,
                                sent: Sent, json: Json, i: nat)
    requires |guids| == |outcomes| && i < |guids| && forall a, b | 0 <= a < b < |guids| :: guids[a] != guids[b]
    requires Finished(JobsOf(guids, outcomes), steps, s) && Lawful(json) && Writes(sent, s.responses, json)
        && sent.Json?
    ensures guids[i] in sent.entries
    ensures sent.entries[guids[i]].Failure? <==> Failed(outcomes[i]) && Presentable(outcomes[i], json)
    ensures Failed(outcomes[i]) && !Presentable(outcomes[i], json) ==> sent.entries[guids[i]] == Null
    ensures !Failed(outcomes[i]) ==>
      sent.entries[guids[i]] == if outcomes[i].body == [] then Null else Raw(outcomes[i].body)
  {
    CallCollectsOutcomes(guids, outcomes, steps, s);
    FailureIsPresentable(outcomes[i], json);
  }

  /** The error object of a failure that is presentable, by what went wrong. */
  function FailureOf(o: Outcome, json: Json): Entry
    requires Failed(o)
  {
    match o
    case BadRequest(e) => Failure(500, e, None)
    case NoTokenRecord(_) => Failure(400, Ascii("Unable to retrieve CNSI token record"), Some(ErrorText(json, [])))
    case SendFailed(e) => Failure(500, Ascii("Error proxing request"), Some(ErrorText(json, e)))
    case Answered(code, text, body, readError) =>
      if code >= 400 then Failure(code, text, Some(ErrorText(json, body))) else Failure(500, readError.value, None)
  }

  /** The error object carries the status and text of the answer, or those that the proxy gives a failure. */
  lemma FailureIsSpelledOut(guids: seq<string>, outcomes: seq<Outcome>, steps: seq<Step>, s: State,
                            sent: Sent, json: Json, i: nat)
    requires |guids| == |outcomes| && i < |guids| && forall a, b | 0 <= a < b < |guids| :: guids[a] != guids[b]
    requires Finished(JobsOf(guids, outcomes), steps, s) && Lawful(json) && Writes(sent, s.responses, json)
    requires sent.Json? && Failed(outcomes[i]) && Presentable(outcomes[i], json)
    ensures guids[i] in sent.entries && sent.entries[guids[i]] == FailureOf(outcomes[i], json)
  {
    CallCollectsOutcomes(guids, outcomes, steps, s);
    FailureIsPresentable(outcomes[i], json);
  }

  /** One endpoint that answers with a plain text leaves all of them without an answer. */
  lemma OneBadBodyVoidsTheAnswer(guids: seq<string>, outcomes: seq<Outcome>, steps: seq<Step>, s: State,
                                 sent: Sent, json: Json, i: nat)
    requires |guids| == |outcomes| && i < |guids| && forall a, b | 0 <= a < b < |guids| :: guids[a] != guids[b]
    requires Finished(JobsOf(guids, outcomes), steps, s) && Lawful(json) && Writes(sent, s.responses, json)
    requires outcomes[i] == Answered(200, Ascii("OK"), Ascii("hello"), None)
    ensures sent == Unencodable
  {
    assert Ascii("hello")[0] == Rune('h');
    AnswerIsWritten(guids, outcomes, steps, s, sent, json);
  }

  /** The error object of a refused request whose body has a byte that is no UTF-8 is lost. */
  lemma BrokenErrorBodyIsLost(guids: seq<string>, outcomes: seq<Outcome>, steps: seq<Step>, s: State,
                              sent: Sent, json: Json, i: nat)
    requires |guids| == |outcomes| && i < |guids| && forall a, b | 0 <= a < b < |guids| :: guids[a] != guids[b]
    requires Finished(JobsOf(guids, outcomes), steps, s) && Lawful(json) && Writes(sent, s.responses, json)
        && sent.Json?
    requires outcomes[i] == Answered(500, Ascii("Internal Server Error"), [Broken(0xFF)], None)
    ensures guids[i] in sent.entries && sent.entries[guids[i]] == Null
  {
    UnsafeCharacters(json.printer);
    assert Broken(0xFF) in [Broken(0xFF)];
    EveryEndpointIsReported(guids, outcomes, steps, s, sent, json, i);
  }
}
