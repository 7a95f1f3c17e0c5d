/**
 * The `ai-chat` edge function (supabase/functions/ai-chat/index.ts): CORS
 * preflight, the API-key and request checks, the persona prompt lookup, the
 * `contents` list sent to the completion API, and the extraction of the reply.
 * The HTTP call is a parameter: `upstream` gives the outcome of the call it is
 * handed, so a request that never reaches it is visibly independent of it.
 */
module AiChat {
  import opened Wrappers
  import opened Text

  const CorsHeaders: map<string, string> := map[
    "Access-Control-Allow-Origin" := "*",
    "Access-Control-Allow-Headers" := ("authorization, " + "x-client-info, " + "apikey, content-type")
  ]

  const JsonHeaders: map<string, string> := CorsHeaders["Content-Type" := "application/json"]

  // The prompt texts are written as concatenated pieces: the verifier's cost for
  // a string literal grows quickly with its length, and the pieces spell the
  // same text.

  const BuffettPrompt :=
      ("You are an educational " + "avatar inspired " + "by Warren Buffett. " + "Focus ")
    + ("on value investing, " + "long-term thinking, " + "margin of safety, and ")
    + ("understanding " + "businesses. Speak " + "plainly and avoid " + "hype. Offer ")
    + ("examples and " + "simple mental " + "models. Avoid " + "claiming to be the ")
    + "real person."
  const NavalPrompt :=
      ("You are an educational " + "avatar inspired " + "by Naval Ravikant. " + "Emphasize ")
    + ("specific knowledge, " + "leverage (code, " + "media, capital), " + "compounding, ")
    + ("judgment, and " + "accountability. " + "Be concise and " + "aphoristic where ")
    + ("useful. Avoid " + "claiming to be " + "the real person.")
  const DalioPrompt :=
      ("You are an educational " + "avatar inspired " + "by Ray Dalio. " + "Focus on ")
    + ("principles, radical " + "transparency, " + "diversified portfolios, " + "risk ")
    + ("parity, and stress-testing " + "assumptions. " + "Use calm, structured ")
    + ("reasoning. Avoid " + "claiming to be " + "the real person.")

  const Personas: map<string, string> := map["buffett" := BuffettPrompt, "naval" := NavalPrompt, "dalio" := DalioPrompt]

  const MentorPrompt :=
      ("You are a seasoned " + "financial mentor " + "avatar. Be pragmatic and ")
    + ("helpful. Offer " + "clear steps, " + "and never provide " + "legal or tax " + "advice.")

  const CharacterSuffix :=
      (" Stay in character " + "as an educational " + "avatar. Provide " + "practical, ")
    + ("responsible suggestions. " + "If the user asks " + "for regulated " + "advice, ")
    + ("provide general " + "education and " + "encourage consulting " + "a professional.")

  const Acknowledgement :=
      ("I understand. " + "I'll stay in " + "character and " + "provide helpful " + "educational ")
    + "guidance."

  // ---------------------------------------------------------------- JSON values

  /**
   * A JSON value of the request body. `Undefined` is a field the body does not
   * have. Numbers are integers. An object is represented only by whether it has
   * an own `toString` key, the one thing `String()` depends on.
   */
  datatype Json =
    | Undefined
    | JNull
    | JBool(b: bool)
    | JNum(n: int)
    | JStr(s: string)
    | JArray(items: seq<Json>)
    | JObject(ownToString: bool)

  /** JavaScript truthiness (`!v` is false). */
  predicate Truthy(v: Json) {
    match v
    case Undefined => false
    case JNull => false
    case JBool(b) => b
    case JNum(n) => n != 0
    case JStr(s) => s != ""
    case JArray(_) => true
    case JObject(_) => true
  }

  /** The `TypeError` message of `String(o)` for an object whose own `toString` is not a function. */
  const ConvertError := "Cannot convert object to primitive value"

  /** `String(v)`: the text of `v`, or the message of the `TypeError` it throws. */
  function JsString(v: Json): (r: Result<string, string>)
    ensures v.JStr? ==> r == Ok(v.s)
    ensures v.JObject? ==> (r.Err? <==> v.ownToString)
    ensures r.Err? ==> r.error == ConvertError
    decreases v, 1, 0
  {
    match v
    case Undefined => Ok("undefined")
    case JNull => Ok("null")
    case JBool(b) => Ok(if b then "true" else "false")
    case JNum(n) => Ok(IntToDecimal(n))
    case JStr(s) => Ok(s)
    case JArray(items) =>
      (match ElementTexts(v, 0)
       case Err(m) => Err(m)
       case Ok(ts) => Ok(Join(ts, ",")))
    case JObject(own) => if own then Err(ConvertError) else Ok("[object Object]")
  }

  /** The texts `join(",")` gives the elements of `arr` from index `i` on: "" for `null` and `undefined`. */
  function ElementTexts(arr: Json, i: nat): (r: Result<seq<string>, string>)
    requires arr.JArray? && i <= |arr.items|
    ensures r.Ok? ==> |r.value| == |arr.items| - i
    ensures r.Err? ==> r.error == ConvertError
    decreases arr, 0, |arr.items| - i
  {
    if i == |arr.items| then Ok([])
    else
      var e := arr.items[i];
      var head := if e.Undefined? || e.JNull? then Ok("") else JsString(e);
      match head
      case Err(m) => Err(m)
      case Ok(t) =>
        match ElementTexts(arr, i + 1)
        case Err(m) => Err(m)
        case Ok(ts) => Ok([t] + ts)
  }

  /** Whether `v` is, or holds at any depth of arrays, an object with an own `toString`. */
  predicate HasOwnToString(v: Json)
    decreases v
  {
    match v
    case JObject(own) => own
    case JArray(items) => exists k :: 0 <= k < |items| && HasOwnToString(items[k])
    case _ => false
  }

  /** `String(v)` throws exactly when an object with an own `toString` is met. */
  lemma {:induction false} JsStringFailsIff(v: Json)
    ensures JsString(v).Err? <==> HasOwnToString(v)
    decreases v, 1, 0
  {
    if v.JArray? {
      ElementTextsFailIff(v, 0);
    }
  }

  lemma {:induction false} ElementTextsFailIff(arr: Json, i: nat)
    requires arr.JArray? && i <= |arr.items|
    ensures ElementTexts(arr, i).Err? <==> exists k :: i <= k < |arr.items| && HasOwnToString(arr.items[k])
    decreases arr, 0, |arr.items| - i
  {
    if i < |arr.items| {
      var e := arr.items[i];
      if !(e.Undefined? || e.JNull?) {
        JsStringFailsIff(e);
      }
      ElementTextsFailIff(arr, i + 1);
    }
  }

  /** A one-element array converts to its element's text: `String(["naval"])` is "naval". */
  lemma SingletonArrayText(s: string)
    ensures JsString(JArray([JStr(s)])) == Ok(s)
  {
    var arr := JArray([JStr(s)]);
    assert ElementTexts(arr, 1) == Ok([]);
    assert JsString(JStr(s)) == Ok(s);
    assert [s] + [] == [s];
    assert ElementTexts(arr, 0) == Ok([s]);
  }

  // ---------------------------------------------------------------- persona lookup

  /** The methods every plain object inherits from `Object.prototype`. */
  const InheritedMethods: set<string> := {
    "constructor", "hasOwnProperty", "isPrototypeOf", "propertyIsEnumerable", "toLocaleString",
    "toString", "valueOf", "__defineGetter__", "__defineSetter__", "__lookupGetter__", "__lookupSetter__"}

  /** The text of a built-in function: `constructor` is `Object`, every other method prints its own name. */
  function NativeFunctionText(name: string): string {
    "function " + (if name == "constructor" then "Object" else name) + "() { [native code] }"
  }

  /**
   * The text `PERSONAS[id] || mentor` puts in front of the character suffix.
   * The lookup is on a plain object, so it also finds the inherited methods,
   * which print as function sources, and `__proto__`, the prototype itself.
   */
  function SystemText(avatarId: string): (r: string)
    ensures avatarId in Personas ==> r == Personas[avatarId]
    ensures avatarId in InheritedMethods ==> r == NativeFunctionText(avatarId)
    ensures avatarId == "__proto__" ==> r == "[object Object]"
    ensures avatarId !in Personas && avatarId !in InheritedMethods && avatarId != "__proto__" ==> r == MentorPrompt
  {
    if avatarId in Personas && Personas[avatarId] != "" then Personas[avatarId]
    else if avatarId in InheritedMethods then NativeFunctionText(avatarId)
    else if avatarId == "__proto__" then "[object Object]"
    else MentorPrompt
  }

  // ---------------------------------------------------------------- contents

  /**
   * One element of a `history` array: `null`, or a value whose `role` and
   * `content` are read (`Undefined` where it has no such field, as for a number
   * or a string).
   */
  datatype HistoryElem = NullElem | Elem(role: Json, content: Json)

  /** The `history` field: absent, something other than an array, or an array. */
  datatype HistoryField = Absent | NotAnArray | Items(items: seq<HistoryElem>)

  /**
   * The fields the handler takes from the parsed body. A body that is not an
   * object (a number, a string, an array) has none of them.
   */
  datatype Body = Body(avatarId: Json, message: Json, history: HistoryField)

  /** What `await req.json()` and its destructuring give: the fields, or the message of the error thrown. */
  datatype BodyParse = Parsed(body: Body) | Unreadable(message: Option<string>)

  datatype Request = Request(httpMethod: string, body: BodyParse)

  /** One element of `contents`: a role and its single text part (`Undefined` is dropped by `JSON.stringify`). */
  datatype Content = Content(role: string, text: Json)

  /** The `TypeError` message of `m.role` on a `null` history element. */
  const NullRoleError := "Cannot read properties of null (reading 'role')"

  /** The two priming turns go in when history is absent, not an array, or empty. */
  predicate NeedsPriming(history: HistoryField) {
    !history.Items? || history.items == []
  }

  /** The history items of an array field, and none otherwise. */
  function HistoryItems(history: HistoryField): seq<HistoryElem> {
    if history.Items? then history.items else []
  }

  /** Whether the history array holds a `null`, on which the loop throws. */
  predicate HasNull(history: HistoryField) {
    history.Items? && exists k :: 0 <= k < |history.items| && history.items[k].NullElem?
  }

  function ContentOf(m: HistoryElem): Content
    requires m.Elem?
  {
    Content(if m.role == JStr("user") then "user" else "model", m.content)
  }

  /** The `contents` list the handler assembles from history without `null` elements. */
  function Contents(system: string, history: HistoryField, message: string): (r: seq<Content>)
    requires !HasNull(history)
    ensures var h := HistoryItems(history);
            var base := if NeedsPriming(history) then 2 else 0;
            && |r| == base + |h| + 1
            && (NeedsPriming(history) ==>
                  r[0] == Content("user", JStr(system + CharacterSuffix))
                  && r[1] == Content("model", JStr(Acknowledgement)))
            && (forall i :: 0 <= i < |h| ==>
                  r[base + i].text == h[i].content
                  && r[base + i].role == (if h[i].role == JStr("user") then "user" else "model"))
            && r[|r| - 1] == Content("user", JStr(message))
  {
    var priming := if NeedsPriming(history) then
                     [Content("user", JStr(system + CharacterSuffix)), Content("model", JStr(Acknowledgement))]
                   else [];
    var h := HistoryItems(history);
    priming + seq(|h|, i requires 0 <= i < |h| => ContentOf(h[i])) + [Content("user", JStr(message))]
  }

  /**
   * The `contents` list built with `push` calls, the `for` loop over history
   * and `String(message)`, or the message of the first error thrown.
   */
  method BuildContents(system: string, history: HistoryField, message: Json) returns (r: Result<seq<Content>, string>)
    ensures HasNull(history) ==> r == Err(NullRoleError)
    ensures !HasNull(history) && JsString(message).Err? ==> r == Err(JsString(message).error)
    ensures !HasNull(history) && JsString(message).Ok? ==> r == Ok(Contents(system, history, JsString(message).value))
  {
    var contents := [];
    if !history.Items? || |history.items| == 0 {
      contents := contents + [Content("user", JStr(system + CharacterSuffix))];
      contents := contents + [Content("model", JStr(Acknowledgement))];
    }
    ghost var primed := contents;
    assert primed == if NeedsPriming(history) then
                       [Content("user", JStr(system + CharacterSuffix)), Content("model", JStr(Acknowledgement))]
                     else [];
    if history.Items? {
      var items := history.items;
      for k := 0 to |items|
        invariant forall j :: 0 <= j < k ==> items[j].Elem?
        invariant contents == primed + seq(k, i requires 0 <= i < k => ContentOf(items[i]))
      {
        var m := items[k];
        if m.NullElem? {
          return Err(NullRoleError);
        }
        contents := contents + [Content(if m.role == JStr("user") then "user" else "model", m.content)];
      }
    }
    var text := JsString(message);
    if text.Err? {
      return Err(text.error);
    }
    assert contents == primed + seq(|HistoryItems(history)|, i requires 0 <= i < |HistoryItems(history)| => ContentOf(HistoryItems(history)[i]));
    contents := contents + [Content("user", JStr(text.value))];
    r := Ok(contents);
  }

  /** Every item of `contents` carries one of the two roles the completion API accepts. */
  lemma ContentsRoles(system: string, history: HistoryField, message: string)
    requires !HasNull(history)
    ensures forall c :: c in Contents(system, history, message) ==> c.role == "user" || c.role == "model"
  {
    var r := Contents(system, history, message);
    forall c | c in r ensures c.role == "user" || c.role == "model" {
      var k :| 0 <= k < |r| && r[k] == c;
      var base := if NeedsPriming(history) then 2 else 0;
      if base <= k < |r| - 1 {
        assert r[k].role == (if HistoryItems(history)[k - base].role == JStr("user") then "user" else "model");
      }
    }
  }

  // ---------------------------------------------------------------- the call and its answer

  /** The request handed to the completion API. */
  datatype UpstreamCall = UpstreamCall(
    apiKey: string,
    contents: seq<Content>,
    systemInstruction: string,
    temperature: real,
    maxOutputTokens: int)

  datatype Part = Part(text: Option<string>)
  datatype GContent = GContent(parts: Option<seq<Part>>)
  datatype Candidate = Candidate(content: Option<GContent>)
  /** The completion API's JSON answer, every step of the path optional. */
  datatype Completion = Completion(candidates: Option<seq<Candidate>>)

  /** How the call ended: a non-2xx status with its text, a parsed answer, or a thrown error. */
  datatype UpstreamResult = NotOk(errText: string) | Answered(data: Completion) | Threw(message: Option<string>)

  /** Whether the optional path `candidates[0].content.parts[0].text` reaches a text. */
  predicate HasReplyText(data: Completion) {
    && data.candidates.Some? && data.candidates.value != []
    && data.candidates.value[0].content.Some?
    && data.candidates.value[0].content.value.parts.Some?
    && data.candidates.value[0].content.value.parts.value != []
    && data.candidates.value[0].content.value.parts.value[0].text.Some?
  }

  /** `data?.candidates?.[0]?.content?.parts?.[0]?.text ?? ""`. */
  function ReplyOf(data: Completion): (r: string)
    ensures HasReplyText(data) ==> r == data.candidates.value[0].content.value.parts.value[0].text.value
    ensures !HasReplyText(data) ==> r == ""
  {
    if data.candidates.None? || data.candidates.value == [] then ""
    else
      var c := data.candidates.value[0];
      if c.content.None? || c.content.value.parts.None? || c.content.value.parts.value == [] then ""
      else c.content.value.parts.value[0].text.GetOr("")
  }

  datatype Payload = NoPayload | ErrorPayload(error: string, details: Option<string>) | ReplyPayload(reply: string)

  datatype Response = Response(status: int, headers: map<string, string>, payload: Payload)

  function JsonResponse(status: int, payload: Payload): Response {
    Response(status, JsonHeaders, payload)
  }

  /** JavaScript truthiness of the optional secret. */
  predicate KeySet(k: Option<string>) {
    k.Some? && k.value != ""
  }

  /** The call made for a request whose avatar id reads as `id` and whose message reads as `message`. */
  function UpstreamFor(apiKey: string, id: string, history: HistoryField, message: string): UpstreamCall
    requires !HasNull(history)
  {
    var system := SystemText(id);
    UpstreamCall(apiKey, Contents(system, history, message), system + CharacterSuffix, 0.7, 2048)
  }

  /** The 400 answer to a request without a truthy avatar id and message. */
  const Required := JsonResponse(400, ErrorPayload(("avatar_id and " + "message are required"), None))

  /** The handler: `apiKey` is the `GEMINI_API_KEY` secret, `upstream` answers the completion call. */
  function Handle(req: Request, apiKey: Option<string>, upstream: UpstreamCall -> UpstreamResult): (r: Response)
    ensures req.httpMethod == "OPTIONS" ==> r == Response(200, CorsHeaders, NoPayload)
    ensures req.httpMethod != "OPTIONS" && !KeySet(apiKey) ==>
              r == JsonResponse(500, ErrorPayload(("Missing GEMINI_API_KEY " + "secret"), None))
    ensures req.httpMethod != "OPTIONS" && KeySet(apiKey) && req.body.Parsed? ==>
              var body := req.body.body;
              && (!(Truthy(body.avatarId) && Truthy(body.message)) ==> r == Required)
              && (Truthy(body.avatarId) && Truthy(body.message) && JsString(body.avatarId).Err? ==>
                    r == JsonResponse(500, ErrorPayload(ConvertError, None)))
              && (Truthy(body.avatarId) && Truthy(body.message) && JsString(body.avatarId).Ok?
                  && HasNull(body.history) ==>
                    r == JsonResponse(500, ErrorPayload(NullRoleError, None)))
              && (Truthy(body.avatarId) && Truthy(body.message) && JsString(body.avatarId).Ok?
                  && !HasNull(body.history) && JsString(body.message).Err? ==>
                    r == JsonResponse(500, ErrorPayload(ConvertError, None)))
    ensures req.httpMethod != "OPTIONS" && KeySet(apiKey) && req.body.Unreadable? ==>
              r == JsonResponse(500, ErrorPayload(req.body.message.GetOr("Unknown error"), None))
    ensures r.status == 200 || r.status == 400 || r.status == 500
  {
    if req.httpMethod == "OPTIONS" then Response(200, CorsHeaders, NoPayload)
    else if !KeySet(apiKey) then JsonResponse(500, ErrorPayload(("Missing GEMINI_API_KEY " + "secret"), None))
    else match req.body
      case Unreadable(msg) => JsonResponse(500, ErrorPayload(msg.GetOr("Unknown error"), None))
      case Parsed(body) =>
        if !(Truthy(body.avatarId) && Truthy(body.message)) then Required
        else match JsString(body.avatarId)
          case Err(e) => JsonResponse(500, ErrorPayload(e, None))
          case Ok(id) =>
            if HasNull(body.history) then JsonResponse(500, ErrorPayload(NullRoleError, None))
            else match JsString(body.message)
              case Err(e) => JsonResponse(500, ErrorPayload(e, None))
              case Ok(text) =>
                match upstream(UpstreamFor(apiKey.value, id, body.history, text))
                case NotOk(errText) => JsonResponse(500, ErrorPayload("Gemini API error", Some(errText)))
                case Threw(msg) => JsonResponse(500, ErrorPayload(msg.GetOr("Unknown error"), None))
                case Answered(data) => JsonResponse(200, ReplyPayload(ReplyOf(data)))
  }

  /** Whether the handler answers before the completion call: a check fails or a conversion throws. */
  predicate Rejected(req: Request, apiKey: Option<string>) {
    || req.httpMethod == "OPTIONS" || !KeySet(apiKey) || req.body.Unreadable?
    || !(Truthy(req.body.body.avatarId) && Truthy(req.body.body.message))
    || JsString(req.body.body.avatarId).Err? || HasNull(req.body.body.history)
    || JsString(req.body.body.message).Err?
  }

  /** A rejected request never reaches the completion API: any two upstreams give the same response. */
  lemma RejectedNeverCallsUpstream(req: Request, apiKey: Option<string>,
                                   u1: UpstreamCall -> UpstreamResult, u2: UpstreamCall -> UpstreamResult)
    requires Rejected(req, apiKey)
    ensures Handle(req, apiKey, u1) == Handle(req, apiKey, u2)
  {
  }

  /** A valid request hands the completion API the persona's contents, and answers 200 with the reply. */
  lemma ValidRequestReply(req: Request, key: string, upstream: UpstreamCall -> UpstreamResult)
    requires req.httpMethod != "OPTIONS" && key != "" && req.body.Parsed?
    requires !Rejected(req, Some(key))
    ensures var body := req.body.body;
            var id := JsString(body.avatarId).value;
            var text := JsString(body.message).value;
            var call := UpstreamFor(key, id, body.history, text);
            && call.contents[|call.contents| - 1] == Content("user", JStr(text))
            && |call.contents| == (if NeedsPriming(body.history) then 2 else 0) + |HistoryItems(body.history)| + 1
            && call.systemInstruction == SystemText(id) + CharacterSuffix
            && (upstream(call).Answered? ==>
                  Handle(req, Some(key), upstream) == JsonResponse(200, ReplyPayload(ReplyOf(upstream(call).data))))
            && (upstream(call).NotOk? ==>
                  Handle(req, Some(key), upstream)
                  == JsonResponse(500, ErrorPayload("Gemini API error", Some(upstream(call).errText))))
  {
  }

  /**
   * Truthy fields of other types pass the check and are sent as their text:
   * a numeric avatar id falls back to the mentor, and `true` is sent as "true".
   */
  lemma NonTextFieldsAreSent(key: string, upstream: UpstreamCall -> UpstreamResult)
    requires key != ""
    ensures var req := Request("POST", Parsed(Body(JNum(5), JBool(true), Absent)));
            var call := UpstreamFor(key, "5", Absent, "true");
            && !Rejected(req, Some(key))
            && call.systemInstruction == MentorPrompt + CharacterSuffix
            && call.contents[|call.contents| - 1] == Content("user", JStr("true"))
            && (upstream(call).Answered? ==>
                  Handle(req, Some(key), upstream) == JsonResponse(200, ReplyPayload(ReplyOf(upstream(call).data))))
  {
    assert JsString(JNum(5)) == Ok("5");
    assert "5" !in Personas && "5" !in InheritedMethods;
  }

  /** An avatar id sent as a one-element array selects the persona it names. */
  lemma ArrayIdSelectsPersona(key: string, message: string)
    requires key != "" && message != ""
    ensures var req := Request("POST", Parsed(Body(JArray([JStr("naval")]), JStr(message), Absent)));
            && !Rejected(req, Some(key))
            && JsString(req.body.body.avatarId) == Ok("naval")
            && SystemText("naval") == NavalPrompt
  {
    SingletonArrayText("naval");
  }
}
