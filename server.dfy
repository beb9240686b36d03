/**
 * The Express server's three routes, each as a function from the parsed
 * request body (and, for `/chat`, what the engine and the completions API
 * do) to the status and JSON body of the response.
 */
module Server {
  import opened Wrappers
  import opened Bounds
  import opened Json
  import opened Text

  /** How many of the posted messages `/chat` forwards. */
  const HISTORY: nat := 10

  /**
   * `slice(start)` with one argument, on arrays and strings alike: a negative
   * start counts from the end, and both ends are clamped to the sequence.
   */
  function Slice<T>(s: seq<T>, start: int): (r: seq<T>)
    ensures |r| == if start >= 0 then Max(|s| - start, 0) else Min(-start, |s|)
    ensures r == s[|s| - |r|..]
  {
    var k := if start < 0 then Max(|s| + start, 0) else Min(start, |s|);
    s[k..]
  }

  /** What is sent to the completions API: `{ agent_id, messages }`. */
  datatype Payload = Payload(agentId: Option<string>, messages: Raw)

  /** The errors the JavaScript engine itself raises inside a handler. */
  datatype Fault =
    | BodyMissing   // destructuring a missing request body
    | NotSliceable  // `messages.slice` is not a function
    | ReplyNotJson  // `response.json()` on a body that does not parse
    | DataMissing   // `data.response` on a `null` reply

  datatype Attempt<T> = Done(value: T) | Threw(fault: Fault)

  /** The `messages` a non-missing body yields, the default `[]` filling in when absent. */
  function Requested(body: Raw): Raw
  {
    match Prop(body, "messages")
    case Some(v) => v
    case None => Array([])
  }

  /** Destructuring the body of `/chat` and building the request for the API. */
  function BuildPayload(body: Raw, agentId: Option<string>): (r: Attempt<Payload>)
    ensures body.Null? ==> r == Threw(BodyMissing)
    ensures r.Done? ==> r.value.agentId == agentId
    ensures !body.Null? && Requested(body).Array? ==>
              var xs := Requested(body).items;
              r.Done? && r.value.messages == Array(xs[|xs| - Min(HISTORY, |xs|)..])
    ensures !body.Null? && Requested(body).Str? ==>
              var s := Requested(body).s;
              r.Done? && r.value.messages == Str(s[|s| - Min(HISTORY, |s|)..])
    ensures !body.Null? && !Requested(body).Array? && !Requested(body).Str? ==>
              r == Threw(NotSliceable)
  {
    if body.Null? then Threw(BodyMissing)
    else
      match Requested(body)
      case Array(xs) => Done(Payload(agentId, Array(Slice(xs, -(HISTORY as int)))))
      case Str(s) => Done(Payload(agentId, Str(Slice(s, -(HISTORY as int)))))
      case _ => Threw(NotSliceable)
  }

  /** The JSON body of a response from the completions API. */
  datatype Body = Parsed(value: Raw) | Malformed

  /** How the `fetch` to the completions API turned out. */
  datatype Reply = Unreachable(message: string) | Replied(status: nat, data: Body)

  datatype Response = Response(status: nat, body: Raw)

  function ErrorBody(message: string): Raw
  {
    Object([Field("error", Str(message))])
  }

  function SuccessBody(): Raw
  {
    Object([Field("success", Bool(true))])
  }

  const STATUS_PREFIX := "Mistral API responded with status: "

  /** The message of the error thrown for a non-2xx reply. */
  function StatusError(status: nat): (e: string)
    ensures |e| > |STATUS_PREFIX| && e[..|STATUS_PREFIX|] == STATUS_PREFIX
  {
    STATUS_PREFIX + NatToString(status)
  }

  /** `{ response: data.response }` for a non-null `data`; an absent member is dropped. */
  function Answer(data: Raw): (b: Raw)
    requires !data.Null?
    ensures b.Object? && |b.fields| <= 1
    ensures Prop(data, "response").Some? ==> b.fields == [Field("response", Prop(data, "response").value)]
    ensures Prop(data, "response").None? ==> b.fields == []
  {
    match Prop(data, "response")
    case Some(v) => Object([Field("response", v)])
    case None => Object([])
  }

  /** When `/chat` answers with status 200: every step up to `data.response` succeeded. */
  predicate ChatSucceeds(body: Raw, agentId: Option<string>, call: Payload -> Reply)
  {
    var p := BuildPayload(body, agentId);
    p.Done? && call(p.value).Replied? && 200 <= call(p.value).status <= 299
    && call(p.value).data.Parsed? && !call(p.value).data.value.Null?
  }

  /**
   * The `/chat` route. `agentId` is the configured agent, `call` performs the
   * API request and `engine` gives the message of each engine error.
   */
  function Chat(body: Raw, agentId: Option<string>, call: Payload -> Reply,
                engine: Fault -> string): (res: Response)
    ensures res.status == 200 || res.status == 500
    ensures res.status == 200 <==> ChatSucceeds(body, agentId, call)
    ensures res.status == 500 ==> exists e :: res.body == ErrorBody(e)
    ensures res.status == 200 ==>
              var data := call(BuildPayload(body, agentId).value).data.value;
              res.body == Answer(data)
    ensures BuildPayload(body, agentId).Threw? ==>
              res == Response(500, ErrorBody(engine(BuildPayload(body, agentId).fault)))
    ensures BuildPayload(body, agentId).Done? ==>
              match call(BuildPayload(body, agentId).value)
              case Unreachable(m) => res == Response(500, ErrorBody(m))
              case Replied(status, data) =>
                if !(200 <= status <= 299) then res == Response(500, ErrorBody(StatusError(status)))
                else if data.Malformed? then res == Response(500, ErrorBody(engine(ReplyNotJson)))
                else if data.value.Null? then res == Response(500, ErrorBody(engine(DataMissing)))
                else res == Response(200, Answer(data.value))
  {
    match BuildPayload(body, agentId)
    case Threw(fault) => Response(500, ErrorBody(engine(fault)))
    case Done(payload) =>
      match call(payload)
      case Unreachable(message) => Response(500, ErrorBody(message))
      case Replied(status, data) =>
        if !(200 <= status <= 299) then Response(500, ErrorBody(StatusError(status)))
        else
          match data
          case Malformed => Response(500, ErrorBody(engine(ReplyNotJson)))
          case Parsed(v) =>
            if v.Null? then Response(500, ErrorBody(engine(DataMissing)))
            else Response(200, Answer(v))
  }

  const MESSAGE_REQUIRED := "System message is required"
  const SET_FAILED := "Failed to set system message"

  /** The `/set-system-message` route: it checks the message and keeps nothing. */
  function SetSystemMessage(body: Raw): (res: Response)
    ensures res.status == 200 || res.status == 400 || res.status == 500
    ensures res.status == 500 <==> body.Null?
    ensures res.status == 500 ==> res.body == ErrorBody(SET_FAILED)
    ensures res.status == 200 <==> Prop(body, "message").Some? && Truthy(Prop(body, "message").value)
    ensures res.status == 200 ==> res.body == SuccessBody()
    ensures res.status == 400 ==> res.body == ErrorBody(MESSAGE_REQUIRED)
  {
    if body.Null? then Response(500, ErrorBody(SET_FAILED))
    else
      match Prop(body, "message")
      case Some(v) =>
        if Truthy(v) then Response(200, SuccessBody()) else Response(400, ErrorBody(MESSAGE_REQUIRED))
      case None => Response(400, ErrorBody(MESSAGE_REQUIRED))
  }

  /** The `/clear-history` route: the server holds no history, so it only acknowledges. */
  function ClearHistory(): (res: Response)
    ensures res.status == 200 && res.body == SuccessBody()
  {
    Response(200, SuccessBody())
  }

  // ------------------------------------------------------------- properties

  /** The status in the error message reads back as the status the API sent. */
  lemma StatusErrorNamesStatus(status: nat)
    ensures var e := StatusError(status);
            DigitsValue(e[|STATUS_PREFIX|..]) == status
  {
    var e := StatusError(status);
    assert e[|STATUS_PREFIX|..] == NatToString(status);
    NatToStringRoundTrip(status);
  }

  /**
   * The page posts only `{ message }`, so the API sees no history: the
   * window it is given is always empty.
   */
  lemma PagePostsNoHistory(text: string, agentId: Option<string>)
    ensures BuildPayload(Object([Field("message", Str(text))]), agentId)
            == Done(Payload(agentId, Array([])))
  {
    assert |"message"| != |"messages"|;
    assert Get([Field("message", Str(text))], "messages").None?;
  }

  /** At most `HISTORY` messages are forwarded, the newest of those posted, in order. */
  lemma ForwardsNewest(xs: seq<Raw>, agentId: Option<string>)
    ensures var p := BuildPayload(Object([Field("messages", Array(xs))]), agentId);
            && p.Done? && p.value.messages.Array?
            && |p.value.messages.items| == Min(HISTORY, |xs|)
            && (forall i :: 0 <= i < |p.value.messages.items| ==>
                  p.value.messages.items[i] == xs[|xs| - |p.value.messages.items| + i])
  {
    assert Requested(Object([Field("messages", Array(xs))])) == Array(xs);
  }
}
