/**
 * The dictionaries the worker exchanges: the request the gateway publishes
 * and the response envelope the handler returns.
 */
module Envelopes {
  import opened Wrappers
  import opened ChatStore

  /** The `session_data` key of a request. */
  datatype SessionField =
    | NoSession                              // key absent: `msg.get('session_data', {})` is `{}`
    | SessionDict(userPk: Option<UserPk>)    // a dict; `user_pk` absent or null is `None`
    | SessionNotDict(typeName: string)       // any other JSON value, named by its Python type

  /** The `text` key of a request. */
  datatype TextField =
    | NoText                                 // key absent: `msg.get('text', '')` is `''`
    | Text(s: string)
    | TextNotStr(typeName: string)           // null, a number, a list, ... named by its Python type

  /**
   * A request dict, key by key. A missing key and a JSON null both read as
   * `None` through `msg.get`, so both are `None` here.
   */
  datatype Request = Request(
    uuid: Option<string>,
    action: Option<string>,
    session: SessionField,
    token: Option<string>,
    room: Option<RoomId>,
    text: TextField)

  /** What the worker decoded from the broker: a dict, or a JSON value of another Python type. */
  datatype Incoming = NotADict(typeName: string) | Dict(req: Request)

  /** The values that occur in a response's `response` dict. */
  datatype Value =
    | Null
    | Str(s: string)
    | RoomHex(room: RoomId)                  // `room.pk.hex`
    | MessageList(items: seq<ChatMessage>)   // `ChatMessageSerializer(..., many=True).data`
    | MessageItem(item: ChatMessage)         // `ChatMessageSerializer(chat_message).data`

  type Body = map<string, Value>

  /** `utils.ERROR_RESPONSE_TYPE` and `utils.SUCCESS_RESPONSE_TYPE`: two distinct tags. */
  datatype ResponseType = ErrorResponseType | SuccessResponseType

  /** `session_data` of a success response: `{'user_pk': userPk}`. */
  datatype SessionUpdate = SessionUpdate(userPk: UserPk)

  /**
   * A response envelope. A success envelope has the keys `type`, `send_to`,
   * `session_data` and `response`; an error envelope has only `type` and
   * `response`.
   */
  datatype Envelope =
    | SuccessEnvelope(sendTo: Option<set<UserPk>>, sessionData: Option<SessionUpdate>, response: Body)
    | ErrorEnvelope(response: Body)
  {
    function Type(): ResponseType {
      if SuccessEnvelope? then SuccessResponseType else ErrorResponseType
    }
  }

  /** `msg.get(key)` for a string-valued key, as stored in a response. */
  function Echo(v: Option<string>): Value {
    match v
    case None => Null
    case Some(s) => Str(s)
  }

  /** `_error_response(msg, e)` with `errorMessage == str(e)`. */
  function ErrorResponse(req: Request, errorMessage: string): (env: Envelope)
    ensures env.ErrorEnvelope? && env.Type() == ErrorResponseType
    ensures env.response.Keys == {"uuid", "action", "error_message", "status"}
    ensures env.response["uuid"] == Echo(req.uuid) && env.response["action"] == Echo(req.action)
    ensures env.response["error_message"] == Str(errorMessage)
    ensures env.response["status"] == Str("error")
  {
    ErrorEnvelope(map[
      "uuid" := Echo(req.uuid),
      "action" := Echo(req.action),
      "error_message" := Str(errorMessage),
      "status" := Str("error")])
  }

  /**
   * `_success_response(msg, payload, send_to, session_data)`: the payload dict
   * updated with `uuid`, `action` and `status`, wrapped in a success envelope.
   */
  function SuccessResponse(req: Request, payload: Body, sendTo: Option<set<UserPk>>,
                           sessionData: Option<SessionUpdate>): (env: Envelope)
    ensures env.SuccessEnvelope? && env.Type() == SuccessResponseType
    ensures env.sendTo == sendTo && env.sessionData == sessionData
    ensures env.response.Keys == payload.Keys + {"uuid", "action", "status"}
    ensures env.response["uuid"] == Echo(req.uuid) && env.response["action"] == Echo(req.action)
    ensures env.response["status"] == Str("success")
    ensures forall k :: k in payload && k !in {"uuid", "action", "status"} ==> env.response[k] == payload[k]
  {
    var response := payload + map["uuid" := Echo(req.uuid), "action" := Echo(req.action), "status" := Str("success")];
    SuccessEnvelope(sendTo, sessionData, response)
  }
}
