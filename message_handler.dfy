/**
 * `MessageProcessHandler`: validates a request dict, dispatches it by its
 * `action` to one of three handlers, and turns every exception a handler
 * raises into an error envelope.
 */
module MessageHandler {
  import opened Wrappers
  import opened PyText
  import opened ChatStore
  import opened Envelopes

  /** `REQUIRED_KEYS`. */
  const RequiredKeys: seq<string> := ["action", "uuid"]

  /** `ACTIONS`: the names `process_<action>` dispatches to. */
  const Actions: seq<string> := ["authenticate", "select_room", "new_message"]

  /** An exception raised while processing a message. */
  datatype Fault =
    | InvalidMessageFormat
    | InvalidPayload
    | InvalidToken
    | AuthenticationRequired
    | InvalidRoomId
    | EmptyText
    | NoAttribute(typeName: string, attribute: string)  // Python's AttributeError
    | MultipleUsers(count: nat)                         // `User.MultipleObjectsReturned` from `get()`

  /**
   * `str(e)` of a raised exception: the `error_messages` entries, Python's
   * AttributeError text, or Django's `MultipleObjectsReturned` text for the
   * default `User` model.
   */
  function FaultText(f: Fault): string {
    match f
    case InvalidMessageFormat =>
      "Some of required keys are absent or empty. Required keys: " + ListRepr(RequiredKeys)
    case InvalidPayload =>
      "Invalid message action. Next actions are allowed: " + ListRepr(Actions)
    case InvalidToken => "Invalid authentication token"
    case AuthenticationRequired => "Authentication required before sending any other messages"
    case InvalidRoomId => "Invalid room id"
    case EmptyText => "Message text can't be empty"
    case NoAttribute(t, a) => AttributeErrorText(t, a)
    case MultipleUsers(n) => "get() returned more than one User -- it returned " + Decimal(n) + "!"
  }

  /** `invalid_message_format`'s text: the required keys quoted, in order, separated by `, `. */
  lemma InvalidMessageFormatText()
    ensures FaultText(InvalidMessageFormat)
         == "Some of required keys are absent or empty. Required keys: " + "['" + "action" + "', '" + "uuid" + "']"
  {
    ListReprTwo("action", "uuid");
  }

  /** `invalid_payload`'s text: the three actions quoted, in order, separated by `, `. */
  lemma InvalidPayloadText()
    ensures FaultText(InvalidPayload)
         == "Invalid message action. Next actions are allowed: "
          + "['" + "authenticate" + "', '" + "select_room" + "', '" + "new_message" + "']"
  {
    ListReprThree("authenticate", "select_room", "new_message");
  }

  /** Python truthiness of a string value read with `msg.get`. */
  predicate Truthy(v: Option<string>) {
    v.Some? && v.value != ""
  }

  /** `all(msg.get(key) for key in REQUIRED_KEYS)`. */
  predicate RequiredKeysPresent(req: Request) {
    Truthy(req.action) && Truthy(req.uuid)
  }

  /** `msg['session_data']['user_pk']` when it is set and truthy. */
  function SessionUser(req: Request): (u: Option<UserPk>)
    ensures u.Some? <==> req.session.SessionDict? && req.session.userPk.Some? && req.session.userPk.value != 0
    ensures u.Some? ==> u.value == req.session.userPk.value
  {
    match req.session
    case SessionDict(Some(pk)) => if pk != 0 then Some(pk) else None
    case _ => None
  }

  /**
   * `_validate_message`: `None` when the request passes, otherwise the first
   * check that fails, in the order keys, action, authentication.
   */
  function Validate(req: Request): (r: Option<Fault>)
    ensures r == Some(InvalidMessageFormat) <==> !RequiredKeysPresent(req)
    ensures r == Some(InvalidPayload) <==> RequiredKeysPresent(req) && req.action.value !in Actions
    ensures r == None <==>
      && RequiredKeysPresent(req) && req.action.value in Actions
      && (req.action.value == "authenticate" || SessionUser(req).Some?)
    ensures r == Some(AuthenticationRequired) <==>
      && RequiredKeysPresent(req) && req.action.value in Actions && req.action.value != "authenticate"
      && !req.session.SessionNotDict? && SessionUser(req).None?
    ensures r.Some? && r.value.NoAttribute? ==>
      req.session.SessionNotDict? && r.value == NoAttribute(req.session.typeName, "get")
  {
    if !RequiredKeysPresent(req) then Some(InvalidMessageFormat)
    else if req.action.value !in Actions then Some(InvalidPayload)
    else if req.action.value == "authenticate" then None
    else
      match req.session
      case NoSession => Some(AuthenticationRequired)
      case SessionNotDict(t) => Some(NoAttribute(t, "get"))
      case SessionDict(_) => if SessionUser(req).Some? then None else Some(AuthenticationRequired)
  }

  /**
   * `_get_room`: `ChatRoom.objects.get(pk=msg.get('room'), users__pk=user)`;
   * a room that does not exist and one `user` is not a member of fail alike.
   */
  function GetRoom(db: DbState, req: Request, user: UserPk): (r: Result<RoomId, Fault>)
    ensures r.Ok? <==> req.room.Some? && Visible(db, req.room.value, user)
    ensures r.Ok? ==> r.value == req.room.value
    ensures r.Err? ==> r.error == InvalidRoomId
  {
    match req.room
    case Some(room) => if Visible(db, room, user) then Ok(room) else Err(InvalidRoomId)
    case None => Err(InvalidRoomId)
  }

  /**
   * `process_authenticate`: `User.objects.get(auth_token__key=msg.get('token'))`.
   * A token key names at most one user. No token at all is an `IS NULL`
   * lookup that matches every user without a token: one such user is
   * authenticated, none gives `invalid_token`, several raise
   * `MultipleObjectsReturned`, which nothing here catches.
   */
  function ProcessAuthenticate(db: DbState, req: Request): (r: Result<Envelope, Fault>)
    ensures r.Ok? <==>
      || (req.token.Some? && req.token.value in db.tokens)
      || (req.token.None? && |Tokenless(db)| == 1)
    ensures r.Ok? ==>
      && r.value.SuccessEnvelope? && r.value.sessionData.Some?
      && r.value == SuccessResponse(req, map[], None, r.value.sessionData)
      && (req.token.Some? ==> db.tokens[req.token.value] == r.value.sessionData.value.userPk)
      && (req.token.None? ==> Tokenless(db) == {r.value.sessionData.value.userPk})
    ensures r == Err(InvalidToken) <==>
      || (req.token.Some? && req.token.value !in db.tokens)
      || (req.token.None? && Tokenless(db) == {})
    ensures r.Err? && r.error != InvalidToken ==>
      req.token.None? && |Tokenless(db)| >= 2 && r.error == MultipleUsers(|Tokenless(db)|)
  {
    match req.token
    case Some(key) =>
      if key in db.tokens then Ok(SuccessResponse(req, map[], None, Some(SessionUpdate(db.tokens[key]))))
      else Err(InvalidToken)
    case None =>
      var owners := Tokenless(db);
      if |owners| == 0 then Err(InvalidToken)
      else if |owners| == 1 then
        Ok(SuccessResponse(req, map[], None, Some(SessionUpdate(OnlyElement(owners)))))
      else Err(MultipleUsers(|owners|))
  }

  /** The element of a one-element set. */
  function OnlyElement<T>(s: set<T>): (x: T)
    requires |s| == 1
    ensures s == {x}
  {
    SingletonSet(s);
    var x :| x in s;
    x
  }

  /** A set of one element is that element's singleton. */
  lemma SingletonSet<T>(s: set<T>)
    requires |s| == 1
    ensures exists x :: x in s
    ensures forall x, y :: x in s && y in s ==> x == y
    ensures forall x :: x in s ==> s == {x}
  {
    assert s != {};
    var w :| w in s;
    forall x | x in s
      ensures s == {x}
    {
      assert |s - {x}| == 0;
    }
  }

  /** `process_select_room`: the room's id and its most recent messages, oldest first. */
  function ProcessSelectRoom(db: DbState, req: Request): (r: Result<Envelope, Fault>)
    requires SessionUser(req).Some?
    ensures r.Ok? <==> req.room.Some? && Visible(db, req.room.value, SessionUser(req).value)
    ensures r.Err? ==> r.error == InvalidRoomId
    ensures r.Ok? ==>
      var room := req.room.value;
      var history := RoomMessages(db.messages, room);
      var recent := history[|history| - Min(RecentLimit, |history|)..];
      r.value == SuccessResponse(req, map["room" := RoomHex(room), "room_messages" := MessageList(recent)], None, None)
  {
    match GetRoom(db, req, SessionUser(req).value)
    case Err(f) => Err(f)
    case Ok(room) =>
      var history := RoomMessages(db.messages, room);
      var r := Recent(db.messages, room);
      assert r == history[|history| - |r|..];
      var payload := map["room" := RoomHex(room), "room_messages" := MessageList(r)];
      Ok(SuccessResponse(req, payload, None, None))
  }

  /** A handler's returned envelope together with the database after it ran. */
  datatype Handled = Handled(reply: Envelope, db: DbState)

  /**
   * What `process_new_message` does: the room check, then the text check,
   * then one new message and a response addressed to every room member.
   */
  function NewMessageOutcome(db: DbState, req: Request): (r: Result<Handled, Fault>)
    requires SessionUser(req).Some?
    ensures var user := SessionUser(req).value;
      r == Err(InvalidRoomId) <==> !(req.room.Some? && Visible(db, req.room.value, user))
    ensures var visible := req.room.Some? && Visible(db, req.room.value, SessionUser(req).value);
      && (r == Err(EmptyText) <==> visible && (req.text.NoText? || (req.text.Text? && AllSpace(req.text.s))))
      && (r.Ok? <==> visible && req.text.Text? && !AllSpace(req.text.s))
      && (r.Err? && r.error != InvalidRoomId && r.error != EmptyText ==>
            visible && req.text.TextNotStr? && r.error == NoAttribute(req.text.typeName, "strip"))
    ensures r.Ok? ==>
      var room := req.room.value;
      var m := ChatMessage(room, SessionUser(req).value, req.text.s);
      && r.value.db == db.(messages := db.messages + [m])
      && r.value.reply == SuccessResponse(req, map["room" := RoomHex(room), "message" := MessageItem(m)], Some(db.rooms[room]), None)
  {
    var user := SessionUser(req).value;
    match GetRoom(db, req, user)
    case Err(f) => Err(f)
    case Ok(room) =>
      var sendTo := db.rooms[room];
      match req.text
      case NoText => Err(EmptyText)
      case TextNotStr(t) => Err(NoAttribute(t, "strip"))
      case Text(s) =>
        StripEmptyIff(s);
        if Strip(s) == [] then Err(EmptyText)
        else
          var m := ChatMessage(room, user, s);
          var payload := map["room" := RoomHex(room), "message" := MessageItem(m)];
          Ok(Handled(SuccessResponse(req, payload, Some(sendTo), None), db.(messages := db.messages + [m])))
  }

  /** `process_new_message` against the store. */
  method ProcessNewMessage(store: Store, req: Request) returns (r: Result<Envelope, Fault>)
    requires Valid(store.State()) && SessionUser(req).Some?
    modifies store
    ensures Valid(store.State())
    ensures match NewMessageOutcome(old(store.State()), req)
      case Ok(h) => r == Ok(h.reply) && store.State() == h.db
      case Err(f) => r == Err(f) && store.State() == old(store.State())
  {
    var user := SessionUser(req).value;
    var room := GetRoom(store.State(), req, user);
    if room.Err? {
      return Err(room.error);
    }
    var sendTo := store.rooms[room.value];
    var text: string;
    match req.text {
      case NoText => return Err(EmptyText);
      case TextNotStr(t) => return Err(NoAttribute(t, "strip"));
      case Text(s) => text := s;
    }
    if Strip(text) == [] {
      return Err(EmptyText);
    }
    var m := store.CreateMessage(user, text, room.value);
    r := Ok(SuccessResponse(req, map["room" := RoomHex(room.value), "message" := MessageItem(m)], Some(sendTo), None));
  }

  function KeepDb(r: Result<Envelope, Fault>, db: DbState): Result<Handled, Fault> {
    match r
    case Ok(env) => Ok(Handled(env, db))
    case Err(f) => Err(f)
  }

  /** `getattr(self, 'process_%s' % msg['action'])(msg)` on a validated request. */
  function Dispatch(db: DbState, req: Request): Result<Handled, Fault>
    requires Validate(req).None?
  {
    var action := req.action.value;
    if action == "authenticate" then KeepDb(ProcessAuthenticate(db, req), db)
    else if action == "select_room" then KeepDb(ProcessSelectRoom(db, req), db)
    else NewMessageOutcome(db, req)
  }

  /** The `try` block of `process_message`: validation, then dispatch. */
  function Handle(db: DbState, req: Request): Result<Handled, Fault> {
    match Validate(req)
    case Some(f) => Err(f)
    case None => Dispatch(db, req)
  }

  /** What `process_message` returns (or raises) and the database afterwards. */
  datatype Step = Step(out: Result<Envelope, Fault>, db: DbState)

  /**
   * `process_message`: every exception from the `try` block becomes an error
   * envelope. A message that is not a dict makes `_error_response` itself
   * raise, so that exception escapes.
   */
  function Process(db: DbState, inc: Incoming): Step {
    match inc
    case NotADict(t) => Step(Err(NoAttribute(t, "get")), db)
    case Dict(req) =>
      match Handle(db, req)
      case Err(f) => Step(Ok(ErrorResponse(req, FaultText(f))), db)
      case Ok(h) => Step(Ok(h.reply), h.db)
  }

  /** `process_message` against the store. */
  method ProcessMessage(store: Store, inc: Incoming) returns (r: Result<Envelope, Fault>)
    requires Valid(store.State())
    modifies store
    ensures Valid(store.State())
    ensures Step(r, store.State()) == Process(old(store.State()), inc)
  {
    if inc.NotADict? {
      return Err(NoAttribute(inc.typeName, "get"));
    }
    var req := inc.req;
    var invalid := Validate(req);
    if invalid.Some? {
      return Ok(ErrorResponse(req, FaultText(invalid.value)));
    }
    var action := req.action.value;
    var handled: Result<Envelope, Fault>;
    if action == "authenticate" {
      handled := ProcessAuthenticate(store.State(), req);
    } else if action == "select_room" {
      handled := ProcessSelectRoom(store.State(), req);
    } else {
      handled := ProcessNewMessage(store, req);
    }
    match handled {
      case Err(f) => r := Ok(ErrorResponse(req, FaultText(f)));
      case Ok(env) => r := Ok(env);
    }
  }
}
