/**
 * What `MessageProcessHandler.process_message` promises, stated over the
 * functional model `Process`: the order of the checks, the shape of the two
 * envelopes, what each action answers, who receives it, and when the
 * database changes.
 */
module HandlerProperties {
  import opened Wrappers
  import opened PyText
  import opened ChatStore
  import opened Envelopes
  import opened MessageHandler

  /** The request passed `_validate_message` and names `action`. */
  predicate ValidatedAs(req: Request, action: string) {
    Validate(req).None? && req.action == Some(action)
  }

  /** The error envelope for `f`, with the database left as it was. */
  function Fails(db: DbState, req: Request, f: Fault): Step {
    Step(Ok(ErrorResponse(req, FaultText(f))), db)
  }

  /** The `room_messages` list of a `select_room` answer, empty for any other outcome. */
  function ReturnedMessages(out: Result<Envelope, Fault>): seq<ChatMessage> {
    if out.Ok? && "room_messages" in out.value.response && out.value.response["room_messages"].MessageList?
    then out.value.response["room_messages"].items
    else []
  }

  // ---------------------------------------------------------------------
  // from the `try` block to the returned envelope

  /** An exception from the `try` block becomes the error envelope carrying its text. */
  lemma ProcessRaised(db: DbState, req: Request)
    requires Handle(db, req).Err?
    ensures Process(db, Dict(req)) == Fails(db, req, Handle(db, req).error)
  {
  }

  /** A handler's envelope is returned as it is, with the database the handler left. */
  lemma ProcessHandled(db: DbState, req: Request)
    requires Handle(db, req).Ok?
    ensures Process(db, Dict(req)) == Step(Ok(Handle(db, req).value.reply), Handle(db, req).value.db)
  {
  }

  /**
   * `h` is a success answer to `req` on `db`: status 'success', the echoed
   * uuid and action, an audience only for `new_message`, session data only
   * for `authenticate`, and the database changed only by `new_message`.
   */
  ghost predicate SucceedsWith(db: DbState, req: Request, h: Handled) {
    && h.reply.SuccessEnvelope?
    && "status" in h.reply.response && h.reply.response["status"] == Str("success")
    && "uuid" in h.reply.response && h.reply.response["uuid"] == Echo(req.uuid)
    && "action" in h.reply.response && h.reply.response["action"] == Echo(req.action)
    && (h.reply.sendTo.Some? <==> req.action == Some("new_message"))
    && (h.reply.sessionData.Some? <==> req.action == Some("authenticate"))
    && (req.action != Some("new_message") ==> h.db == db)
  }

  /**
   * Every handler that returns normally returns a success envelope for a validated
   * request; only `new_message` touches the database, and only it addresses an audience.
   */
  lemma HandledIsSuccess(db: DbState, req: Request)
    requires Handle(db, req).Ok?
    ensures Validate(req).None?
    ensures SucceedsWith(db, req, Handle(db, req).value)
  {
    var action := req.action.value;
    if action == "authenticate" {
      AuthenticateSucceeds(db, req);
    } else if action == "select_room" {
      SelectRoomSucceeds(db, req);
    } else {
      NewMessageSucceeds(db, req);
    }
  }

  lemma AuthenticateSucceeds(db: DbState, req: Request)
    requires Handle(db, req).Ok? && req.action == Some("authenticate")
    ensures Validate(req).None? && SucceedsWith(db, req, Handle(db, req).value)
  {
    assert Handle(db, req) == KeepDb(ProcessAuthenticate(db, req), db);
    var env := ProcessAuthenticate(db, req).value;
    assert env == SuccessResponse(req, map[], None, env.sessionData);
  }

  lemma SelectRoomSucceeds(db: DbState, req: Request)
    requires Handle(db, req).Ok? && req.action == Some("select_room")
    ensures Validate(req).None? && SucceedsWith(db, req, Handle(db, req).value)
  {
    assert Handle(db, req) == KeepDb(ProcessSelectRoom(db, req), db);
  }

  lemma NewMessageSucceeds(db: DbState, req: Request)
    requires Handle(db, req).Ok? && req.action == Some("new_message")
    ensures Validate(req).None? && SucceedsWith(db, req, Handle(db, req).value)
  {
    assert Handle(db, req) == NewMessageOutcome(db, req);
  }

  // ---------------------------------------------------------------------
  // process_message never raises for a dict, and errors are exception texts

  /** Only a message that is not a dict can make `process_message` raise. */
  lemma NeverRaisesOnDict(db: DbState, inc: Incoming)
    ensures Process(db, inc).out.Err? <==> inc.NotADict?
    ensures inc.NotADict? ==> Process(db, inc) == Step(Err(NoAttribute(inc.typeName, "get")), db)
  {
  }

  /**
   * A dict message yields an error envelope exactly when validation or the
   * handler raised; the envelope then carries that exception's text, echoes
   * `uuid` and `action`, and the database is unchanged.
   */
  lemma ErrorEnvelopeCarriesException(db: DbState, req: Request, env: Envelope)
    requires Process(db, Dict(req)).out == Ok(env)
    ensures env.ErrorEnvelope? <==> Handle(db, req).Err?
    ensures env.ErrorEnvelope? ==> Process(db, Dict(req)) == Fails(db, req, Handle(db, req).error)
  {
    if Handle(db, req).Ok? {
      HandledIsSuccess(db, req);
    }
  }

  /** A success envelope answers a request that passed validation, and echoes its `uuid` and `action`. */
  lemma SuccessEnvelopeShape(db: DbState, req: Request, env: Envelope)
    requires Process(db, Dict(req)).out == Ok(env) && env.SuccessEnvelope?
    ensures Validate(req).None?
    ensures env.Type() == SuccessResponseType
    ensures env.response["status"] == Str("success")
    ensures env.response["uuid"] == Str(req.uuid.value) && req.uuid.value != ""
    ensures env.response["action"] == Str(req.action.value) && req.action.value in Actions
  {
    ErrorEnvelopeCarriesException(db, req, env);
    HandledIsSuccess(db, req);
  }

  // ---------------------------------------------------------------------
  // validation order

  /** Missing or empty `uuid`/`action` is reported before anything else is looked at. */
  lemma MalformedFirst(db: DbState, req: Request)
    requires !RequiredKeysPresent(req)
    ensures Process(db, Dict(req)) == Fails(db, req, InvalidMessageFormat)
  {
    assert Handle(db, req) == Err(InvalidMessageFormat);
    ProcessRaised(db, req);
  }

  /** Then an action outside `ACTIONS`, whatever the session holds. */
  lemma UnknownActionSecond(db: DbState, req: Request)
    requires RequiredKeysPresent(req) && req.action.value !in Actions
    ensures Process(db, Dict(req)) == Fails(db, req, InvalidPayload)
  {
    assert Handle(db, req) == Err(InvalidPayload);
    ProcessRaised(db, req);
  }

  /** Then a non-`authenticate` action without a truthy `session_data.user_pk`. */
  lemma AuthenticationRequiredThird(db: DbState, req: Request)
    requires RequiredKeysPresent(req) && req.action.value in Actions && req.action.value != "authenticate"
    requires SessionUser(req).None?
    ensures req.session.SessionNotDict? ==> Process(db, Dict(req)) == Fails(db, req, NoAttribute(req.session.typeName, "get"))
    ensures !req.session.SessionNotDict? ==> Process(db, Dict(req)) == Fails(db, req, AuthenticationRequired)
  {
    if req.session.SessionNotDict? {
      assert Handle(db, req) == Err(NoAttribute(req.session.typeName, "get"));
    } else {
      assert Handle(db, req) == Err(AuthenticationRequired);
    }
    ProcessRaised(db, req);
  }

  // ---------------------------------------------------------------------
  // authenticate

  /** A token key no user owns is rejected; the session is never consulted. */
  lemma AuthenticateUnknownToken(db: DbState, req: Request)
    requires RequiredKeysPresent(req) && req.action == Some("authenticate")
    requires req.token.Some? && req.token.value !in db.tokens
    ensures Process(db, Dict(req)) == Fails(db, req, InvalidToken)
  {
    assert Handle(db, req) == KeepDb(ProcessAuthenticate(db, req), db);
    ProcessRaised(db, req);
  }

  /**
   * Without a token the lookup matches every user who has none: with no
   * such user the answer is `invalid_token`, with several it carries the
   * `MultipleObjectsReturned` text and its count. Nothing changes.
   */
  lemma AuthenticateWithoutToken(db: DbState, req: Request)
    requires RequiredKeysPresent(req) && req.action == Some("authenticate")
    requires req.token.None?
    ensures Tokenless(db) == {} ==> Process(db, Dict(req)) == Fails(db, req, InvalidToken)
    ensures |Tokenless(db)| >= 2 ==> Process(db, Dict(req)) == Fails(db, req, MultipleUsers(|Tokenless(db)|))
  {
    assert Handle(db, req) == KeepDb(ProcessAuthenticate(db, req), db);
    if ProcessAuthenticate(db, req).Err? {
      ProcessRaised(db, req);
    }
  }

  /** Without a token, the one user who has no token becomes the session user. */
  lemma AuthenticateTokenlessUser(db: DbState, req: Request, u: UserPk)
    requires RequiredKeysPresent(req) && req.action == Some("authenticate")
    requires req.token.None? && Tokenless(db) == {u}
    ensures Process(db, Dict(req)) == Step(Ok(SuccessResponse(req, map[], None, Some(SessionUpdate(u)))), db)
  {
    assert |Tokenless(db)| == 1;
    assert Handle(db, req) == KeepDb(ProcessAuthenticate(db, req), db);
    ProcessHandled(db, req);
  }

  /**
   * A known token makes its owner the session user, whatever session the
   * request carried; the answer holds nothing but uuid/action/status and
   * addresses nobody else.
   */
  lemma AuthenticateKnownToken(db: DbState, req: Request)
    requires RequiredKeysPresent(req) && req.action == Some("authenticate")
    requires req.token.Some? && req.token.value in db.tokens
    ensures Process(db, Dict(req))
         == Step(Ok(SuccessResponse(req, map[], None, Some(SessionUpdate(db.tokens[req.token.value])))), db)
  {
    assert Handle(db, req) == KeepDb(ProcessAuthenticate(db, req), db);
    ProcessHandled(db, req);
  }

  // ---------------------------------------------------------------------
  // room lookup

  /**
   * For `select_room` and `new_message`, a room that is missing, unknown or
   * not the session user's gives `invalid_room_id`, before the text is looked at.
   */
  lemma RoomNotVisible(db: DbState, req: Request, action: string)
    requires action == "select_room" || action == "new_message"
    requires ValidatedAs(req, action)
    requires req.room.None? || !Visible(db, req.room.value, SessionUser(req).value)
    ensures Process(db, Dict(req)) == Fails(db, req, InvalidRoomId)
  {
    assert GetRoom(db, req, SessionUser(req).value) == Err(InvalidRoomId);
    if action == "select_room" {
      assert Handle(db, req) == KeepDb(ProcessSelectRoom(db, req), db);
      assert ProcessSelectRoom(db, req) == Err(InvalidRoomId);
    } else {
      assert Handle(db, req) == NewMessageOutcome(db, req);
      assert NewMessageOutcome(db, req) == Err(InvalidRoomId);
    }
    ProcessRaised(db, req);
  }

  // ---------------------------------------------------------------------
  // select_room

  /**
   * `select_room` on a visible room answers only the requester with the room
   * and the last `min(20, n)` of its `n` messages, oldest first, and changes nothing.
   */
  lemma SelectRoomRecent(db: DbState, req: Request)
    requires ValidatedAs(req, "select_room")
    requires req.room.Some? && Visible(db, req.room.value, SessionUser(req).value)
    ensures var room := req.room.value;
      var history := RoomMessages(db.messages, room);
      var payload := map["room" := RoomHex(room), "room_messages" := MessageList(history[|history| - Min(RecentLimit, |history|)..])];
      Process(db, Dict(req)) == Step(Ok(SuccessResponse(req, payload, None, None)), db)
  {
    var room := req.room.value;
    var history := RoomMessages(db.messages, room);
    var r := Recent(db.messages, room);
    assert r == history[|history| - |r|..];
    assert Handle(db, req) == KeepDb(ProcessSelectRoom(db, req), db);
    ProcessHandled(db, req);
  }

  // ---------------------------------------------------------------------
  // new_message

  /** Absent, empty or whitespace-only text on a visible room gives `empty_text` and stores nothing. */
  lemma NewMessageBlankText(db: DbState, req: Request)
    requires ValidatedAs(req, "new_message")
    requires req.room.Some? && Visible(db, req.room.value, SessionUser(req).value)
    requires req.text.NoText? || (req.text.Text? && AllSpace(req.text.s))
    ensures Process(db, Dict(req)) == Fails(db, req, EmptyText)
  {
    if req.text.Text? {
      StripEmptyIff(req.text.s);
    }
    assert Handle(db, req) == NewMessageOutcome(db, req);
    assert NewMessageOutcome(db, req) == Err(EmptyText);
    ProcessRaised(db, req);
  }

  /** A `text` that is not a string makes `.strip()` raise; nothing is stored. */
  lemma NewMessageTextNotString(db: DbState, req: Request)
    requires ValidatedAs(req, "new_message")
    requires req.room.Some? && Visible(db, req.room.value, SessionUser(req).value)
    requires req.text.TextNotStr?
    ensures Process(db, Dict(req)) == Fails(db, req, NoAttribute(req.text.typeName, "strip"))
  {
    assert Handle(db, req) == NewMessageOutcome(db, req);
    assert NewMessageOutcome(db, req) == Err(NoAttribute(req.text.typeName, "strip"));
    ProcessRaised(db, req);
  }

  /**
   * A non-blank text on a visible room appends exactly one message, authored
   * by the session user with the text as sent, and addresses every room member.
   */
  lemma NewMessageAppends(db: DbState, req: Request)
    requires ValidatedAs(req, "new_message")
    requires req.room.Some? && Visible(db, req.room.value, SessionUser(req).value)
    requires req.text.Text? && !AllSpace(req.text.s)
    ensures var room := req.room.value;
      var m := ChatMessage(room, SessionUser(req).value, req.text.s);
      var payload := map["room" := RoomHex(room), "message" := MessageItem(m)];
      Process(db, Dict(req))
        == Step(Ok(SuccessResponse(req, payload, Some(db.rooms[room]), None)), db.(messages := db.messages + [m]))
  {
    StripEmptyIff(req.text.s);
    assert Handle(db, req) == NewMessageOutcome(db, req);
    ProcessHandled(db, req);
  }

  /** The `room_messages` that `select_room` returns on a visible room: the last `min(20, n)`, oldest first. */
  lemma SelectRoomReturns(db: DbState, req: Request)
    requires ValidatedAs(req, "select_room")
    requires req.room.Some? && Visible(db, req.room.value, SessionUser(req).value)
    ensures var history := RoomMessages(db.messages, req.room.value);
      ReturnedMessages(Process(db, Dict(req)).out) == history[|history| - Min(RecentLimit, |history|)..]
  {
    var room := req.room.value;
    var history := RoomMessages(db.messages, room);
    var payload := map["room" := RoomHex(room), "room_messages" := MessageList(history[|history| - Min(RecentLimit, |history|)..])];
    var env := SuccessResponse(req, payload, None, None);
    assert Process(db, Dict(req)).out == Ok(env) by {
      SelectRoomRecent(db, req);
    }
    assert "room_messages" in env.response && env.response["room_messages"] == payload["room_messages"];
  }

  /** A message just posted is the newest one `select_room` returns to any member of that room. */
  lemma NewMessageThenSelectRoom(db: DbState, post: Request, select: Request)
    requires ValidatedAs(post, "new_message") && ValidatedAs(select, "select_room")
    requires post.room.Some? && Visible(db, post.room.value, SessionUser(post).value)
    requires post.text.Text? && !AllSpace(post.text.s)
    requires select.room == post.room && SessionUser(select).value in db.rooms[post.room.value]
    ensures var after := Process(db, Dict(post)).db;
      var items := ReturnedMessages(Process(after, Dict(select)).out);
      && |items| >= 1
      && items[|items| - 1] == ChatMessage(post.room.value, SessionUser(post).value, post.text.s)
  {
    var room := post.room.value;
    var m := ChatMessage(room, SessionUser(post).value, post.text.s);
    var after := db.(messages := db.messages + [m]);
    NewMessageAppends(db, post);
    SelectRoomReturns(after, select);
    NewestIsLast(db.messages, m);
  }

  // ---------------------------------------------------------------------
  // audience and database effects

  /**
   * Only `new_message` addresses an audience (`send_to`), and that audience
   * is the room's member set, author included; every other success answers
   * just the requester. Only `authenticate` sets `session_data`.
   */
  lemma Audience(db: DbState, req: Request, env: Envelope)
    requires Process(db, Dict(req)).out == Ok(env) && env.SuccessEnvelope?
    ensures env.sendTo.Some? <==> req.action == Some("new_message")
    ensures env.sendTo.Some? ==>
      && req.room.Some? && req.room.value in db.rooms
      && env.sendTo.value == db.rooms[req.room.value]
      && SessionUser(req).Some? && SessionUser(req).value in env.sendTo.value
    ensures env.sessionData.Some? <==> req.action == Some("authenticate")
  {
    ErrorEnvelopeCarriesException(db, req, env);
    HandledIsSuccess(db, req);
    if req.action == Some("new_message") {
      assert Handle(db, req) == NewMessageOutcome(db, req);
    }
  }

  /**
   * The database changes only by a successful `new_message`, and then only
   * by one message appended at the end, from the session user to the named room.
   */
  lemma StoreChangesOnlyByNewMessage(db: DbState, inc: Incoming)
    ensures var s := Process(db, inc);
      && s.db.users == db.users && s.db.tokens == db.tokens && s.db.rooms == db.rooms
      && (s.db.messages == db.messages
          || (&& inc.Dict? && inc.req.action == Some("new_message")
              && s.out.Ok? && s.out.value.SuccessEnvelope?
              && s.db.messages == db.messages + [ChatMessage(inc.req.room.value, SessionUser(inc.req).value, inc.req.text.s)]))
  {
    if inc.Dict? {
      var req := inc.req;
      if Handle(db, req).Err? {
        ProcessRaised(db, req);
      } else {
        ProcessHandled(db, req);
        HandledIsSuccess(db, req);
        if req.action == Some("new_message") {
          assert Handle(db, req) == NewMessageOutcome(db, req);
        }
      }
    }
  }

  /** Processing keeps the database's foreign keys intact. */
  lemma ProcessKeepsIntegrity(db: DbState, inc: Incoming)
    requires Valid(db)
    ensures Valid(Process(db, inc).db)
  {
    StoreChangesOnlyByNewMessage(db, inc);
    var s := Process(db, inc);
    if s.db.messages == db.messages {
      assert s.db == db;
    } else {
      var req := inc.req;
      Audience(db, req, s.out.value);
      ValidAppend(db, ChatMessage(req.room.value, SessionUser(req).value, req.text.s));
    }
  }

  /** A message from a member of an existing room keeps the foreign keys intact. */
  lemma ValidAppend(db: DbState, m: ChatMessage)
    requires Valid(db) && m.room in db.rooms && m.author in db.rooms[m.room]
    ensures Valid(db.(messages := db.messages + [m]))
  {
  }
}
