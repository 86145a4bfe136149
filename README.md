# Chat worker message handler, modelled in Dafny

This project models `MessageProcessHandler`, the dispatcher that a chat worker
runs on each request it takes from the broker. The request is a dict carrying
a `uuid`, an `action` and action-specific keys. The handler first validates
it: the required keys must be present, the action must be known, and every
action except `authenticate` needs a session user. It then dispatches to
`authenticate`, `select_room` or `new_message`. It returns a success
envelope, or an error envelope that carries the text of whatever exception
was raised.

Modules, one per concern:

- `Wrappers`: `Option` and `Result`.
- `PyText`: the Python string behaviour the handler relies on. This is
  `str.strip()` over Python's whitespace set, the `%s` rendering of a list
  of names, `str()` of a natural number, and the text of an `AttributeError`.
- `ChatStore`: the database the handler sees, in place of the Django ORM.
  - `DbState` is a value holding users, token keys, rooms with member sets,
    and messages in creation order.
  - The `Store` class holds the same tables as fields. Its `CreateMessage`
    method is `ChatMessage.objects.create`, which appends to `messages`.
  - `RoomMessages` and `Recent` are the two message queries.
- `Envelopes`: the request fields the handler reads (`Request`), and what
  arrived from the broker (`Incoming`): a dict, or a JSON value of another
  Python type. It also holds the response envelopes and the two builders
  `_error_response` and `_success_response`.
- `MessageHandler`: the handler itself, as pure functions plus two methods.
  - `Validate`, `GetRoom`, `ProcessAuthenticate` and `ProcessSelectRoom`
    only read the database.
  - `NewMessageOutcome` and `Process` are the functional specifications of
    the two methods.
  - `ProcessNewMessage` and `ProcessMessage` are module-level methods that
    take a `Store` and modify it. Each is proved equal to its specification.
- `HandlerProperties`: lemmas about `Process`. They cover the order of the
  checks, the envelope shapes, each action's answer, the audience, and when
  the database changes.

Python exceptions become `Err(Fault)` values. `FaultText` gives `str(e)`:
- for the handler's own errors, the exact `error_messages` strings;
- for an `AttributeError` (`session_data` or `text` of the wrong type),
  Python's own message;
- for `User.MultipleObjectsReturned`, Django's message with the number of
  matching users.

A message that is not a dict makes `process_message` itself raise. Its
`except` branch calls `msg.get` again inside `_error_response`. The model
keeps this: `Process` returns `Err` for it, and for every dict it returns an
envelope (`NeverRaisesOnDict`).

The response tags `utils.ERROR_RESPONSE_TYPE` and `utils.SUCCESS_RESPONSE_TYPE`
come from a file that is not part of this model. They are two distinct
constructors of `ResponseType`.

`new_message` looks its room up with the same membership-filtered
`_get_room` as `select_room`, so a user can post only to a room they belong to.

`authenticate` looks the user up with `auth_token__key=msg.get('token')`.
Without a `token` key (or with `token: null`) this is Django's `IS NULL`
lookup across the reverse one-to-one. It matches every user who has no auth
token. So with exactly one such user the request authenticates as that user.
With none it gives `invalid_token`. With several it raises
`MultipleObjectsReturned`, and that exception's text goes into the error
envelope. The model keeps all three outcomes (`Tokenless`).

## Model

| member | source | states |
|---|---|---|
| `PyText.Strip` | django_aiohttp_websockets/websockets/core/worker_message_handlers.py:101 | `s.strip()`: the result is `s[i..j]` for some `i <= j` with only whitespace before `i` and after `j`, and it neither starts nor ends with whitespace |
| `PyText.TrimLeft` | django_aiohttp_websockets/websockets/core/worker_message_handlers.py:101 | the result is a suffix of `s`; everything dropped is whitespace; a non-empty result starts with a non-space |
| `PyText.TrimRight` | django_aiohttp_websockets/websockets/core/worker_message_handlers.py:101 | the result is a prefix of `s`; everything dropped is whitespace; a non-empty result ends with a non-space |
| `PyText.StripEmptyIff` | django_aiohttp_websockets/websockets/core/worker_message_handlers.py:101 | `not text.strip()` holds exactly when every character of the text is whitespace |
| `PyText.ListRepr` | django_aiohttp_websockets/websockets/core/worker_message_handlers.py:14-15 | the `%s` rendering of a list is enclosed in brackets |
| `PyText.ListReprTwo` | django_aiohttp_websockets/websockets/core/worker_message_handlers.py:14 | `'%s' % [a, b]` is `['a', 'b']`: both items single-quoted, in order, separated by a comma and a space |
| `PyText.ListReprThree` | django_aiohttp_websockets/websockets/core/worker_message_handlers.py:15 | `'%s' % [a, b, c]` is `['a', 'b', 'c']`: the items single-quoted, in order, separated by a comma and a space |
| `PyText.AttributeErrorText` | django_aiohttp_websockets/websockets/core/worker_message_handlers.py:71 | the `AttributeError` text of `.get` on a non-dict `session_data` or `.strip` on a non-string `text`: the type name and the attribute, each in single quotes, at its two ends |
| `PyText.Decimal` | django_aiohttp_websockets/websockets/core/worker_message_handlers.py:82 | `str(n)` for the count in the `MultipleObjectsReturned` text raised by the lookup: decimal digits, without a leading zero, whose value is `n` |
| `ChatStore.RoomMessages` | django_aiohttp_websockets/websockets/core/worker_message_handlers.py:90 | `room.messages.all()`: only messages of that room, each one from the table, and every message of the room is included |
| `ChatStore.RoomMessagesInOrder` | django_aiohttp_websockets/websockets/core/worker_message_handlers.py:90 | a room's history is the subsequence of the message table at exactly the positions holding that room's messages, in increasing order: each message once, in creation order |
| `ChatStore.NewestIsLast` | django_aiohttp_websockets/websockets/core/worker_message_handlers.py:88-108 | after a message is created in a room, the last `min(20, n)` messages of that room are non-empty and end with it |
| `ChatStore.ReverseTakeReverse` | django_aiohttp_websockets/websockets/core/worker_message_handlers.py:90 | about `Reverse` (`reversed`): taking the first `k` of `reversed(s)` and reversing them again gives the last `k` elements of `s` in their original order |
| `ChatStore.Recent` | django_aiohttp_websockets/websockets/core/worker_message_handlers.py:90 | the newest 20 taken newest-first and then reversed are exactly the last `min(20, n)` messages of the room's history, oldest first |
| `ChatStore.Store.CreateMessage` | django_aiohttp_websockets/websockets/core/worker_message_handlers.py:104-108 | appends one message with the given room, author and text; the other tables are unchanged; referential integrity is kept |
| `Envelopes.ErrorResponse` | django_aiohttp_websockets/websockets/core/worker_message_handlers.py:25-34 | an error envelope with exactly the keys uuid, action, error_message and status; it echoes `msg.get('uuid')` and `msg.get('action')` (`Echo`: `None` for an absent key), has status 'error' and the error type tag, and has no send_to or session_data |
| `Envelopes.SuccessResponse` | django_aiohttp_websockets/websockets/core/worker_message_handlers.py:36-52 | the payload's keys plus uuid/action/status; the uuid and action echoed by `Echo` and status 'success' override same-named payload keys; other payload keys are kept; send_to and session_data are passed through |
| `MessageHandler.SessionUser` | django_aiohttp_websockets/websockets/core/worker_message_handlers.py:71 | `session_data.user_pk` counts only when session_data is a dict and user_pk is present and non-zero |
| `MessageHandler.Validate` | django_aiohttp_websockets/websockets/core/worker_message_handlers.py:64-72 | first `invalid_message_format` exactly when uuid or action is missing or empty; then `invalid_payload` exactly when the action is not in ACTIONS; then, except for authenticate, `authentication_required` (or the AttributeError of a non-dict session_data); passes otherwise |
| `MessageHandler.GetRoom` | django_aiohttp_websockets/websockets/core/worker_message_handlers.py:74-78 | succeeds with the requested room exactly when the room exists and the user is a member; otherwise `invalid_room_id` |
| `MessageHandler.InvalidMessageFormatText` | django_aiohttp_websockets/websockets/core/worker_message_handlers.py:14 | `FaultText` of `invalid_message_format` is the fixed sentence followed by `['action', 'uuid']` |
| `MessageHandler.InvalidPayloadText` | django_aiohttp_websockets/websockets/core/worker_message_handlers.py:15 | `FaultText` of `invalid_payload` is the fixed sentence followed by `['authenticate', 'select_room', 'new_message']` |
| `MessageHandler.ProcessAuthenticate` | django_aiohttp_websockets/websockets/core/worker_message_handlers.py:80-86 | succeeds exactly for a known token key, or for no token when exactly one user has no token; the session user is the token's owner or that one tokenless user; the response has only uuid/action/status; `invalid_token` exactly for an unknown key or no token with no tokenless user; otherwise `MultipleObjectsReturned` with the number of tokenless users |
| `MessageHandler.ProcessSelectRoom` | django_aiohttp_websockets/websockets/core/worker_message_handlers.py:88-95 | `invalid_room_id` unless the room exists and the session user is a member; otherwise a success envelope with the room id and the last `min(20, n)` of the room's messages, oldest first, and no send_to or session_data |
| `MessageHandler.NewMessageOutcome` | django_aiohttp_websockets/websockets/core/worker_message_handlers.py:97-114 | `invalid_room_id` exactly when the room is missing or not the user's; then `empty_text` exactly for absent or all-whitespace text, the AttributeError of `.strip` for a non-string text, and otherwise one appended message (room, session user, text as sent) with send_to the room's member set |
| `MessageHandler.ProcessNewMessage` | django_aiohttp_websockets/websockets/core/worker_message_handlers.py:97-114 | the store method's result and new store state are those of `NewMessageOutcome`; a failure leaves the store unchanged; integrity is kept |
| `MessageHandler.ProcessMessage` | django_aiohttp_websockets/websockets/core/worker_message_handlers.py:54-62 | the store method's result and new store state are those of `Process` on the old state; integrity is kept |
| `HandlerProperties.HandledIsSuccess` | django_aiohttp_websockets/websockets/core/worker_message_handlers.py:54-114 | about `Handle` and `Dispatch` (validation, then `getattr` dispatch): a handler that returns normally answers a validated request with a success envelope: status 'success', echoed uuid and action, send_to exactly for new_message, session_data exactly for authenticate, and the database unchanged except by new_message |
| `HandlerProperties.NeverRaisesOnDict` | django_aiohttp_websockets/websockets/core/worker_message_handlers.py:54-62 | about `Process`: `process_message` raises only for a non-dict message, and then with the `AttributeError` of `msg.get` |
| `HandlerProperties.ErrorEnvelopeCarriesException` | django_aiohttp_websockets/websockets/core/worker_message_handlers.py:54-62 | about `Process`: an error envelope arises exactly when validation or a handler raised; it carries `str` of that exception, and the database is unchanged |
| `HandlerProperties.SuccessEnvelopeShape` | django_aiohttp_websockets/websockets/core/worker_message_handlers.py:36-52 | every success envelope answers a validated request; it has the success tag and status 'success', and carries the request's non-empty uuid and its known action |
| `HandlerProperties.MalformedFirst` | django_aiohttp_websockets/websockets/core/worker_message_handlers.py:64-66 | a missing or empty uuid or action gives `invalid_message_format` whatever else the request or the database holds |
| `HandlerProperties.UnknownActionSecond` | django_aiohttp_websockets/websockets/core/worker_message_handlers.py:68-69 | with both keys present, an unknown action gives `invalid_payload` whatever the session holds |
| `HandlerProperties.AuthenticationRequiredThird` | django_aiohttp_websockets/websockets/core/worker_message_handlers.py:71-72 | a known non-authenticate action without a session user gives `authentication_required`, or the AttributeError when session_data is not a dict |
| `HandlerProperties.AuthenticateUnknownToken` | django_aiohttp_websockets/websockets/core/worker_message_handlers.py:80-84 | authenticate with a token key no user owns gives `invalid_token` and changes nothing |
| `HandlerProperties.AuthenticateKnownToken` | django_aiohttp_websockets/websockets/core/worker_message_handlers.py:80-86 | authenticate with a known token gives success with `session_data = {user_pk: token owner}`, no send_to, and a response holding only uuid/action/status; the database is unchanged |
| `HandlerProperties.AuthenticateWithoutToken` | django_aiohttp_websockets/websockets/core/worker_message_handlers.py:80-84 | authenticate without a token gives `invalid_token` when every user has a token, and the `MultipleObjectsReturned` text with the count when several users have none; nothing changes |
| `HandlerProperties.AuthenticateTokenlessUser` | django_aiohttp_websockets/websockets/core/worker_message_handlers.py:80-86 | authenticate without a token, when exactly one user has no token, makes that user the session user; the database is unchanged |
| `HandlerProperties.RoomNotVisible` | django_aiohttp_websockets/websockets/core/worker_message_handlers.py:74-78 | for select_room and new_message, a missing room, an unknown room and a room the user is not a member of all give the same `invalid_room_id`, before the text is examined; the database is unchanged |
| `HandlerProperties.SelectRoomRecent` | django_aiohttp_websockets/websockets/core/worker_message_handlers.py:88-95 | select_room on a visible room answers with the room id and the last `min(20, n)` of its messages oldest first, with no send_to or session_data; the database is unchanged |
| `HandlerProperties.NewMessageBlankText` | django_aiohttp_websockets/websockets/core/worker_message_handlers.py:97-102 | on a visible room, absent, empty or whitespace-only text gives `empty_text` and no message is created |
| `HandlerProperties.NewMessageTextNotString` | django_aiohttp_websockets/websockets/core/worker_message_handlers.py:101 | a text that is not a string raises the AttributeError of `.strip`, and no message is created |
| `HandlerProperties.NewMessageAppends` | django_aiohttp_websockets/websockets/core/worker_message_handlers.py:97-114 | a non-blank text on a visible room appends exactly one message (room, session user, text as sent), answers with room and message, and sets send_to to the room's member set |
| `HandlerProperties.SelectRoomReturns` | django_aiohttp_websockets/websockets/core/worker_message_handlers.py:88-95 | the `room_messages` returned by select_room on a visible room are the last `min(20, n)` of the room's messages, oldest first |
| `HandlerProperties.NewMessageThenSelectRoom` | django_aiohttp_websockets/websockets/core/worker_message_handlers.py:88-114 | after a successful new_message, select_room by any member of that room returns that message as its newest entry |
| `HandlerProperties.Audience` | django_aiohttp_websockets/websockets/core/worker_message_handlers.py:80-114 | of the success envelopes, only new_message has a send_to, which is the room's member set and includes the author; only authenticate has a session_data |
| `HandlerProperties.StoreChangesOnlyByNewMessage` | django_aiohttp_websockets/websockets/core/worker_message_handlers.py:97-108 | users, tokens and rooms never change; messages change only on a successful new_message, by one appended message from the session user to the named room |
| `HandlerProperties.ProcessKeepsIntegrity` | django_aiohttp_websockets/chat/models.py:8-21 | processing any message keeps every foreign key pointing at an existing user or room |

## Left out

- The worker loop (`worker.py`): the broker subscription, publishing, signal handling and shutdown. It is concurrency and I/O. Its `subscribe_to_channel` (`worker.py:50`) calls `process_message` on each JSON-decoded broker message and logs any exception that escapes it.
- The connection registry and gateway router. They do not exist in this code; the websocket view is an echo loop. The management command that starts the worker is argument parsing.
- Logging calls (`self.logger.error`): they have no effect on results.
- Serialization: `ChatMessageSerializer` output (message id, user, float timestamp) and `room.pk.hex`. The response carries the stored `ChatMessage` value and the room id as opaque values.
- JSON values of unexpected types. The request fields only admit absent/null and values of the expected type, so these cases are outside the model:
  - a non-string `uuid` or `action`: Django never sees them. A falsy one (`0`, `[]`, `false`) gives `invalid_message_format`. A truthy non-string `action` gives `invalid_payload`. A truthy non-string `uuid` passes and is echoed back.
  - a non-string `token`: the `CharField` lookup converts it with `str()`, so it acts like the token key of that text.
  - a `user_pk` of another type: a falsy one (`""`, `[]`, `{}`, `false`) gives `authentication_required` before Django sees it. A truthy one that `int()` rejects makes the lookup raise `ValueError` (a string) or `TypeError` (a list or dict). Those texts depend on the Python and Django versions. (`"5"` and `true` are accepted as 5 and 1.)
  - a `room` that is not a well-formed UUID: Django raises `ValidationError`, whose text depends on the Django version.
- `MultipleObjectsReturned` text: the model uses the wording of Django before 3.0, `get() returned more than one User -- it returned N!`, for the default user model. Django 3.0 and later write `more than 20` once there are 21 matches or more.
- Database exceptions other than `DoesNotExist`. The `Store` keeps referential integrity as an invariant instead, so `ChatMessage.objects.create` cannot fail.
- Message ids and `date_created`. Creation order is a message's position in `messages`. Ties in `date_created`, which make the database's `-date_created` order arbitrary among equals, are not modelled.
- `send_to` is a `values_list` list in unspecified order; the model keeps it as a set.
- In-place modification of the payload dict by `response.update` inside `_success_response`: modelled as building an updated map. Each handler passes a freshly built dict that nothing else references, so the two cannot be told apart.
- The `getattr` lookup of `process_<action>` is modelled as a three-way branch on the action. Validation admits only the three names in `ACTIONS`, so the branch reaches the same handlers.
