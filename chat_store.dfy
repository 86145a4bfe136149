/**
 * The chat data the handler reads and writes, in place of the Django ORM:
 * users, authentication tokens, rooms with their members, and the messages
 * in creation order.
 */
module ChatStore {

  /** A user's primary key. */
  type UserPk = int

  /** A room's primary key, the UUID read as a number; `room.pk.hex` renders it. */
  type RoomId = nat

  /** How many messages `select_room` returns at most. */
  const RecentLimit: nat := 20

  /** A `ChatMessage`: its room (foreign key), author (foreign key) and text. */
  datatype ChatMessage = ChatMessage(room: RoomId, author: UserPk, text: string)

  /**
   * A snapshot of the database: the user primary keys, the token key of each
   * user's auth token, each room's member set, and every chat message, oldest
   * first (position = order of `date_created`).
   */
  datatype DbState = DbState(
    users: set<UserPk>,
    tokens: map<string, UserPk>,
    rooms: map<RoomId, set<UserPk>>,
    messages: seq<ChatMessage>)

  /** The database's referential integrity: every foreign key names an existing row. */
  ghost predicate Valid(db: DbState) {
    && (forall t :: t in db.tokens ==> db.tokens[t] in db.users)
    && (forall r :: r in db.rooms ==> db.rooms[r] <= db.users)
    && (forall i :: 0 <= i < |db.messages| ==>
          db.messages[i].room in db.rooms && db.messages[i].author in db.users)
  }

  /**
   * The users without an auth token: the rows `User.objects.get(auth_token__key=None)`
   * matches, since Django reads `key=None` across the reverse one-to-one as SQL `IS NULL`.
   */
  function Tokenless(db: DbState): set<UserPk> {
    db.users - db.tokens.Values
  }

  /** True when `user` may see `room`: the room exists and `user` is one of its members. */
  predicate Visible(db: DbState, room: RoomId, user: UserPk) {
    room in db.rooms && user in db.rooms[room]
  }

  /** `room.messages.all()` in creation order. */
  function RoomMessages(ms: seq<ChatMessage>, room: RoomId): (r: seq<ChatMessage>)
    ensures |r| <= |ms|
    ensures forall i :: 0 <= i < |r| ==> r[i].room == room && r[i] in ms
    ensures forall i :: 0 <= i < |ms| && ms[i].room == room ==> ms[i] in r
  {
    if ms == [] then []
    else
      var init := RoomMessages(ms[..|ms| - 1], room);
      assert forall i :: 0 <= i < |ms| - 1 ==> ms[..|ms| - 1][i] == ms[i];
      init + (if ms[|ms| - 1].room == room then [ms[|ms| - 1]] else [])
  }

  /**
   * `idx` lists, in increasing order, exactly the positions of `ms` that hold
   * a message of `room`, and `r` is the messages at those positions.
   */
  ghost predicate PicksRoom(ms: seq<ChatMessage>, room: RoomId, r: seq<ChatMessage>, idx: seq<nat>) {
    && |idx| == |r|
    && (forall k :: 0 <= k < |idx| ==> idx[k] < |ms| && ms[idx[k]].room == room && r[k] == ms[idx[k]])
    && (forall k, l :: 0 <= k < l < |idx| ==> idx[k] < idx[l])
    && (forall i :: 0 <= i < |ms| && ms[i].room == room ==> i in idx)
  }

  /**
   * A room's history is the subsequence of the message table made of that
   * room's messages: each one once, in creation order.
   */
  lemma {:induction false} RoomMessagesInOrder(ms: seq<ChatMessage>, room: RoomId)
    ensures exists idx :: PicksRoom(ms, room, RoomMessages(ms, room), idx)
  {
    if ms == [] {
      var none: seq<nat> := [];
      assert PicksRoom(ms, room, RoomMessages(ms, room), none);
    } else {
      var n := |ms| - 1;
      RoomMessagesInOrder(ms[..n], room);
      var idx0: seq<nat> :| PicksRoom(ms[..n], room, RoomMessages(ms[..n], room), idx0);
      PicksExtend(ms, room, RoomMessages(ms[..n], room), idx0);
      assert RoomMessages(ms, room) == RoomMessages(ms[..n], room) + (if ms[n].room == room then [ms[n]] else []);
      assert PicksRoom(ms, room, RoomMessages(ms, room), idx0 + (if ms[n].room == room then [n] else []));
    }
  }

  /** Extending the table by one message extends a picking of its room's history by that position, if the message is the room's. */
  lemma PicksExtend(ms: seq<ChatMessage>, room: RoomId, r0: seq<ChatMessage>, idx0: seq<nat>)
    requires |ms| > 0 && PicksRoom(ms[..|ms| - 1], room, r0, idx0)
    ensures var n := |ms| - 1;
      PicksRoom(ms, room, r0 + (if ms[n].room == room then [ms[n]] else []),
                idx0 + (if ms[n].room == room then [n] else []))
  {
    var n := |ms| - 1;
    assert forall i :: 0 <= i < n ==> ms[..n][i] == ms[i];
    var r := r0 + (if ms[n].room == room then [ms[n]] else []);
    var idx := idx0 + (if ms[n].room == room then [n] else []);
    forall k | 0 <= k < |idx|
      ensures idx[k] < |ms| && ms[idx[k]].room == room && r[k] == ms[idx[k]]
    {
      if k < |idx0| {
        assert idx[k] == idx0[k] && r[k] == r0[k];
      }
    }
    forall i | 0 <= i < |ms| && ms[i].room == room
      ensures i in idx
    {
      if i < n {
        assert ms[..n][i].room == room;
        assert i in idx0;
      } else {
        assert idx[|idx| - 1] == n;
      }
    }
  }

  /** Appending a message extends its room's history by that message and leaves every other room's alone. */
  lemma RoomMessagesAppend(ms: seq<ChatMessage>, m: ChatMessage, room: RoomId)
    ensures RoomMessages(ms + [m], room)
         == RoomMessages(ms, room) + (if m.room == room then [m] else [])
  {
    assert (ms + [m])[..|ms + [m]| - 1] == ms;
  }

  /** The last `min(20, n)` messages of a room whose newest message is `m` end with `m`. */
  lemma NewestIsLast(ms: seq<ChatMessage>, m: ChatMessage)
    ensures var history := RoomMessages(ms + [m], m.room);
      var recent := history[|history| - Min(RecentLimit, |history|)..];
      |recent| >= 1 && recent[|recent| - 1] == m
  {
    RoomMessagesAppend(ms, m, m.room);
  }

  /** `reversed(s)`: element `i` of the result is element `|s| - 1 - i` of `s`. */
  function Reverse<T>(s: seq<T>): seq<T> {
    seq(|s|, i requires 0 <= i < |s| => s[|s| - 1 - i])
  }

  function Min(a: nat, b: nat): nat {
    if a <= b then a else b
  }

  /**
   * `reversed(room.messages.all().order_by('-date_created')[:20])`: the newest
   * twenty, newest first, turned back to oldest first. The result is exactly
   * the last `min(20, n)` messages of the room's history, in creation order.
   */
  function Recent(ms: seq<ChatMessage>, room: RoomId): (r: seq<ChatMessage>)
    ensures var history := RoomMessages(ms, room);
      && |r| == Min(RecentLimit, |history|)
      && history == history[..|history| - |r|] + r
  {
    var newestFirst := Reverse(RoomMessages(ms, room));
    var r := Reverse(newestFirst[..Min(RecentLimit, |newestFirst|)]);
    ReverseTakeReverse(RoomMessages(ms, room), Min(RecentLimit, |newestFirst|));
    r
  }

  /** Taking the first `k` of the reversed sequence and reversing back gives the last `k`, in order. */
  lemma ReverseTakeReverse<T>(s: seq<T>, k: nat)
    requires k <= |s|
    ensures Reverse(Reverse(s)[..k]) == s[|s| - k..]
  {
    var t := Reverse(s)[..k];
    forall i | 0 <= i < k
      ensures Reverse(t)[i] == s[|s| - k + i]
    {
      assert Reverse(t)[i] == t[k - 1 - i];
    }
  }

  /**
   * The database rows the handler touches. Only `messages` is ever changed
   * by the handler (`ChatMessage.objects.create`); the other tables are read.
   */
  class Store {
    var users: set<UserPk>
    var tokens: map<string, UserPk>
    var rooms: map<RoomId, set<UserPk>>
    var messages: seq<ChatMessage>

    function State(): DbState
      reads this
    {
      DbState(users, tokens, rooms, messages)
    }

    /** `ChatMessage.objects.create(user_id=author, text=text, room=room)`. */
    method CreateMessage(author: UserPk, text: string, room: RoomId) returns (m: ChatMessage)
      requires Valid(State())
      requires room in rooms && author in users
      modifies this
      ensures Valid(State())
      ensures m == ChatMessage(room, author, text)
      ensures State() == old(State()).(messages := old(messages) + [m])
    {
      m := ChatMessage(room, author, text);
      messages := messages + [m];
    }
  }
}
