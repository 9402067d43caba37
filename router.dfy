/**
 * The event handlers of app.py, each as a pure function from the registry and
 * the inbound event to the new registry and the events it emits, in order,
 * each with its audience. These functions are the specification that the
 * imperative handlers of module Server are proved against.
 */
module Router {
  import opened Wrappers
  import opened Registry

  /** The username `on_join` stores when the join data has no "username" key ("anonymous"). */
  const Anonymous: string := "匿名"

  /** The data of `send_message` and `typing`: relayed without being looked at. */
  type Payload = map<string, string>

  /** One key of an inbound JSON object: absent, or present with `null` or a string. */
  datatype Field = Missing | Given(value: Name) {
    /** Python's `data.get(key, default)`. */
    function GetOr(default: Name): Name {
      if Given? then value else default
    }
  }

  datatype JoinData = JoinData(username: Field)

  datatype ChangeData = ChangeData(oldUsername: Field, newUsername: Field)

  /** What a connection can send. */
  datatype Inbound =
    | Connect
    | Disconnect
    | Join(join: JoinData)
    | SendMessage(message: Payload)
    | TypingStatus(status: Payload)
    | ChangeUsername(change: ChangeData)

  /** One inbound event, tagged with the connection it came from. */
  datatype Call = Call(sid: Sid, event: Inbound)

  /** `emit(..., broadcast=True)`, with or without `include_self=False`. */
  datatype Audience = Everyone | EveryoneBut(sender: Sid)

  /** What the server sends. */
  datatype Event =
    | UserJoined(username: Name)
    | UserLeft(username: Name)
    | UserCount(count: nat)
    | ChatMessage(message: Payload)
    | Typing(status: Payload)
    | UserChangedName(oldUsername: Name, newUsername: Name)

  datatype Emit = Emit(audience: Audience, event: Event)

  /** The registry after a handler, and what it emitted, in order. */
  datatype Outcome = Outcome(registry: Registry, emitted: seq<Emit>)

  /** The exception a handler can raise: `clients[sid]` on a missing key. */
  datatype Error = KeyError(key: Sid)

  /** The open connections an audience reaches. */
  function Recipients(a: Audience, open: set<Sid>): set<Sid> {
    match a
    case Everyone => open
    case EveryoneBut(sender) => open - {sender}
  }

  /** `broadcast_user_count`: the presence count, to everyone. */
  function BroadcastUserCount(m: Registry): Emit {
    Emit(Everyone, UserCount(PresenceCount(m)))
  }

  /**
   * `on_connect`: an entry with no username for `sid`, overwriting any
   * entry already there; nothing is emitted. Overwriting a present entry
   * lowers the presence count without any `user_count` event.
   */
  function OnConnect(m: Registry, sid: Sid): (r: Outcome)
    ensures r.registry.Keys == m.Keys + {sid}
    ensures r.registry[sid] == None
    ensures forall s :: s in m && s != sid ==> r.registry[s] == m[s]
    ensures r.emitted == []
    ensures PresenceCount(r.registry) == PresenceCount(m) - Counted(m, sid)
  {
    CountAfterStore(m, sid, None);
    Outcome(m[sid := None], [])
  }

  /**
   * `on_disconnect`: the entry for `sid` is popped if there is one. Only
   * when it had a truthy username are `user_left` with that name and then
   * `user_count` with the count lowered by one sent to everyone.
   */
  function OnDisconnect(m: Registry, sid: Sid): (r: Outcome)
    ensures r.registry.Keys == m.Keys - {sid}
    ensures forall s :: s in r.registry ==> r.registry[s] == m[s]
    ensures Counted(m, sid) == 0 ==> r.emitted == []
    ensures Counted(m, sid) == 1 ==>
      r.emitted == [Emit(Everyone, UserLeft(m[sid])), Emit(Everyone, UserCount(PresenceCount(m) - 1))]
  {
    var info := if sid in m then Some(m[sid]) else None;
    var m' := m - {sid};
    if info.Some? && Truthy(info.value) then
      CountAfterRemove(m, sid);
      Outcome(m', [Emit(Everyone, UserLeft(info.value)), BroadcastUserCount(m')])
    else
      Outcome(m', [])
  }

  /** The username `on_join` stores: the given value, `null` and "" included, or the default. */
  function JoinName(data: JoinData): Name {
    data.username.GetOr(Some(Anonymous))
  }

  /**
   * `on_join`: raises `KeyError` for an unknown `sid`, changing nothing and
   * emitting nothing. Otherwise it stores the username (the default when the
   * key is missing) and sends `user_joined` then `user_count` to everyone,
   * the sender included.
   */
  function OnJoin(m: Registry, sid: Sid, data: JoinData): (r: Result<Outcome, Error>)
    ensures r.Failure? <==> sid !in m
    ensures r.Failure? ==> r.error == KeyError(sid)
    ensures r.Success? ==>
      && r.value.registry.Keys == m.Keys
      && r.value.registry[sid] == (if data.username.Missing? then Some(Anonymous) else data.username.value)
      && (forall s :: s in m && s != sid ==> r.value.registry[s] == m[s])
      && r.value.emitted == [
           Emit(Everyone, UserJoined(r.value.registry[sid])),
           Emit(Everyone, UserCount(PresenceCount(m) - Counted(m, sid)
                                    + (if Truthy(r.value.registry[sid]) then 1 else 0)))]
  {
    var username := JoinName(data);
    if sid !in m then
      Failure(KeyError(sid))
    else
      var m' := m[sid := username];
      CountAfterStore(m, sid, username);
      Success(Outcome(m', [Emit(Everyone, UserJoined(username)), BroadcastUserCount(m')]))
  }

  /**
   * `on_message`: the registry is unchanged and exactly one `chat_message`
   * carrying the data as received goes to every open connection but the sender.
   */
  function OnMessage(m: Registry, sid: Sid, data: Payload): (r: Outcome)
    ensures r.registry == m
    ensures |r.emitted| == 1 && r.emitted[0].event.ChatMessage? && r.emitted[0].event.message == data
    ensures Recipients(r.emitted[0].audience, m.Keys) == m.Keys - {sid}
  {
    Outcome(m, [Emit(EveryoneBut(sid), ChatMessage(data))])
  }

  /**
   * `on_typing`: the registry is unchanged and exactly one `typing` carrying
   * the data as received goes to every open connection but the sender.
   */
  function OnTyping(m: Registry, sid: Sid, data: Payload): (r: Outcome)
    ensures r.registry == m
    ensures |r.emitted| == 1 && r.emitted[0].event.Typing? && r.emitted[0].event.status == data
    ensures Recipients(r.emitted[0].audience, m.Keys) == m.Keys - {sid}
  {
    Outcome(m, [Emit(EveryoneBut(sid), Typing(data))])
  }

  /**
   * `on_change`: when `sid` is registered its username becomes the new name
   * as received (`null` when the key is missing, "" kept as ""); otherwise
   * nothing changes. Either way exactly one `user_changed_name` goes to
   * everyone, the sender included, and no `user_count` is sent, although
   * the presence count moves whenever the entry's truthiness changes.
   */
  function OnChange(m: Registry, sid: Sid, data: ChangeData): (r: Outcome)
    ensures r.registry.Keys == m.Keys
    ensures sid in m ==> r.registry[sid] == (if data.newUsername.Missing? then None else data.newUsername.value)
    ensures forall s :: s in m && s != sid ==> r.registry[s] == m[s]
    ensures |r.emitted| == 1 && Recipients(r.emitted[0].audience, m.Keys) == m.Keys
    ensures r.emitted[0].event == UserChangedName(data.oldUsername.GetOr(None), data.newUsername.GetOr(None))
    ensures forall e :: e in r.emitted ==> !e.event.UserCount?
    ensures PresenceCount(r.registry)
         == PresenceCount(m) - Counted(m, sid)
            + (if sid in m && Truthy(data.newUsername.GetOr(None)) then 1 else 0)
  {
    var old_ := data.oldUsername.GetOr(None);
    var new_ := data.newUsername.GetOr(None);
    var m' := if sid in m then m[sid := new_] else m;
    CountAfterStore(m, sid, new_);
    Outcome(m', [Emit(Everyone, UserChangedName(old_, new_))])
  }

  /** The registry's key set after a handled call: only connect and disconnect change it. */
  function KeysAfter(keys: set<Sid>, c: Call): set<Sid> {
    match c.event
    case Connect => keys + {c.sid}
    case Disconnect => keys - {c.sid}
    case _ => keys
  }

  /** The event loop's dispatch of one inbound call to its handler. */
  function Handle(m: Registry, c: Call): (r: Result<Outcome, Error>)
    ensures r.Failure? <==> c.event.Join? && c.sid !in m
    ensures r.Success? ==> r.value.registry.Keys == KeysAfter(m.Keys, c)
  {
    match c.event
    case Connect => Success(OnConnect(m, c.sid))
    case Disconnect => Success(OnDisconnect(m, c.sid))
    case Join(data) => OnJoin(m, c.sid, data)
    case SendMessage(data) => Success(OnMessage(m, c.sid, data))
    case TypingStatus(data) => Success(OnTyping(m, c.sid, data))
    case ChangeUsername(data) => Success(OnChange(m, c.sid, data))
  }
}
