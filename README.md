# Chat room presence registry and event fan-out, in Dafny

This project models the server of a small Socket.IO chat room (`app.py`).
The server keeps one registry, `clients`. It maps each connection id (`sid`)
to a record whose `username` is `None` until the connection joins.
Six handlers react to inbound events: connect, disconnect, join,
send_message, typing and change_username. Each updates the registry and
decides which events go out, in what order, with what data, and to whom:
everyone, or everyone except the sender. The presence count sent in
`user_count` is the number of records whose username is truthy, that is
neither `None` nor `""`.

Layout:

- `registry.dfy` (module `Registry`): the registry as `map<Sid, Option<string>>`, Python truthiness, the presence count, and how storing or removing one entry moves that count.
- `router.dfy` (module `Router`): inbound and outbound events, audiences, and one pure function per handler. Each function returns the new registry and the emitted events. Their contracts state the handler's effect in terms of the old registry.
- `server.dfy` (module `Server`): class `ChatServer`, whose field `clients` the handler methods update in place. Each method is proved equal to its `Router` function.
- `fanout.dfy` (module `Fanout`): properties that hold for every event or relate several calls.
- `lifecycle.dfy` (module `Lifecycle`): traces of calls. After any trace, the registry's keys are exactly the connections that are connected and have not disconnected since.

Where the behaviour of `app.py` is easy to miss, the model follows it as written:

- The join default is the literal `"匿名"` ("anonymous") of `app.py:48`. It applies only when the `username` key is absent. An explicit `null` or `""` is stored as given, and neither counts as present.
- A repeated connect for a known `sid` silently overwrites the entry back to no username (`app.py:25`). When the old entry had joined, the presence count drops without any `user_count` event.
- `on_join` on an unknown `sid` raises `KeyError` at `app.py:51`. The model returns `Failure(KeyError(sid))` with nothing changed and nothing emitted. A sequence of calls then carries on with the registry unchanged.
- `on_change` stores `newUsername` as received (`app.py:81`, `app.py:85`). A missing key stores `None`, and `""` is stored as well. A rename from a connection that never joined gives it a name. Either way the presence count can move, and no `user_count` is sent (`Fanout.RenameDropsCountSilently`, `Fanout.RenameRaisesCountSilently`).
- `user_left` and `user_count` on disconnect go to everyone (`broadcast=True`). The model's audience is `Everyone`, and `Recipients` resolves it over the registry after the pop.

## Model

| member | source | states |
|---|---|---|
| `Registry.PresenceCount` | app.py:17-20 | the count of entries with a truthy username never exceeds the number of entries, and is zero exactly when no username is truthy |
| `Registry.CountAfterStore` | app.py:48-51 | storing a username under a sid changes the count by minus the old entry's contribution plus the new value's |
| `Registry.CountAfterRemove` | app.py:32 | popping a sid lowers the count by exactly what its entry contributed: one if it had a truthy username, else zero |
| `Router.OnConnect` | app.py:23-26 | the sid is present with no username, even when it was present before; the other entries are unchanged; nothing is emitted; the count drops by what the overwritten entry contributed |
| `Router.OnDisconnect` | app.py:29-42 | the sid is removed if present and no other entry changes. If its username was truthy, exactly `user_left{username}` and then `user_count{old count - 1}` go to everyone; otherwise nothing is emitted |
| `Router.OnJoin` | app.py:45-61 | fails with `KeyError(sid)` exactly when the sid is unknown. Otherwise it stores the given username, or `"匿名"` when the key is missing, and leaves the other entries and the key set unchanged. It emits `user_joined{username}` then `user_count{updated count}`, both to everyone |
| `Router.OnMessage` | app.py:64-69 | the registry is unchanged; exactly one `chat_message` carrying the data unchanged, reaching every open connection except the sender |
| `Router.OnTyping` | app.py:72-75 | the registry is unchanged; exactly one `typing` carrying the data unchanged, reaching every open connection except the sender |
| `Router.OnChange` | app.py:78-90 | only a registered sid's username changes, to `newUsername` as received (`None` if missing); the key set is kept. Exactly one `user_changed_name{oldUsername, newUsername}` reaches everyone, the sender included, and no `user_count` is sent; the count moves by the entry's change of truthiness |
| `Router.Handle` | app.py:23-90 | only a join from an unknown sid fails; only connect and disconnect change the key set, by adding or removing the caller's sid |
| `Fanout.UserCountIsPresence` | app.py:17-20 | for every inbound event, each `user_count` emitted carries the number of truthy usernames in the registry the handler leaves |
| `Fanout.DisconnectIdempotent` | app.py:32 | a second disconnect of the same sid changes nothing and emits nothing |
| `Fanout.JoinDefaultCountsOnce` | app.py:48-59 | joining a sid without a truthy name and without a username key stores `"匿名"` and raises the count, and the emitted `user_count`, by exactly one |
| `Fanout.JoinEmptyNameNotCounted` | app.py:48-51 | joining with `username: ""` stores `""`, and that entry does not count as present |
| `Fanout.RenameKeepsCount` | app.py:84-85 | a rename that keeps the entry's truthiness, or names an unknown sid, keeps the presence count |
| `Fanout.RenameDropsCountSilently` | app.py:80-90 | for every registry, a rename without `newUsername` from a joined connection clears its name to `None`. The count falls by one and no `user_count` is emitted |
| `Fanout.RenameRaisesCountSilently` | app.py:80-90 | for every registry, a rename to a non-empty name from a connection that never joined makes it count. The count rises by one and no `user_count` is emitted |
| `Fanout.AliceAndAnonymous` | app.py:23-69 | the session "A joins as alice, B joins with no name, A sends a message, A leaves" gives `user_count` 1, 2 and then 1. The message reaches only B |
| `Lifecycle.ReplayKeys` | app.py:23-32 | after any sequence of calls, a sid is in the registry exactly when it is connected and has not disconnected since: the last connect counts once, and a disconnect of an unknown sid removes nothing |
| `Server.ChatServer.constructor` | app.py:12 | the registry starts empty, so the presence count starts at zero |
| `Server.ChatServer.BroadcastUserCount` | app.py:17-20 | counting the truthy usernames one entry at a time gives `PresenceCount` of the registry, sent to everyone |
| `Server.ChatServer.OnConnect` | app.py:23-26 | the in-place update of `clients` gives the registry `Router.OnConnect` specifies |
| `Server.ChatServer.OnDisconnect` | app.py:29-42 | the pop and the emits give the registry and the events `Router.OnDisconnect` specifies |
| `Server.ChatServer.OnJoin` | app.py:45-61 | on success, the registry and events of `Router.OnJoin`; on `KeyError`, the registry unchanged, nothing emitted, and the error reported |
| `Server.ChatServer.OnMessage` | app.py:64-69 | emits the single relay `Router.OnMessage` specifies and changes nothing |
| `Server.ChatServer.OnTyping` | app.py:72-75 | emits the single relay `Router.OnTyping` specifies and changes nothing |
| `Server.ChatServer.OnChange` | app.py:78-90 | the guarded in-place rename and the emit give the registry and event `Router.OnChange` specifies |

## Left out

- The Flask application, its `/` route and template rendering (`app.py:4-10`): page serving, not registry logic.
- Building `SocketIO` with the eventlet async mode, and `socketio.run` (`app.py:6`, `app.py:93-94`): hosting and transport.
- Delivery inside `emit`. Audiences are resolved over the registry's keys (`Router.Recipients`). The transport's own set of open sockets is not modelled, and neither is a socket that closes mid-fan-out.
- The `print` logging (`app.py:26`, `app.py:42`, `app.py:61`): output with no effect on state or events.
- Concurrency under eventlet: each handler is one atomic step.
- The shape of `send_message` and `typing` data: opaque string-to-string maps, relayed unchanged.
- Username values that are JSON but neither `null` nor a string (numbers, lists, objects). Their Python truthiness differs and is not modelled. The same goes for inbound data that is not a JSON object, where `data.get` would raise `AttributeError`.
- What happens after a handler raises `KeyError` is up to the Socket.IO library and is not modelled. Its log entry and the connection staying open are outside the model. The model only records that nothing changed and nothing was emitted.
