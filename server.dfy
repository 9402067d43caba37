/**
 * The running server: the module-level dict `clients` of app.py as a field
 * that the handlers update in place, each handler returning what it emits.
 * Every handler is proved to do what the matching function of Router says.
 */
module Server {
  import opened Wrappers
  import opened Registry
  import opened Router

  class ChatServer {
    var clients: Registry

    /** The registry is empty when the process starts. */
    constructor ()
      ensures clients == map[]
      ensures PresenceCount(clients) == 0
    {
      clients := map[];
    }

    /** `broadcast_user_count`: the number of truthy usernames, to everyone. */
    method BroadcastUserCount() returns (e: Emit)
      ensures e.audience == Everyone
      ensures e.event == UserCount(PresenceCount(clients))
    {
      var count := 0;
      var rest := clients.Keys;
      while rest != {}
        invariant rest <= clients.Keys
        invariant count == |set s | s in clients.Keys - rest && Truthy(clients[s])|
        decreases rest
      {
        var s :| s in rest;
        ghost var seen := set s' | s' in clients.Keys - rest && Truthy(clients[s']);
        if Truthy(clients[s]) {
          assert (set s' | s' in clients.Keys - (rest - {s}) && Truthy(clients[s'])) == seen + {s};
          count := count + 1;
        } else {
          assert (set s' | s' in clients.Keys - (rest - {s}) && Truthy(clients[s'])) == seen;
        }
        rest := rest - {s};
      }
      assert (set s | s in clients.Keys - rest && Truthy(clients[s])) == Joined(clients);
      e := Emit(Everyone, UserCount(count));
    }

    method OnConnect(sid: Sid)
      modifies this
      ensures Outcome(clients, []) == Router.OnConnect(old(clients), sid)
    {
      clients := clients[sid := None];
    }

    method OnDisconnect(sid: Sid) returns (emitted: seq<Emit>)
      modifies this
      ensures Outcome(clients, emitted) == Router.OnDisconnect(old(clients), sid)
    {
      var info := if sid in clients then Some(clients[sid]) else None;
      clients := clients - {sid};
      emitted := [];
      if info.Some? && Truthy(info.value) {
        emitted := emitted + [Emit(Everyone, UserLeft(info.value))];
        var count := BroadcastUserCount();
        emitted := emitted + [count];
      }
    }

    /** A `KeyError` is reported in `error`, with nothing changed and nothing emitted. */
    method OnJoin(sid: Sid, data: JoinData) returns (emitted: seq<Emit>, error: Option<Error>)
      modifies this
      ensures match Router.OnJoin(old(clients), sid, data)
        case Success(o) => clients == o.registry && emitted == o.emitted && error == None
        case Failure(err) => clients == old(clients) && emitted == [] && error == Some(err)
    {
      var username := data.username.GetOr(Some(Anonymous));
      if sid !in clients {
        return [], Some(KeyError(sid));
      }
      clients := clients[sid := username];
      emitted := [Emit(Everyone, UserJoined(username))];
      var count := BroadcastUserCount();
      emitted := emitted + [count];
      error := None;
    }

    method OnMessage(sid: Sid, data: Payload) returns (emitted: seq<Emit>)
      ensures Outcome(clients, emitted) == Router.OnMessage(clients, sid, data)
    {
      emitted := [Emit(EveryoneBut(sid), ChatMessage(data))];
    }

    method OnTyping(sid: Sid, data: Payload) returns (emitted: seq<Emit>)
      ensures Outcome(clients, emitted) == Router.OnTyping(clients, sid, data)
    {
      emitted := [Emit(EveryoneBut(sid), Typing(data))];
    }

    method OnChange(sid: Sid, data: ChangeData) returns (emitted: seq<Emit>)
      modifies this
      ensures Outcome(clients, emitted) == Router.OnChange(old(clients), sid, data)
    {
      var oldName := data.oldUsername.GetOr(None);
      var newName := data.newUsername.GetOr(None);
      if sid in clients {
        clients := clients[sid := newName];
      }
      emitted := [Emit(Everyone, UserChangedName(oldName, newName))];
    }
  }
}
