/**
 * Properties of the handlers that relate several calls, or that hold for
 * every inbound event: what `user_count` carries, idempotent disconnect,
 * the join and rename effects on the presence count, and a session trace.
 */
module Fanout {
  import opened Wrappers
  import opened Registry
  import opened Router

  /**
   * Whatever the event, every `user_count` a handler emits carries the
   * number of entries with a truthy username in the registry it leaves.
   */
  lemma UserCountIsPresence(m: Registry, c: Call)
    ensures Handle(m, c).Success? ==>
      forall e :: e in Handle(m, c).value.emitted && e.event.UserCount? ==>
        e.event.count == PresenceCount(Handle(m, c).value.registry)
  {
    match c.event
    case Disconnect =>
    case Join(_) =>
    case _ =>
  }

  /** Disconnecting twice is disconnecting once: the second pop finds nothing and emits nothing. */
  lemma DisconnectIdempotent(m: Registry, sid: Sid)
    ensures OnDisconnect(OnDisconnect(m, sid).registry, sid)
         == Outcome(OnDisconnect(m, sid).registry, [])
  {
  }

  /** Joining a connection that had no truthy name, without a username key, raises the count by one. */
  lemma JoinDefaultCountsOnce(m: Registry, sid: Sid)
    requires sid in m && !Truthy(m[sid])
    ensures OnJoin(m, sid, JoinData(Missing)).Success?
    ensures var o := OnJoin(m, sid, JoinData(Missing)).value;
      && o.registry[sid] == Some(Anonymous)
      && PresenceCount(o.registry) == PresenceCount(m) + 1
      && o.emitted[1] == Emit(Everyone, UserCount(PresenceCount(m) + 1))
  {
  }

  /** An explicit empty username is stored as it is and does not count as present. */
  lemma JoinEmptyNameNotCounted(m: Registry, sid: Sid)
    requires sid in m
    ensures OnJoin(m, sid, JoinData(Given(Some("")))).Success?
    ensures var o := OnJoin(m, sid, JoinData(Given(Some("")))).value;
      && o.registry[sid] == Some("")
      && PresenceCount(o.registry) == PresenceCount(m) - Counted(m, sid)
  {
  }

  /** A rename that keeps the entry's truthiness (or names an unknown sid) keeps the presence count. */
  lemma RenameKeepsCount(m: Registry, sid: Sid, data: ChangeData)
    requires sid in m ==> Truthy(m[sid]) == Truthy(data.newUsername.GetOr(None))
    ensures PresenceCount(OnChange(m, sid, data).registry) == PresenceCount(m)
  {
  }

  /**
   * A rename without "newUsername" from a joined connection clears its name
   * to `None`: the presence count drops by one and no `user_count` is emitted.
   */
  lemma RenameDropsCountSilently(m: Registry, sid: Sid, oldName: Field)
    requires sid in m && Truthy(m[sid])
    ensures var o := OnChange(m, sid, ChangeData(oldName, Missing));
      && o.registry[sid] == None
      && PresenceCount(o.registry) == PresenceCount(m) - 1
      && forall e :: e in o.emitted ==> !e.event.UserCount?
  {
  }

  /**
   * A rename to a non-empty name from a connection that never joined makes
   * it count: the presence count rises by one and no `user_count` is emitted.
   */
  lemma RenameRaisesCountSilently(m: Registry, sid: Sid, oldName: Field, newName: string)
    requires sid in m && !Truthy(m[sid]) && newName != ""
    ensures var o := OnChange(m, sid, ChangeData(oldName, Given(Some(newName))));
      && o.registry[sid] == Some(newName)
      && PresenceCount(o.registry) == PresenceCount(m) + 1
      && forall e :: e in o.emitted ==> !e.event.UserCount?
  {
  }

  /**
   * A session: A connects and joins as "alice", B connects and joins with
   * no username, A sends a message, A disconnects.
   */
  lemma AliceAndAnonymous(hi: Payload)
    ensures var m1 := OnConnect(map[], "A").registry;
      var j1 := OnJoin(m1, "A", JoinData(Given(Some("alice"))));
      && j1.Success?
      && j1.value.emitted == [Emit(Everyone, UserJoined(Some("alice"))), Emit(Everyone, UserCount(1))]
      && var m2 := OnConnect(j1.value.registry, "B").registry;
      var j2 := OnJoin(m2, "B", JoinData(Missing));
      && j2.Success?
      && j2.value.emitted == [Emit(Everyone, UserJoined(Some(Anonymous))), Emit(Everyone, UserCount(2))]
      && var s := OnMessage(j2.value.registry, "A", hi);
      && s.emitted == [Emit(EveryoneBut("A"), ChatMessage(hi))]
      && Recipients(s.emitted[0].audience, s.registry.Keys) == {"B"}
      && OnDisconnect(s.registry, "A").emitted
         == [Emit(Everyone, UserLeft(Some("alice"))), Emit(Everyone, UserCount(1))]
  {
    var m1 := OnConnect(map[], "A").registry;
    assert m1 == map["A" := None];
    var j1 := OnJoin(m1, "A", JoinData(Given(Some("alice"))));
    assert j1.value.registry == map["A" := Some("alice")];
    assert Joined(j1.value.registry) == {"A"};
    var m2 := OnConnect(j1.value.registry, "B").registry;
    assert m2 == map["A" := Some("alice"), "B" := None];
    var j2 := OnJoin(m2, "B", JoinData(Missing));
    assert j2.value.registry == map["A" := Some("alice"), "B" := Some(Anonymous)];
    assert Joined(j2.value.registry) == {"A", "B"};
    var d := OnDisconnect(j2.value.registry, "A").registry;
    assert d == map["B" := Some(Anonymous)];
    assert Joined(d) == {"B"};
  }
}
