/**
 * The session registry of app.py: the module-level dict `clients`, which maps a
 * connection id to a record whose only field, `username`, is `None` or a string.
 */
module Registry {
  import opened Wrappers

  /** A connection id (`request.sid`), assigned by the transport. */
  type Sid = string

  /** The value stored under "username": Python `None` or a string. */
  type Name = Option<string>

  /** The registry: `clients` with each record reduced to its username. */
  type Registry = map<Sid, Name>

  /** Python truthiness of a username: neither `None` nor the empty string. */
  predicate Truthy(n: Name) {
    n.Some? && n.value != ""
  }

  /** The connections whose username is truthy: the ones that count as present. */
  function Joined(m: Registry): (j: set<Sid>)
    ensures forall s :: s in j <==> s in m && Truthy(m[s])
  {
    set s | s in m && Truthy(m[s])
  }

  /**
   * The presence count sent in every `user_count` event: the number of
   * records whose username is truthy. It never exceeds the number of
   * connections, and it is zero exactly when no record is truthy.
   */
  function PresenceCount(m: Registry): (n: nat)
    ensures n <= |m|
    ensures n == 0 <==> forall s :: s in m ==> !Truthy(m[s])
  {
    JoinedWithinKeys(m);
    |Joined(m)|
  }

  lemma JoinedWithinKeys(m: Registry)
    ensures |Joined(m)| <= |m|
  {
    assert Joined(m) <= m.Keys;
    SubsetCard(Joined(m), m.Keys);
  }

  lemma {:induction false} SubsetCard(a: set<Sid>, b: set<Sid>)
    requires a <= b
    ensures |a| <= |b|
    decreases b
  {
    if a != {} {
      var x :| x in a;
      SubsetCard(a - {x}, b - {x});
    }
  }

  /** 1 when the entry for `sid` exists and counts as present, else 0. */
  function Counted(m: Registry, sid: Sid): nat {
    if sid in m && Truthy(m[sid]) then 1 else 0
  }

  /** The count is the present connections other than `sid`, plus `sid`'s own contribution. */
  lemma CountSplit(m: Registry, sid: Sid)
    ensures PresenceCount(m) == |Joined(m) - {sid}| + Counted(m, sid)
  {
  }

  /**
   * Storing `name` under `sid` (a new entry or an overwrite) moves the
   * presence count by what the old entry contributed and what the new one does.
   */
  lemma CountAfterStore(m: Registry, sid: Sid, name: Name)
    ensures PresenceCount(m[sid := name])
         == PresenceCount(m) - Counted(m, sid) + (if Truthy(name) then 1 else 0)
  {
    var m' := m[sid := name];
    assert Joined(m') - {sid} == Joined(m) - {sid};
    CountSplit(m, sid);
    CountSplit(m', sid);
  }

  /** Removing `sid` lowers the count by exactly what its entry contributed. */
  lemma CountAfterRemove(m: Registry, sid: Sid)
    ensures PresenceCount(m - {sid}) == PresenceCount(m) - Counted(m, sid)
  {
    assert Joined(m - {sid}) == Joined(m) - {sid};
    CountSplit(m, sid);
  }
}
