/**
 * Sequences of inbound calls. The event loop handles one call at a time; a
 * call whose handler raises leaves the registry as it was.
 */
module Lifecycle {
  import opened Wrappers
  import opened Registry
  import opened Router

  /** The registry after one call. */
  function Apply(m: Registry, c: Call): Registry {
    match Handle(m, c)
    case Success(o) => o.registry
    case Failure(_) => m
  }

  /** The registry after every call of `trace`, in order, starting from `m`. */
  function Replay(m: Registry, trace: seq<Call>): Registry
    decreases |trace|
  {
    if trace == [] then m
    else Apply(Replay(m, trace[..|trace| - 1]), trace[|trace| - 1])
  }

  /** `trace[j]` is a disconnect of `s`. */
  predicate DisconnectOf(trace: seq<Call>, j: int, s: Sid)
    requires 0 <= j < |trace|
  {
    trace[j] == Call(s, Disconnect)
  }

  /**
   * `s` is connected and has not disconnected since: it was open at the
   * start and never disconnected, or some call connected it and no later
   * call disconnected it.
   */
  ghost predicate Live(open: set<Sid>, trace: seq<Call>, s: Sid) {
    || (s in open && forall j :: 0 <= j < |trace| ==> !DisconnectOf(trace, j, s))
    || exists i :: 0 <= i < |trace| && trace[i] == Call(s, Connect)
                   && forall j :: i < j < |trace| ==> !DisconnectOf(trace, j, s)
  }

  /** Appending a call that neither connects nor disconnects `s` leaves `s`'s liveness as it was. */
  lemma LiveUnaffected(open: set<Sid>, trace: seq<Call>, c: Call, s: Sid)
    requires c != Call(s, Connect) && c != Call(s, Disconnect)
    ensures Live(open, trace + [c], s) <==> Live(open, trace, s)
  {
    var t := trace + [c];
    assert forall j :: 0 <= j < |trace| ==> t[j] == trace[j];
    if Live(open, t, s) {
      if s in open && forall j :: 0 <= j < |t| ==> !DisconnectOf(t, j, s) {
        assert forall j :: 0 <= j < |trace| ==> !DisconnectOf(trace, j, s) by {
          forall j | 0 <= j < |trace| ensures !DisconnectOf(trace, j, s) {
            assert !DisconnectOf(t, j, s);
          }
        }
      } else {
        var i :| 0 <= i < |t| && t[i] == Call(s, Connect) && forall j :: i < j < |t| ==> !DisconnectOf(t, j, s);
        assert i < |trace| && trace[i] == Call(s, Connect);
        assert forall j :: i < j < |trace| ==> !DisconnectOf(trace, j, s) by {
          forall j | i < j < |trace| ensures !DisconnectOf(trace, j, s) {
            assert !DisconnectOf(t, j, s);
          }
        }
      }
      assert Live(open, trace, s);
    }
    if Live(open, trace, s) {
      assert !DisconnectOf(t, |trace|, s);
      if s in open && forall j :: 0 <= j < |trace| ==> !DisconnectOf(trace, j, s) {
        assert forall j :: 0 <= j < |t| ==> !DisconnectOf(t, j, s) by {
          forall j | 0 <= j < |t| ensures !DisconnectOf(t, j, s) {
            if j < |trace| { assert !DisconnectOf(trace, j, s); }
          }
        }
        assert Live(open, t, s);
      } else {
        var i :| 0 <= i < |trace| && trace[i] == Call(s, Connect) && forall j :: i < j < |trace| ==> !DisconnectOf(trace, j, s);
        assert t[i] == Call(s, Connect);
        assert forall j :: i < j < |t| ==> !DisconnectOf(t, j, s) by {
          forall j | i < j < |t| ensures !DisconnectOf(t, j, s) {
            if j < |trace| { assert !DisconnectOf(trace, j, s); }
          }
        }
        assert Live(open, t, s);
      }
    }
  }

  /**
   * After any trace, the registry holds exactly the connections that are
   * connected and have not disconnected since: a repeated connect adds no
   * second entry and a disconnect of an unknown id removes nothing.
   */
  lemma {:induction false} ReplayKeys(m: Registry, trace: seq<Call>)
    ensures forall s :: s in Replay(m, trace) <==> Live(m.Keys, trace, s)
    decreases |trace|
  {
    if trace != [] {
      var n := |trace| - 1;
      var prefix, c := trace[..n], trace[n];
      assert trace == prefix + [c];
      ReplayKeys(m, prefix);
      var before := Replay(m, prefix);
      assert Replay(m, trace).Keys == KeysAfter(before.Keys, c);
      forall s ensures s in Replay(m, trace) <==> Live(m.Keys, trace, s) {
        if c == Call(s, Connect) {
          assert trace[n] == Call(s, Connect);
        } else if c == Call(s, Disconnect) {
          assert DisconnectOf(trace, n, s);
        } else {
          LiveUnaffected(m.Keys, prefix, c, s);
        }
      }
    }
  }
}
