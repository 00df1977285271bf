/**
 * The client side of the node-ipc transport as the clients use it: the
 * connection `ipc.of.hub` with its listener table (`on`, `off`, and
 * `off(event, '*')`), what the client emitted through it, `ipc.config`, and
 * `ipc.disconnect`. A Promise is reduced to its settlement state.
 *
 * Handlers are values of a type `H` chosen by each client generation (its
 * closures). When an event arrives, the transport runs the handlers
 * registered for that event in registration order (`HandlersFor`).
 */
module Ipc {
  import opened Js

  datatype Listener<H> = Listener(event: string, handler: H)

  /** What happened on the client's side of a connection, in order: what it
      emitted (a payload-less `emit(event)` carries `undefined`), the calls
      into the caller's own handlers (identified by number; what they do is
      theirs), and the disconnect. */
  datatype Action = Emitted(event: string, payload: Value) | Called(handler: nat, data: Value) | Disconnected

  /** The handlers the transport runs for `event`, in registration order. */
  function HandlersFor<H(==)>(ls: seq<Listener<H>>, event: string): (r: seq<H>)
    ensures |r| <= |ls|
    ensures forall i :: 0 <= i < |r| ==> Listener(event, r[i]) in ls
    ensures forall i :: 0 <= i < |ls| && ls[i].event == event ==> ls[i].handler in r
  {
    if ls == [] then []
    else (if ls[0].event == event then [ls[0].handler] else []) + HandlersFor(ls[1..], event)
  }

  /** Every occurrence of `h` dropped from `hs`, the rest kept in order. */
  function Drop<H(==)>(hs: seq<H>, h: H): (r: seq<H>)
    ensures forall i :: 0 <= i < |r| ==> r[i] in hs && r[i] != h
    ensures forall i :: 0 <= i < |hs| && hs[i] != h ==> hs[i] in r
  {
    if hs == [] then []
    else (if hs[0] == h then [] else [hs[0]]) + Drop(hs[1..], h)
  }

  /** `off(event, handler)`: every registration of `handler` for `event` goes. */
  function Without<H(==)>(ls: seq<Listener<H>>, event: string, h: H): (r: seq<Listener<H>>)
    ensures forall i :: 0 <= i < |r| ==> r[i] in ls && r[i] != Listener(event, h)
    ensures forall i :: 0 <= i < |ls| && ls[i] != Listener(event, h) ==> ls[i] in r
  {
    if ls == [] then []
    else (if ls[0] == Listener(event, h) then [] else [ls[0]]) + Without(ls[1..], event, h)
  }

  /** `off(event, '*')`: every handler for `event` goes. */
  function WithoutEvent<H>(ls: seq<Listener<H>>, event: string): (r: seq<Listener<H>>)
    ensures forall i :: 0 <= i < |r| ==> r[i] in ls && r[i].event != event
    ensures forall i :: 0 <= i < |ls| && ls[i].event != event ==> ls[i] in r
  {
    if ls == [] then []
    else (if ls[0].event == event then [] else [ls[0]]) + WithoutEvent(ls[1..], event)
  }

  lemma HandlersForConcat<H>(a: seq<Listener<H>>, b: seq<Listener<H>>, event: string)
    ensures HandlersFor(a + b, event) == HandlersFor(a, event) + HandlersFor(b, event)
    decreases |a|
  {
    if a == [] {
      assert a + b == b;
    } else {
      assert (a + b)[1..] == a[1..] + b;
      HandlersForConcat(a[1..], b, event);
    }
  }

  /** `on` appends: the new handler runs after the ones already registered
      for its event, and no other event's handlers change. */
  lemma OnAppends<H>(ls: seq<Listener<H>>, l: Listener<H>, event: string)
    ensures HandlersFor(ls + [l], event) ==
      HandlersFor(ls, event) + (if l.event == event then [l.handler] else [])
  {
    HandlersForConcat(ls, [l], event);
    assert [l][1..] == [];
  }

  lemma {:induction false} DropConcat<H>(a: seq<H>, b: seq<H>, h: H)
    ensures Drop(a + b, h) == Drop(a, h) + Drop(b, h)
    decreases |a|
  {
    if a == [] {
      assert a + b == b;
    } else {
      assert (a + b)[0] == a[0] && (a + b)[1..] == a[1..] + b;
      DropConcat(a[1..], b, h);
    }
  }

  /** `off(event, h)` removes `h` from `event`'s handlers, keeps the others
      in order, and leaves every other event alone. */
  lemma {:induction false} OffDrops<H>(ls: seq<Listener<H>>, event: string, h: H, e: string)
    ensures HandlersFor(Without(ls, event, h), e) ==
      if e == event then Drop(HandlersFor(ls, e), h) else HandlersFor(ls, e)
  {
    if ls != [] {
      var hd, rest := ls[0], ls[1..];
      var kept: seq<Listener<H>> := if hd == Listener(event, h) then [] else [hd];
      var here: seq<H> := if hd.event == e then [hd.handler] else [];
      assert Without(ls, event, h) == kept + Without(rest, event, h);
      assert HandlersFor(ls, e) == here + HandlersFor(rest, e);
      OffDrops(rest, event, h, e);
      HandlersForConcat(kept, Without(rest, event, h), e);
      OnAppends([], hd, e);
      assert [] + [hd] == [hd];
      if e == event {
        DropConcat(here, HandlersFor(rest, e), h);
        assert Drop(here, h) == HandlersFor(kept, e) by {
          if hd.event == e {
            assert here[1..] == [];
          }
        }
      }
    }
  }

  /** `off(event, '*')` empties `event` and leaves every other event alone. */
  lemma {:induction false} OffAllEmpties<H>(ls: seq<Listener<H>>, event: string, e: string)
    ensures HandlersFor(WithoutEvent(ls, event), e) == if e == event then [] else HandlersFor(ls, e)
  {
    if ls != [] {
      OffAllEmpties(ls[1..], event, e);
      var rest := WithoutEvent(ls[1..], event);
      HandlersForConcat(if ls[0].event == event then [] else [ls[0]], rest, e);
      if ls[0].event != event {
        assert [ls[0]][1..] == [];
      }
    }
  }

  /** `ipc.of.hub` together with `ipc.config` and the client's side of the
      conversation. */
  class Channel<H(==)> {
    var listeners: seq<Listener<H>>
    var trace: seq<Action>
    var config: map<string, Value>

    /** `new IPC()`: no handlers, an empty trace, the library's default
        configuration. */
    constructor (defaults: map<string, Value>)
      ensures listeners == [] && trace == [] && config == defaults
    {
      listeners := [];
      trace := [];
      config := defaults;
    }

    method On(event: string, h: H)
      modifies this
      ensures listeners == old(listeners) + [Listener(event, h)]
      ensures trace == old(trace) && config == old(config)
    {
      listeners := listeners + [Listener(event, h)];
    }

    method Off(event: string, h: H)
      modifies this
      ensures listeners == Without(old(listeners), event, h)
      ensures trace == old(trace) && config == old(config)
    {
      listeners := Without(listeners, event, h);
    }

    method OffAll(event: string)
      modifies this
      ensures listeners == WithoutEvent(old(listeners), event)
      ensures trace == old(trace) && config == old(config)
    {
      listeners := WithoutEvent(listeners, event);
    }

    method Emit(event: string, payload: Value)
      modifies this
      ensures trace == old(trace) + [Emitted(event, payload)]
      ensures listeners == old(listeners) && config == old(config)
    {
      trace := trace + [Emitted(event, payload)];
    }

    /** A caller's handler runs with `data`. */
    method Call(handler: nat, data: Value)
      modifies this
      ensures trace == old(trace) + [Called(handler, data)]
      ensures listeners == old(listeners) && config == old(config)
    {
      trace := trace + [Called(handler, data)];
    }

    /** `ipc.disconnect('hub')`. */
    method Disconnect()
      modifies this
      ensures trace == old(trace) + [Disconnected]
      ensures listeners == old(listeners) && config == old(config)
    {
      trace := trace + [Disconnected];
    }

    /** `Object.assign(ipc.config, ...settings)`, later settings winning. */
    method Configure(settings: seq<map<string, Value>>)
      modifies this
      ensures config == Merged(old(config), settings)
      ensures listeners == old(listeners) && trace == old(trace)
    {
      var i := 0;
      while i < |settings|
        invariant 0 <= i <= |settings|
        invariant config == Merged(old(config), settings[..i])
        invariant listeners == old(listeners) && trace == old(trace)
      {
        MergedSnoc(old(config), settings[..i], settings[i]);
        assert settings[..i + 1] == settings[..i] + [settings[i]];
        config := Assign(config, settings[i]);
        i := i + 1;
      }
      assert settings[..i] == settings;
    }
  }

  /** `Object.assign(target, ...sources)` folded left to right. */
  function Merged(target: map<string, Value>, sources: seq<map<string, Value>>): (r: map<string, Value>)
    ensures target.Keys <= r.Keys
    ensures forall i :: 0 <= i < |sources| ==> sources[i].Keys <= r.Keys
    ensures |sources| > 0 ==> forall k :: k in sources[|sources| - 1] ==> r[k] == sources[|sources| - 1][k]
    decreases |sources|
  {
    if sources == [] then target
    else
      var rest := sources[1..];
      assert forall i :: 1 <= i < |sources| ==> sources[i] == rest[i - 1];
      Merged(Assign(target, sources[0]), rest)
  }

  lemma {:induction false} MergedSnoc(target: map<string, Value>, sources: seq<map<string, Value>>, last: map<string, Value>)
    ensures Merged(target, sources + [last]) == Assign(Merged(target, sources), last)
    decreases |sources|
  {
    if sources == [] {
      assert [last][1..] == [];
    } else {
      assert (sources + [last])[1..] == sources[1..] + [last];
      MergedSnoc(Assign(target, sources[0]), sources[1..], last);
    }
  }

  /** `Object.assign(target, a, b)`: every key of the three, `b` winning
      over `a` and both over `target`. */
  lemma MergedTwo(target: map<string, Value>, a: map<string, Value>, b: map<string, Value>)
    ensures Merged(target, [a, b]) == Assign(Assign(target, a), b)
    ensures forall k :: k in b ==> Merged(target, [a, b])[k] == b[k]
    ensures forall k :: k in a && k !in b ==> Merged(target, [a, b])[k] == a[k]
  {
    assert [a, b][1..] == [b] && [b][1..] == [];
    assert Merged(Assign(target, a), [b]) == Merged(Assign(Assign(target, a), b), []);
  }

  /** A promise's settlement: pending until the executor resolves or rejects
      it; the first settlement is final. */
  datatype Settlement<T> = Pending | Fulfilled(value: T) | Rejected(reason: Value)

  /** Calling `res`/`rej`: a settled promise ignores it. */
  function Settle<T>(current: Settlement<T>, next: Settlement<T>): (r: Settlement<T>)
    requires !next.Pending?
    ensures !r.Pending?
    ensures !current.Pending? ==> r == current
    ensures current.Pending? ==> r == next
  {
    if current.Pending? then next else current
  }

  /** The first settlement wins, and a settled promise never becomes pending
      again. */
  lemma FirstSettlementWins<T>(first: Settlement<T>, later: seq<Settlement<T>>)
    requires !first.Pending? && forall i :: 0 <= i < |later| ==> !later[i].Pending?
    ensures SettleAll(Settle(Pending, first), later) == first
    decreases |later|
  {
    if later != [] {
      FirstSettlementWins(first, later[1..]);
    }
  }

  function SettleAll<T>(current: Settlement<T>, nexts: seq<Settlement<T>>): Settlement<T>
    requires forall i :: 0 <= i < |nexts| ==> !nexts[i].Pending?
    decreases |nexts|
  {
    if nexts == [] then current else SettleAll(Settle(current, nexts[0]), nexts[1..])
  }

  class Promise<T> {
    var state: Settlement<T>

    /** `new Promise(executor)` whose executor has not settled it. */
    constructor ()
      ensures state == Pending
    {
      state := Pending;
    }

    /** `new Promise(executor)` whose executor threw `error`: already rejected. */
    constructor Thrown(error: Value)
      ensures state == Rejected(error)
    {
      state := Rejected(error);
    }

    method Resolve(v: T)
      modifies this
      ensures state == Settle(old(state), Fulfilled(v))
    {
      if state.Pending? {
        state := Fulfilled(v);
      }
    }

    method Reject(reason: Value)
      modifies this
      ensures state == Settle(old(state), Rejected(reason))
    {
      if state.Pending? {
        state := Rejected(reason);
      }
    }
  }
}
