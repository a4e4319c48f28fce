/** The named-event registry (`callback_manager.CallbackManager`) that every
    transport and every patcher owns.  Its source is not part of this model;
    the registry follows the documented contract: registering appends,
    unregistering removes the first matching handler, and a dispatch invokes
    the handlers registered for the event in registration order.  Handlers are
    named, not executed: a dispatch is recorded in `log` together with the
    handlers it invoked. */
module Callbacks {
  import opened Values

  /** The bound methods that the modelled core registers as callbacks. */
  datatype Handler =
    // transport.py
    | RelayOnConnected | DvcHandleP2p
    // session.py, SlaveSession
    | SlaveClientConnected | SlaveClientDisconnected | SlaveChannelJoined
    | SlaveTransportClosing | SlaveUpdateIndex
    | SlaveSpeak | SlaveBeep | SlavePlayWaveFile | SlaveCancelSpeech | SlaveGetLastIndex
    // session.py, MasterSession
    | MasterNvdaNotConnected | MasterClientConnected | MasterClientDisconnected
    | MasterChannelJoined | MasterSendBrailleInfo | MasterConnected | MasterDisconnected
    | MasterExecuteGesture
    // local_machine.py; `LocalBrailleWriteCells` is the attribute the master
    // session looks up, which no LocalMachine defines (`LocalDisplay` is
    // the `display` method it has)
    | LocalSpeak | LocalCancelSpeech | LocalBrailleWriteCells | LocalDisplay | LocalBeep | LocalPlayWave
    | LocalSendKey | LocalSetClipboardText | LocalSendSAS

  /** One `call_callbacks(event, **fields)` and the handlers it invoked, in order. */
  datatype Dispatch = Dispatch(event: string, fields: Fields, invoked: seq<Handler>)

  /** The handlers registered for `event` in `registry`. */
  function HandlersIn(registry: map<string, seq<Handler>>, event: string): seq<Handler> {
    if event in registry then registry[event] else []
  }

  /** `s` without its first occurrence of `x`. */
  function RemoveFirst<T(==)>(s: seq<T>, x: T): (r: seq<T>)
    ensures x !in s ==> r == s
    ensures x in s ==> |r| == |s| - 1
  {
    if s == [] then []
    else if s[0] == x then s[1..]
    else [s[0]] + RemoveFirst(s[1..], x)
  }

  lemma {:induction false} CountRemoveFirst<T>(s: seq<T>, x: T, y: T)
    ensures Count(RemoveFirst(s, x), y) ==
            if x == y && Count(s, y) > 0 then Count(s, y) - 1 else Count(s, y)
  {
    if s != [] && s[0] != x {
      CountRemoveFirst(s[1..], x, y);
      assert ([s[0]] + RemoveFirst(s[1..], x))[1..] == RemoveFirst(s[1..], x);
    }
    if s != [] && s[0] == x && x != y {
      // the occurrence removed is not one of y
    }
    if x == y {
      CountZeroIffAbsent(s, y);
    }
  }

  /** The registry after registering each `(event, handler)` pair in order. */
  function Registered(registry: map<string, seq<Handler>>, pairs: seq<(string, Handler)>): map<string, seq<Handler>>
    decreases |pairs|
  {
    if pairs == [] then registry
    else
      var (e, h) := pairs[|pairs| - 1];
      var r := Registered(registry, pairs[..|pairs| - 1]);
      r[e := HandlersIn(r, e) + [h]]
  }

  /** The registry after unregistering each `(event, handler)` pair in order. */
  function Unregistered(registry: map<string, seq<Handler>>, pairs: seq<(string, Handler)>): map<string, seq<Handler>>
    decreases |pairs|
  {
    if pairs == [] then registry
    else
      var (e, h) := pairs[|pairs| - 1];
      var r := Unregistered(registry, pairs[..|pairs| - 1]);
      if e in r then r[e := RemoveFirst(r[e], h)] else r
  }

  /** Registering adds one occurrence of a handler per pair naming it. */
  lemma {:induction false} CountRegistered(registry: map<string, seq<Handler>>, pairs: seq<(string, Handler)>,
                                           e: string, h: Handler)
    ensures Count(HandlersIn(Registered(registry, pairs), e), h) == Count(HandlersIn(registry, e), h) + Count(pairs, (e, h))
    decreases |pairs|
  {
    if pairs != [] {
      var init, last := pairs[..|pairs| - 1], pairs[|pairs| - 1];
      CountRegistered(registry, init, e, h);
      assert pairs == init + [last];
      CountAppend(init, [last], (e, h));
      if last.0 == e {
        CountAppend(HandlersIn(Registered(registry, init), e), [last.1], h);
      }
    }
  }

  /** Unregistering removes one occurrence per pair naming it, while any is
      left. */
  lemma {:induction false} CountUnregistered(registry: map<string, seq<Handler>>, pairs: seq<(string, Handler)>,
                                             e: string, h: Handler)
    ensures var c := Count(HandlersIn(registry, e), h);
            var k := Count(pairs, (e, h));
            Count(HandlersIn(Unregistered(registry, pairs), e), h) == if c >= k then c - k else 0
    decreases |pairs|
  {
    if pairs != [] {
      var init, last := pairs[..|pairs| - 1], pairs[|pairs| - 1];
      CountUnregistered(registry, init, e, h);
      assert pairs == init + [last];
      CountAppend(init, [last], (e, h));
      var r := Unregistered(registry, init);
      if last.0 == e && e in r {
        CountRemoveFirst(r[e], last.1, h);
      }
    }
  }

  predicate Distinct<T(==)>(s: seq<T>) {
    forall i, j :: 0 <= i < j < |s| ==> s[i] != s[j]
  }

  lemma {:induction false} CountDistinct<T>(s: seq<T>, i: nat)
    requires Distinct(s) && i < |s|
    ensures Count(s, s[i]) == 1
  {
    if i == 0 {
      assert s[0] !in s[1..] by {
        forall k | 0 <= k < |s| - 1 ensures s[1..][k] != s[0] {
          assert s[1..][k] == s[k + 1];
        }
      }
      CountZeroIffAbsent(s[1..], s[0]);
    } else {
      assert Distinct(s[1..]) by {
        forall a, b | 0 <= a < b < |s| - 1 ensures s[1..][a] != s[1..][b] {
          assert s[1..][a] == s[a + 1] && s[1..][b] == s[b + 1];
        }
      }
      CountDistinct(s[1..], i - 1);
      assert s[1..][i - 1] == s[i];
    }
  }

  /** Each pair's handler occurs exactly `n` times among its event's handlers. */
  ghost predicate Installed(registry: map<string, seq<Handler>>, pairs: seq<(string, Handler)>, n: nat) {
    forall i :: 0 <= i < |pairs| ==> Count(HandlersIn(registry, pairs[i].0), pairs[i].1) == n
  }

  /** Registering distinct pairs that are absent installs each exactly once. */
  lemma Install(registry: map<string, seq<Handler>>, pairs: seq<(string, Handler)>)
    requires Distinct(pairs) && Installed(registry, pairs, 0)
    ensures Installed(Registered(registry, pairs), pairs, 1)
  {
    forall i | 0 <= i < |pairs|
      ensures Count(HandlersIn(Registered(registry, pairs), pairs[i].0), pairs[i].1) == 1
    {
      CountRegistered(registry, pairs, pairs[i].0, pairs[i].1);
      CountDistinct(pairs, i);
    }
  }

  /** Unregistering distinct pairs that are installed once removes them all. */
  lemma Uninstall(registry: map<string, seq<Handler>>, pairs: seq<(string, Handler)>)
    requires Distinct(pairs) && Installed(registry, pairs, 1)
    ensures Installed(Unregistered(registry, pairs), pairs, 0)
  {
    forall i | 0 <= i < |pairs|
      ensures Count(HandlersIn(Unregistered(registry, pairs), pairs[i].0), pairs[i].1) == 0
    {
      CountUnregistered(registry, pairs, pairs[i].0, pairs[i].1);
      CountDistinct(pairs, i);
    }
  }

  class CallbackManager {
    var registry: map<string, seq<Handler>>
    var log: seq<Dispatch>

    constructor ()
      ensures registry == map[] && log == []
    {
      registry := map[];
      log := [];
    }

    function Handlers(event: string): seq<Handler>
      reads this
    {
      HandlersIn(registry, event)
    }

    method RegisterCallback(event: string, handler: Handler)
      modifies this`registry
      ensures registry == old(registry)[event := old(Handlers(event)) + [handler]]
    {
      registry := registry[event := Handlers(event) + [handler]];
    }

    /** Unregistering a handler that is not registered changes nothing. */
    method UnregisterCallback(event: string, handler: Handler)
      modifies this`registry
      ensures event in old(registry) ==>
                registry == old(registry)[event := RemoveFirst(old(registry)[event], handler)]
      ensures event !in old(registry) ==> registry == old(registry)
    {
      if event in registry {
        registry := registry[event := RemoveFirst(registry[event], handler)];
      }
    }

    /** `register_callback` for each pair, in order. */
    method RegisterAll(pairs: seq<(string, Handler)>)
      modifies this`registry
      ensures registry == Registered(old(registry), pairs)
    {
      for i := 0 to |pairs|
        invariant registry == Registered(old(registry), pairs[..i])
      {
        assert pairs[..i + 1][..i] == pairs[..i];
        var (event, handler) := pairs[i];
        RegisterCallback(event, handler);
      }
      assert pairs[..|pairs|] == pairs;
    }

    /** `unregister_callback` for each pair, in order. */
    method UnregisterAll(pairs: seq<(string, Handler)>)
      modifies this`registry
      ensures registry == Unregistered(old(registry), pairs)
    {
      for i := 0 to |pairs|
        invariant registry == Unregistered(old(registry), pairs[..i])
      {
        assert pairs[..i + 1][..i] == pairs[..i];
        var (event, handler) := pairs[i];
        UnregisterCallback(event, handler);
      }
      assert pairs[..|pairs|] == pairs;
    }

    method CallCallbacks(event: string, fields: Fields)
      modifies this`log
      ensures log == old(log) + [Dispatch(event, fields, Handlers(event))]
    {
      log := log + [Dispatch(event, fields, Handlers(event))];
    }
  }
}
