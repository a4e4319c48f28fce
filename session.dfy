/** session.py: the slave session, which patches the local screen reader
    while controlling peers are present and forwards its speech and sounds to
    them, and the master session, which announces braille gestures and polls
    the synthesizer index for the peer.  Both sessions are bound to a TCP
    transport. */
module Session {
  import opened Values
  import opened Callbacks
  import opened Host
  import opened Framing
  import opened Transport
  import opened Patcher

  // ---------------------------------------------------------------------------
  // SlaveSession

  /** What the slave session registers on its transport, in order. */
  const SlaveTransportCallbacks: seq<(string, Handler)> := [
    ("msg_client_joined", SlaveClientConnected), ("msg_client_left", SlaveClientDisconnected),
    ("msg_key", LocalSendKey), ("msg_index", SlaveUpdateIndex),
    ("transport_closing", SlaveTransportClosing), ("msg_channel_joined", SlaveChannelJoined),
    ("msg_set_clipboard_text", LocalSetClipboardText), ("msg_send_SAS", LocalSendSAS)]

  /** `patcher_callbacks` of the slave session. */
  const SlavePatchCallbacks: seq<(string, Handler)> := [
    ("speak", SlaveSpeak), ("beep", SlaveBeep), ("wave", SlavePlayWaveFile), ("cancel_speech", SlaveCancelSpeech)]

  lemma SlavePatchCallbacksDistinct()
    ensures Distinct(SlavePatchCallbacks)
  {
  }

  /** With remoteClient's machine every handler of the slave table exists. */
  lemma SlaveTransportCallbacksBound()
    ensures BoundPrefix(RemoteClientMachine, SlaveTransportCallbacks) == |SlaveTransportCallbacks|
  {
    BoundPrefixAll(RemoteClientMachine, SlaveTransportCallbacks);
  }

  /** Unicorn's machine has no `send_key`, so the slave registrations stop
      at `msg_key`, after two. */
  lemma UnicornSlaveStopsAtKey()
    ensures BoundPrefix(UnicornMachine, SlaveTransportCallbacks) == 2
    ensures SlaveTransportCallbacks[2].0 == "msg_key"
  {
    BoundPrefixAt(UnicornMachine, SlaveTransportCallbacks, 2);
  }

  /** The dict keys the ids are stored under: their representatives, since
      Python finds a key by `==` and hash. */
  function Keys(ids: seq<Value>): (r: seq<Key>)
    ensures |r| == |ids| && forall i :: 0 <= i < |ids| ==> r[i] == Canon(ids[i])
  {
    seq(|ids|, i requires 0 <= i < |ids| => Canon(ids[i]))
  }

  /** `masters` after `self.masters[user_id] = True` for each id, in order. */
  function Joined(masters: map<Key, bool>, ids: seq<Value>): map<Key, bool>
    decreases |ids|
  {
    if ids == [] then masters else Joined(masters, ids[..|ids| - 1])[Canon(ids[|ids| - 1]) := true]
  }

  lemma JoinedSnoc(masters: map<Key, bool>, ids: seq<Value>, id: Value)
    ensures Joined(masters, ids + [id]) == Joined(masters, ids)[Canon(id) := true]
  {
    assert (ids + [id])[..|ids|] == ids;
  }

  /** Every id joins as a master under its key; any other entry is as it was. */
  lemma {:induction false} JoinedSpec(masters: map<Key, bool>, ids: seq<Value>)
    ensures forall k :: k in Joined(masters, ids) <==> k in masters || k in Keys(ids)
    ensures forall k :: k in Keys(ids) ==> Joined(masters, ids)[k]
    ensures forall k :: k in masters && k !in Keys(ids) ==> Joined(masters, ids)[k] == masters[k]
    decreases |ids|
  {
    if ids != [] {
      var init, last := ids[..|ids| - 1], ids[|ids| - 1];
      JoinedSpec(masters, init);
      assert Keys(ids) == Keys(init) + [Canon(last)];
      assert forall k :: k in Keys(ids) <==> k in Keys(init) || k == Canon(last);
    }
  }

  /** With representatives as keys, `user_id in masters` (Python's lookup by
      `==`) is membership of the id's representative. */
  lemma MasterLookup(masters: map<Key, bool>, userId: Value)
    ensures Canon(userId) in masters <==> exists k :: k in masters && PyEq(k, userId)
  {
    CanonFixes(Canon(userId));
    assert Canon(userId) in masters ==> PyEq(Canon(userId), userId);
    if k :| k in masters && PyEq(k, userId) {
      CanonFixes(k);
    }
  }

  class SlaveSession {
    const transport: TcpTransport
    const patcher: SlavePatcher
    var masters: map<Key, bool>   // keyed by the ids' representatives
    var lastClientIndex: Value
    var patchCallbacksAdded: bool

    /** The patch callbacks are on the patcher exactly once while the flag is
        set and not at all otherwise. */
    ghost predicate Valid()
      reads this, patcher, patcher.callbacks
    {
      && patcher.Valid()
      && patcher.callbacks != transport.cm
      && Installed(patcher.callbacks.registry, SlavePatchCallbacks, if patchCallbacksAdded then 1 else 0)
    }

    constructor (transport: TcpTransport, host: Host)
      modifies transport.cm`registry
      ensures Valid() && this.transport == transport && fresh(patcher) && fresh(patcher.callbacks)
      ensures patcher.host == host && patcher.Saved() == NothingSaved
      ensures masters == map[] && lastClientIndex == VNone && !patchCallbacksAdded
      ensures transport.cm.registry == Registered(old(transport.cm.registry), SlaveTransportCallbacks)
    {
      this.transport := transport;
      masters := map[];
      lastClientIndex := VNone;
      patcher := new SlavePatcher(host);
      patchCallbacksAdded := false;
      new;
      transport.cm.RegisterAll(SlaveTransportCallbacks);
    }

    /** add_patch_callbacks */
    method AddPatchCallbacks()
      modifies patcher.callbacks`registry, patcher`lastIndexCallback
      ensures patcher.callbacks.registry == Registered(old(patcher.callbacks.registry), SlavePatchCallbacks)
      ensures patcher.lastIndexCallback == Some(SlaveGetLastIndex)
    {
      patcher.callbacks.RegisterAll(SlavePatchCallbacks);
      patcher.SetLastIndexCallback(SlaveGetLastIndex);
    }

    /** remove_patch_callbacks */
    method RemovePatchCallbacks()
      modifies patcher.callbacks`registry
      ensures patcher.callbacks.registry == Unregistered(old(patcher.callbacks.registry), SlavePatchCallbacks)
    {
      patcher.callbacks.UnregisterAll(SlavePatchCallbacks);
    }

    /** handle_client_connected: patch, install the patch callbacks once,
        beep through the original `tones.beep`, and record the master. */
    method HandleClientConnected(userId: Value)
      requires Valid()
      modifies patcher.host`slots, patcher.host`effects, patcher`origSpeak, patcher`origCancel,
               patcher`origSetSynth, patcher`origBeep, patcher`origPlayWaveFile, patcher`lastIndexCallback,
               patcher.callbacks`registry, this`masters, this`patchCallbacksAdded
      ensures Valid() && patchCallbacksAdded
      ensures (patcher.host.slots, patcher.Saved()) == SlavePatched(old(patcher.host.slots), old(patcher.Saved()))
      ensures patcher.callbacks.registry ==
              if old(patchCallbacksAdded) then old(patcher.callbacks.registry)
              else Registered(old(patcher.callbacks.registry), SlavePatchCallbacks)
      ensures !old(patchCallbacksAdded) ==> patcher.lastIndexCallback == Some(SlaveGetLastIndex)
      ensures old(patchCallbacksAdded) ==> patcher.lastIndexCallback == old(patcher.lastIndexCallback)
      ensures masters == old(masters)[Canon(userId) := true]
      ensures patcher.host.effects == old(patcher.host.effects) +
              [Call(SlavePatched(old(patcher.host.slots), old(patcher.Saved())).1.beep.value, [VInt(1000), VInt(300)])]
    {
      patcher.Patch();
      if !patchCallbacksAdded {
        SlavePatchCallbacksDistinct();
        Install(patcher.callbacks.registry, SlavePatchCallbacks);
        AddPatchCallbacks();
        patchCallbacksAdded := true;
      }
      patcher.host.Perform(Call(patcher.origBeep.value, [VInt(1000), VInt(300)]));
      Remember(userId);
    }

    /** `self.masters[user_id] = True`: the id's representative becomes a key. */
    method Remember(userId: Value)
      modifies this`masters
      ensures masters == old(masters)[Canon(userId) := true]
    {
      masters := masters[Canon(userId) := true];
    }

    /** handle_channel_joined: handle_client_connected for each id, in
        order.  Patching and installing happen once, every id becomes a
        master, and there is one beep per id. */
    method HandleChannelJoined(userIds: seq<Value>)
      requires Valid()
      modifies patcher.host`slots, patcher.host`effects, patcher`origSpeak, patcher`origCancel,
               patcher`origSetSynth, patcher`origBeep, patcher`origPlayWaveFile, patcher`lastIndexCallback,
               patcher.callbacks`registry, this`masters, this`patchCallbacksAdded
      ensures Valid()
      ensures patchCallbacksAdded == (old(patchCallbacksAdded) || userIds != [])
      ensures (patcher.host.slots, patcher.Saved()) ==
              if userIds == [] then (old(patcher.host.slots), old(patcher.Saved()))
              else SlavePatched(old(patcher.host.slots), old(patcher.Saved()))
      ensures patcher.callbacks.registry ==
              if old(patchCallbacksAdded) || userIds == [] then old(patcher.callbacks.registry)
              else Registered(old(patcher.callbacks.registry), SlavePatchCallbacks)
      ensures forall k :: k in masters <==> k in old(masters) || k in Keys(userIds)
      ensures forall k :: k in Keys(userIds) ==> masters[k]
      ensures forall k :: k in old(masters) && k !in Keys(userIds) ==> masters[k] == old(masters)[k]
      ensures patcher.host.effects == old(patcher.host.effects) +
              Repeat(Call(SlavePatched(old(patcher.host.slots), old(patcher.Saved())).1.beep.value,
                          [VInt(1000), VInt(300)]), |userIds|)
    {
      ghost var s0, v0 := patcher.host.slots, patcher.Saved();
      ghost var patched := SlavePatched(s0, v0);
      ghost var beep := Call(patched.1.beep.value, [VInt(1000), VInt(300)]);
      ghost var r0 := patcher.callbacks.registry;
      ghost var installed := if patchCallbacksAdded then r0 else Registered(r0, SlavePatchCallbacks);
      SlavePatchIdempotent(s0, v0);
      for i := 0 to |userIds|
        invariant Valid()
        invariant patchCallbacksAdded == (old(patchCallbacksAdded) || i > 0)
        invariant (patcher.host.slots, patcher.Saved()) == if i == 0 then (s0, v0) else patched
        invariant patcher.callbacks.registry == if i == 0 then r0 else installed
        invariant masters == Joined(old(masters), userIds[..i])
        invariant patcher.host.effects == old(patcher.host.effects) + Repeat(beep, i)
      {
        assert userIds[..i + 1] == userIds[..i] + [userIds[i]];
        JoinedSnoc(old(masters), userIds[..i], userIds[i]);
        HandleClientConnected(userIds[i]);
      }
      assert userIds[..|userIds|] == userIds;
      JoinedSpec(old(masters), userIds);
    }

    /** handle_transport_closing: unpatch, and remove the patch callbacks if
        they were added. */
    method HandleTransportClosing()
      requires Valid()
      modifies patcher.host`slots, patcher`origSpeak, patcher`origCancel, patcher`origSetSynth,
               patcher`origBeep, patcher`origPlayWaveFile, patcher.callbacks`registry, this`patchCallbacksAdded
      ensures Valid() && !patchCallbacksAdded && patcher.Saved() == NothingSaved
      ensures (patcher.host.slots, patcher.Saved()) == SlaveUnpatched(old(patcher.host.slots), old(patcher.Saved()))
      ensures patcher.callbacks.registry ==
              if old(patchCallbacksAdded) then Unregistered(old(patcher.callbacks.registry), SlavePatchCallbacks)
              else old(patcher.callbacks.registry)
    {
      patcher.Unpatch();
      if patchCallbacksAdded {
        SlavePatchCallbacksDistinct();
        Uninstall(patcher.callbacks.registry, SlavePatchCallbacks);
        RemovePatchCallbacks();
        patchCallbacksAdded := false;
      }
    }

    /** handle_transport_disconnected: beep through the original
        `tones.beep`, then unpatch.  With no original saved the call raises
        before anything happens. */
    method HandleTransportDisconnected() returns (raised: bool)
      requires Valid()
      modifies patcher.host`slots, patcher.host`effects, patcher`origSpeak, patcher`origCancel,
               patcher`origSetSynth, patcher`origBeep, patcher`origPlayWaveFile
      ensures Valid()
      ensures raised == old(patcher.origBeep).None?
      ensures raised ==> patcher.host.effects == old(patcher.host.effects)
                         && patcher.host.slots == old(patcher.host.slots) && patcher.Saved() == old(patcher.Saved())
      ensures !raised ==> patcher.host.effects == old(patcher.host.effects) +
                          [Call(old(patcher.origBeep).value, [VInt(1000), VInt(300)])]
      ensures !raised ==> (patcher.host.slots, patcher.Saved()) == SlaveUnpatched(old(patcher.host.slots), old(patcher.Saved()))
    {
      if patcher.origBeep.None? {
        return true;
      }
      patcher.host.Perform(Call(patcher.origBeep.value, [VInt(1000), VInt(300)]));
      patcher.Unpatch();
      raised := false;
    }

    /** handle_client_disconnected, as written: beep, forget the master
        (raising if it is unknown), and unpatch when no master is left.  The
        patch callbacks and their flag are left as they are. */
    method HandleClientDisconnected(userId: Value) returns (raised: bool)
      requires Valid()
      modifies patcher.host`slots, patcher.host`effects, patcher`origSpeak, patcher`origCancel,
               patcher`origSetSynth, patcher`origBeep, patcher`origPlayWaveFile, this`masters
      ensures Valid() && patchCallbacksAdded == old(patchCallbacksAdded)
      ensures raised == (old(patcher.origBeep).None? || Canon(userId) !in old(masters))
      ensures patcher.host.effects == old(patcher.host.effects) +
              if old(patcher.origBeep).None? then [] else [Call(old(patcher.origBeep).value, [VInt(108), VInt(300)])]
      ensures masters == if raised then old(masters) else old(masters) - {Canon(userId)}
      ensures (patcher.host.slots, patcher.Saved()) ==
              if !raised && masters == map[] then SlaveUnpatched(old(patcher.host.slots), old(patcher.Saved()))
              else (old(patcher.host.slots), old(patcher.Saved()))
    {
      if patcher.origBeep.None? {
        return true;
      }
      patcher.host.Perform(Call(patcher.origBeep.value, [VInt(108), VInt(300)]));
      if Canon(userId) !in masters {
        return true;
      }
      masters := masters - {Canon(userId)};
      if masters == map[] {
        patcher.Unpatch();
      }
      raised := false;
    }

    /** speak: the speech sequence goes to the peer. */
    method Speak(speechSequence: Value)
      modifies transport`queue
      ensures transport.queue == old(transport.queue) +
              if transport.connected then [transport.serialize(Message("speak", map["sequence" := speechSequence]))] else []
    {
      transport.Send("speak", map["sequence" := speechSequence]);
    }

    /** cancel_speech */
    method CancelSpeech()
      modifies transport`queue
      ensures transport.queue == old(transport.queue) +
              if transport.connected then [transport.serialize(Message("cancel", map[]))] else []
    {
      transport.Send("cancel", map[]);
    }

    /** beep: sent as a `tone` message; the balance defaults to 50/50. */
    method Beep(hz: Value, length: Value, left: Value := VInt(50), right: Value := VInt(50))
      modifies transport`queue
      ensures transport.queue == old(transport.queue) +
              if transport.connected
              then [transport.serialize(Message("tone", map["hz" := hz, "length" := length, "left" := left, "right" := right]))]
              else []
    {
      transport.Send("tone", map["hz" := hz, "length" := length, "left" := left, "right" := right]);
    }

    /** playWaveFile: sent as a `wave` message. */
    method PlayWaveFile(fileName: Value, async: Value := VBool(true))
      modifies transport`queue
      ensures transport.queue == old(transport.queue) +
              if transport.connected
              then [transport.serialize(Message("wave", map["fileName" := fileName, "async" := async]))]
              else []
    {
      transport.Send("wave", map["fileName" := fileName, "async" := async]);
    }

    /** _get_lastIndex */
    function GetLastIndex(): Value
      reads this
    {
      lastClientIndex
    }

    /** update_index */
    method UpdateIndex(index: Value := VNone)
      modifies this`lastClientIndex
      ensures GetLastIndex() == index
    {
      lastClientIndex := index;
    }
  }

  // ---------------------------------------------------------------------------
  // send_indexes

  /** One poll of the synthesizer: none while synthesizers are switched, or
      the index it reports. */
  datatype Poll = NoSynth | Polled(index: Value)

  /** The indices `send_indexes` sends for the given polls when `last` is
      the index last sent. */
  function IndexChanges(polls: seq<Poll>, last: Value): seq<Value>
    decreases |polls|
  {
    if polls == [] then []
    else match polls[0]
      case NoSynth => IndexChanges(polls[1..], last)
      case Polled(v) => if !PyEq(v, last) then [v] + IndexChanges(polls[1..], v) else IndexChanges(polls[1..], last)
  }

  /** One poll of the loop: a reading that differs from `last` is sent. */
  lemma IndexChangesStep(polls: seq<Poll>, i: nat, last: Value)
    requires i < |polls|
    ensures IndexChanges(polls[i..], last) ==
            if polls[i].Polled? && !PyEq(polls[i].index, last)
            then [polls[i].index] + IndexChanges(polls[i + 1..], polls[i].index)
            else IndexChanges(polls[i + 1..], last)
  {
    assert polls[i..][0] == polls[i] && polls[i..][1..] == polls[i + 1..];
  }

  /** The loop's account of what is still to be sent, one poll later. */
  lemma IndexChangesAdvance(polls: seq<Poll>, i: nat, last: Value, sent: seq<Value>)
    requires i < |polls| && IndexChanges(polls, VNone) == sent + IndexChanges(polls[i..], last)
    ensures polls[i].Polled? && !PyEq(polls[i].index, last) ==>
              IndexChanges(polls, VNone) == (sent + [polls[i].index]) + IndexChanges(polls[i + 1..], polls[i].index)
    ensures !(polls[i].Polled? && !PyEq(polls[i].index, last)) ==>
              IndexChanges(polls, VNone) == sent + IndexChanges(polls[i + 1..], last)
  {
    IndexChangesStep(polls, i, last);
    if polls[i].Polled? && !PyEq(polls[i].index, last) {
      var v := polls[i].index;
      assert sent + ([v] + IndexChanges(polls[i + 1..], v)) == (sent + [v]) + IndexChanges(polls[i + 1..], v);
    }
  }

  /** The indices reported, skipping the polls with no synthesizer. */
  function Readings(polls: seq<Poll>): (r: seq<Value>)
    ensures |r| <= |polls|
  {
    if polls == [] then []
    else match polls[0]
      case NoSynth => Readings(polls[1..])
      case Polled(v) => [v] + Readings(polls[1..])
  }

  /** `s` with every run of neighbours equal under Python's `==` reduced to
      its first element. */
  function Compress(s: seq<Value>): seq<Value>
    decreases |s|
  {
    if |s| <= 1 then s
    else if PyEq(s[0], s[1]) then Compress([s[0]] + s[2..])
    else [s[0]] + Compress(s[1..])
  }

  predicate NoAdjacentDuplicates(s: seq<Value>) {
    forall i :: 0 <= i < |s| - 1 ==> !PyEq(s[i], s[i + 1])
  }

  /** The change detection is run-compression of the readings, with the
      index last sent in front. */
  lemma {:induction false} IndexChangesCompress(polls: seq<Poll>, last: Value)
    ensures Compress([last] + Readings(polls)) == [last] + IndexChanges(polls, last)
    decreases |polls|
  {
    if polls != [] {
      match polls[0]
      case NoSynth =>
        IndexChangesCompress(polls[1..], last);
      case Polled(v) =>
        var rest := Readings(polls[1..]);
        assert [last] + Readings(polls) == [last] + ([v] + rest);
        assert ([last] + ([v] + rest))[1..] == [v] + rest;
        if PyEq(v, last) {
          assert ([last] + ([v] + rest))[2..] == rest;
          IndexChangesCompress(polls[1..], last);
        } else {
          IndexChangesCompress(polls[1..], v);
        }
    }
  }

  /** No index is sent twice in a row, and the first differs from `last`. */
  lemma {:induction false} IndexChangesChange(polls: seq<Poll>, last: Value)
    ensures var r := IndexChanges(polls, last);
            NoAdjacentDuplicates(r) && (r != [] ==> !PyEq(r[0], last))
    decreases |polls|
  {
    if polls != [] {
      match polls[0]
      case NoSynth =>
        IndexChangesChange(polls[1..], last);
      case Polled(v) =>
        if !PyEq(v, last) {
          IndexChangesChange(polls[1..], v);
          var t := IndexChanges(polls[1..], v);
          assert forall i :: 1 <= i < |[v] + t| ==> ([v] + t)[i] == t[i - 1];
        } else {
          IndexChangesChange(polls[1..], last);
        }
    }
  }

  /** The serialized `index` messages for the given indices. */
  function IndexRecords(ser: Fields -> string, indices: seq<Value>): seq<string>
    decreases |indices|
  {
    if indices == [] then []
    else IndexRecords(ser, indices[..|indices| - 1]) + [ser(Message("index", map["index" := indices[|indices| - 1]]))]
  }

  lemma IndexRecordsSnoc(ser: Fields -> string, indices: seq<Value>, index: Value)
    ensures IndexRecords(ser, indices + [index]) == IndexRecords(ser, indices) + [ser(Message("index", map["index" := index]))]
  {
    assert (indices + [index])[..|indices|] == indices;
  }

  /** One `index` message per index, in order. */
  lemma {:induction false} IndexRecordsAt(ser: Fields -> string, indices: seq<Value>)
    ensures |IndexRecords(ser, indices)| == |indices|
    ensures forall k :: 0 <= k < |indices| ==> IndexRecords(ser, indices)[k] == ser(Message("index", map["index" := indices[k]]))
    decreases |indices|
  {
    if indices != [] {
      var front := indices[..|indices| - 1];
      IndexRecordsAt(ser, front);
      assert forall k :: 0 <= k < |front| ==> front[k] == indices[k];
    }
  }

  // ---------------------------------------------------------------------------
  // MasterSession

  /** The `LocalMachine` a session is given (session.py:11-12): the one in
      remoteClient/local_machine.py, or the one in unicorn/local_machine.py,
      which has no `play_wave`, `beep`, `send_key`, `set_clipboard_text` or
      `send_SAS`. */
  datatype Machine = RemoteClientMachine | UnicornMachine

  /** Whether the bound method `local_machine.<name>` or `self.<name>` that a
      registration evaluates exists with machine `m`.  `braille_write_cells`
      exists with neither machine. */
  predicate Bound(m: Machine, h: Handler) {
    && h != LocalBrailleWriteCells
    && (m.UnicornMachine? ==>
         !(h.LocalBeep? || h.LocalPlayWave? || h.LocalSendKey? || h.LocalSetClipboardText? || h.LocalSendSAS?))
  }

  /** The number of leading pairs whose handler exists: `register_callback`
      calls made in turn stop with an AttributeError at the first handler
      that does not. */
  function BoundPrefix(m: Machine, pairs: seq<(string, Handler)>): (n: nat)
    ensures n <= |pairs|
    ensures forall k :: 0 <= k < n ==> Bound(m, pairs[k].1)
    ensures n < |pairs| ==> !Bound(m, pairs[n].1)
  {
    if pairs == [] || !Bound(m, pairs[0].1) then 0 else 1 + BoundPrefix(m, pairs[1..])
  }

  /** When every handler exists, all registrations are made. */
  lemma BoundPrefixAll(m: Machine, pairs: seq<(string, Handler)>)
    requires forall k :: 0 <= k < |pairs| ==> Bound(m, pairs[k].1)
    ensures BoundPrefix(m, pairs) == |pairs|
  {
  }

  /** The registrations stop at `n` when the handlers before it exist and
      the one at `n` does not. */
  lemma {:induction false} BoundPrefixAt(m: Machine, pairs: seq<(string, Handler)>, n: nat)
    requires n < |pairs| && !Bound(m, pairs[n].1)
    requires forall k :: 0 <= k < n ==> Bound(m, pairs[k].1)
    ensures BoundPrefix(m, pairs) == n
  {
    if n > 0 {
      BoundPrefixAt(m, pairs[1..], n - 1);
    }
  }

  /** Registrations as the session constructors write them: each handler is
      looked up before `register_callback` is called, so the first missing
      one raises and leaves the earlier registrations in place. */
  method RegisterLookedUp(cm: CallbackManager, m: Machine, pairs: seq<(string, Handler)>) returns (raised: bool)
    modifies cm`registry
    ensures raised == (BoundPrefix(m, pairs) < |pairs|)
    ensures cm.registry == Registered(old(cm.registry), pairs[..BoundPrefix(m, pairs)])
  {
    var i := 0;
    while i < |pairs|
      invariant i <= BoundPrefix(m, pairs)
      invariant cm.registry == Registered(old(cm.registry), pairs[..i])
    {
      if !Bound(m, pairs[i].1) {
        return true;
      }
      assert pairs[..i + 1][..i] == pairs[..i];
      var (event, handler) := pairs[i];
      cm.RegisterCallback(event, handler);
      i := i + 1;
    }
    raised := false;
  }

  /** What `MasterSession.__init__` registers on its transport, as written:
      the third entry is `local_machine.braille_write_cells`. */
  const MasterTransportCallbacksAsWritten: seq<(string, Handler)> := [
    ("msg_speak", LocalSpeak), ("msg_cancel", LocalCancelSpeech),
    ("msg_braille_write_cells", LocalBrailleWriteCells), ("msg_tone", LocalBeep), ("msg_wave", LocalPlayWave),
    ("msg_nvda_not_connected", MasterNvdaNotConnected), ("msg_client_joined", MasterClientConnected),
    ("msg_client_left", MasterClientDisconnected), ("msg_channel_joined", MasterChannelJoined),
    ("msg_set_clipboard_text", LocalSetClipboardText), ("msg_send_braille_info", MasterSendBrailleInfo),
    ("transport_connected", MasterConnected), ("transport_disconnected", MasterDisconnected)]

  /** The as-written registrations stop after `msg_speak` and `msg_cancel`,
      whichever machine the session is given. */
  lemma AsWrittenStopsAtBrailleWriteCells(m: Machine)
    ensures BoundPrefix(m, MasterTransportCallbacksAsWritten) == 2
    ensures MasterTransportCallbacksAsWritten[..2] == [("msg_speak", LocalSpeak), ("msg_cancel", LocalCancelSpeech)]
  {
    BoundPrefixAt(m, MasterTransportCallbacksAsWritten, 2);
  }

  /** `MasterSession.__init__` as written: after the patcher is made and two
      handlers registered, the lookup of `braille_write_cells` raises. */
  method MasterSessionInitAsWritten(transport: TcpTransport, m: Machine) returns (raised: bool)
    modifies transport.cm`registry
    ensures raised
    ensures transport.cm.registry == Registered(old(transport.cm.registry),
                                                [("msg_speak", LocalSpeak), ("msg_cancel", LocalCancelSpeech)])
  {
    AsWrittenStopsAtBrailleWriteCells(m);
    raised := RegisterLookedUp(transport.cm, m, MasterTransportCallbacksAsWritten);
  }

  /** What the master session registers on its transport, in order, with cell
      updates going to `local_machine.display`, the method both machines
      define for them. */
  const MasterTransportCallbacks: seq<(string, Handler)> := [
    ("msg_speak", LocalSpeak), ("msg_cancel", LocalCancelSpeech),
    ("msg_braille_write_cells", LocalDisplay), ("msg_tone", LocalBeep), ("msg_wave", LocalPlayWave),
    ("msg_nvda_not_connected", MasterNvdaNotConnected), ("msg_client_joined", MasterClientConnected),
    ("msg_client_left", MasterClientDisconnected), ("msg_channel_joined", MasterChannelJoined),
    ("msg_set_clipboard_text", LocalSetClipboardText), ("msg_send_braille_info", MasterSendBrailleInfo),
    ("transport_connected", MasterConnected), ("transport_disconnected", MasterDisconnected)]

  /** With the corrected table and remoteClient's machine every lookup
      succeeds, so all thirteen registrations are made. */
  lemma MasterTransportCallbacksBound()
    ensures BoundPrefix(RemoteClientMachine, MasterTransportCallbacks) == |MasterTransportCallbacks|
  {
    BoundPrefixAll(RemoteClientMachine, MasterTransportCallbacks);
  }

  /** Unicorn's machine has no `beep`, so even the corrected registrations
      stop at `msg_tone`. */
  lemma UnicornMasterStopsAtTone()
    ensures BoundPrefix(UnicornMachine, MasterTransportCallbacks) == 3
    ensures MasterTransportCallbacks[3].0 == "msg_tone"
  {
    BoundPrefixAt(UnicornMachine, MasterTransportCallbacks, 3);
  }

  /** `patcher_callbacks` of the master session. */
  const MasterPatchCallbacks: seq<(string, Handler)> := [
    ("execute_gesture", MasterExecuteGesture), ("set_display", MasterSendBrailleInfo)]

  lemma MasterPatchCallbacksDistinct()
    ensures Distinct(MasterPatchCallbacks)
  {
  }

  class MasterSession {
    const transport: TcpTransport
    const patcher: MasterPatcher
    var indexThread: bool         // index_thread is not None
    var pollersStarted: nat       // index threads started so far
    var patchCallbacksAdded: bool

    ghost predicate Valid()
      reads this, patcher.callbacks
    {
      && patcher.callbacks != transport.cm
      && Installed(patcher.callbacks.registry, MasterPatchCallbacks, if patchCallbacksAdded then 1 else 0)
    }

    /** `__init__` with cell updates registered to `local_machine.display`
        (`MasterTransportCallbacks`); as written it raises part way, which
        `MasterSessionInitAsWritten` states. */
    constructor (transport: TcpTransport, host: Host)
      modifies transport.cm`registry
      ensures Valid() && this.transport == transport && fresh(patcher) && fresh(patcher.callbacks)
      ensures patcher.host == host && patcher.origSetDisplayByName == None && patcher.origExecuteGesture == None
      ensures !indexThread && pollersStarted == 0 && !patchCallbacksAdded
      ensures transport.cm.registry == Registered(old(transport.cm.registry), MasterTransportCallbacks)
    {
      this.transport := transport;
      indexThread := false;
      pollersStarted := 0;
      patcher := new MasterPatcher(host);
      patchCallbacksAdded := false;
      new;
      transport.cm.RegisterAll(MasterTransportCallbacks);
    }

    /** handle_nvda_not_connected */
    method HandleNvdaNotConnected()
      modifies patcher.host`effects
      ensures patcher.host.effects == old(patcher.host.effects) +
              [Call(CancelSpeechFn, []), Call(UiMessageFn, [VStr("Remote NVDA not connected.")])]
    {
      patcher.host.Perform(Call(CancelSpeechFn, []));
      patcher.host.Perform(Call(UiMessageFn, [VStr("Remote NVDA not connected.")]));
    }

    /** handle_connected: a poller is started only when none is running. */
    method HandleConnected()
      modifies this`indexThread, this`pollersStarted
      ensures indexThread
      ensures pollersStarted == old(pollersStarted) + if old(indexThread) then 0 else 1
    {
      if indexThread {
        return;
      }
      indexThread := true;
      pollersStarted := pollersStarted + 1;
    }

    /** handle_disconnected */
    method HandleDisconnected()
      modifies this`indexThread
      ensures !indexThread
    {
      indexThread := false;
    }

    method AddPatchCallbacks()
      modifies patcher.callbacks`registry
      ensures patcher.callbacks.registry == Registered(old(patcher.callbacks.registry), MasterPatchCallbacks)
    {
      patcher.callbacks.RegisterAll(MasterPatchCallbacks);
    }

    method RemovePatchCallbacks()
      modifies patcher.callbacks`registry
      ensures patcher.callbacks.registry == Unregistered(old(patcher.callbacks.registry), MasterPatchCallbacks)
    {
      patcher.callbacks.UnregisterAll(MasterPatchCallbacks);
    }

    /** handle_client_connected: patch the display setter, install the patch
        callbacks once, and beep through the current `tones.beep`. */
    method HandleClientConnected(userId: Value)
      requires Valid()
      modifies patcher.host`slots, patcher.host`effects, patcher`origSetDisplayByName,
               patcher.callbacks`registry, this`patchCallbacksAdded
      ensures Valid() && patchCallbacksAdded
      ensures (patcher.host.slots.setDisplayByName, patcher.origSetDisplayByName) ==
              PatchSlot(old(patcher.host.slots.setDisplayByName), old(patcher.origSetDisplayByName), SetDisplayByNameHook)
      ensures patcher.host.slots == old(patcher.host.slots).(setDisplayByName := patcher.host.slots.setDisplayByName)
      ensures patcher.callbacks.registry ==
              if old(patchCallbacksAdded) then old(patcher.callbacks.registry)
              else Registered(old(patcher.callbacks.registry), MasterPatchCallbacks)
      ensures patcher.host.effects == old(patcher.host.effects) + [Call(old(patcher.host.slots.tonesBeep), [VInt(1000), VInt(300)])]
    {
      patcher.PatchSetDisplay();
      if !patchCallbacksAdded {
        MasterPatchCallbacksDistinct();
        Install(patcher.callbacks.registry, MasterPatchCallbacks);
        AddPatchCallbacks();
        patchCallbacksAdded := true;
      }
      patcher.host.Perform(Call(patcher.host.slots.tonesBeep, [VInt(1000), VInt(300)]));
    }

    /** handle_channel_joined: handle_client_connected for each id, in order. */
    method HandleChannelJoined(userIds: seq<Value>)
      requires Valid()
      modifies patcher.host`slots, patcher.host`effects, patcher`origSetDisplayByName,
               patcher.callbacks`registry, this`patchCallbacksAdded
      ensures Valid()
      ensures patchCallbacksAdded == (old(patchCallbacksAdded) || userIds != [])
      ensures (patcher.host.slots.setDisplayByName, patcher.origSetDisplayByName) ==
              if userIds == [] then (old(patcher.host.slots.setDisplayByName), old(patcher.origSetDisplayByName))
              else PatchSlot(old(patcher.host.slots.setDisplayByName), old(patcher.origSetDisplayByName), SetDisplayByNameHook)
      ensures patcher.host.slots == old(patcher.host.slots).(setDisplayByName := patcher.host.slots.setDisplayByName)
      ensures patcher.callbacks.registry ==
              if old(patchCallbacksAdded) || userIds == [] then old(patcher.callbacks.registry)
              else Registered(old(patcher.callbacks.registry), MasterPatchCallbacks)
      ensures patcher.host.effects == old(patcher.host.effects) +
              Repeat(Call(old(patcher.host.slots.tonesBeep), [VInt(1000), VInt(300)]), |userIds|)
    {
      ghost var slot0, saved0 := patcher.host.slots.setDisplayByName, patcher.origSetDisplayByName;
      ghost var patched := PatchSlot(slot0, saved0, SetDisplayByNameHook);
      PatchSlotIdempotent(slot0, saved0, SetDisplayByNameHook);
      for i := 0 to |userIds|
        invariant Valid()
        invariant patchCallbacksAdded == (old(patchCallbacksAdded) || i > 0)
        invariant (patcher.host.slots.setDisplayByName, patcher.origSetDisplayByName) ==
                  if i == 0 then (slot0, saved0) else patched
        invariant patcher.host.slots == old(patcher.host.slots).(setDisplayByName := patcher.host.slots.setDisplayByName)
        invariant patcher.callbacks.registry ==
                  if old(patchCallbacksAdded) || i == 0 then old(patcher.callbacks.registry)
                  else Registered(old(patcher.callbacks.registry), MasterPatchCallbacks)
        invariant patcher.host.effects == old(patcher.host.effects) +
                  Repeat(Call(old(patcher.host.slots.tonesBeep), [VInt(1000), VInt(300)]), i)
      {
        HandleClientConnected(userIds[i]);
      }
    }

    /** handle_client_disconnected: any single leave unpatches the display
        setter and removes the patch callbacks. */
    method HandleClientDisconnected(userId: Value)
      requires Valid()
      modifies patcher.host`slots, patcher.host`effects, patcher`origSetDisplayByName,
               patcher.callbacks`registry, this`patchCallbacksAdded
      ensures Valid() && !patchCallbacksAdded
      ensures (patcher.host.slots.setDisplayByName, patcher.origSetDisplayByName) ==
              UnpatchSlot(old(patcher.host.slots.setDisplayByName), old(patcher.origSetDisplayByName))
      ensures patcher.host.slots == old(patcher.host.slots).(setDisplayByName := patcher.host.slots.setDisplayByName)
      ensures patcher.callbacks.registry ==
              if old(patchCallbacksAdded) then Unregistered(old(patcher.callbacks.registry), MasterPatchCallbacks)
              else old(patcher.callbacks.registry)
      ensures patcher.host.effects == old(patcher.host.effects) + [Call(old(patcher.host.slots.tonesBeep), [VInt(108), VInt(300)])]
    {
      patcher.UnpatchSetDisplay();
      if patchCallbacksAdded {
        MasterPatchCallbacksDistinct();
        Uninstall(patcher.callbacks.registry, MasterPatchCallbacks);
        RemovePatchCallbacks();
        patchCallbacksAdded := false;
      }
      patcher.host.Perform(Call(patcher.host.slots.tonesBeep, [VInt(108), VInt(300)]));
    }

    /** execute_gesture: the announced fields go to the peer.  A field named
        `type` clashes with the message type and raises. */
    method ExecuteGesture(kwargs: Fields) returns (raised: bool)
      modifies transport`queue
      ensures raised == ("type" in kwargs)
      ensures transport.queue == old(transport.queue) +
              if !raised && transport.connected then [transport.serialize(Message("execute_gesture", kwargs))] else []
    {
      if "type" in kwargs {
        return true;
      }
      transport.Send("execute_gesture", kwargs);
      raised := false;
    }

    /** send_braille_info: the local display's name, description and size. */
    method SendBrailleInfo()
      modifies transport`queue
      ensures var h := patcher.host;
              transport.queue == old(transport.queue) +
              if transport.connected
              then [transport.serialize(Message("set_braille_info", map["name" := VStr(h.displayName),
                      "description" := VStr(h.displayDescription), "numCells" := VInt(h.numCells)]))]
              else []
    {
      var display := patcher.host;
      transport.Send("set_braille_info", map["name" := VStr(display.displayName),
                     "description" := VStr(display.displayDescription), "numCells" := VInt(display.numCells)]);
    }

    /** send_indexes, over the polls made while the transport stays
        connected: an `index` message for every change of the polled index,
        the first reading counting as a change unless it is None. */
    method SendIndexes(polls: seq<Poll>)
      modifies transport`queue
      ensures transport.queue == old(transport.queue) +
              if transport.connected then IndexRecords(transport.serialize, IndexChanges(polls, VNone)) else []
    {
      var last := VNone;
      var i := 0;
      ghost var sent: seq<Value> := [];
      while transport.connected && i < |polls|
        invariant 0 <= i <= |polls| && (!transport.connected ==> i == 0 && sent == [])
        invariant IndexChanges(polls, VNone) == sent + IndexChanges(polls[i..], last)
        invariant transport.queue == old(transport.queue) + IndexRecords(transport.serialize, sent)
        decreases |polls| - i
      {
        IndexChangesAdvance(polls, i, last, sent);
        if polls[i].Polled? && !PyEq(polls[i].index, last) {
          var index := polls[i].index;
          transport.Send("index", map["index" := index]);
          IndexRecordsSnoc(transport.serialize, sent, index);
          sent := sent + [index];
          last := index;
        }
        i := i + 1;
      }
      assert transport.connected ==> polls[i..] == [];
      assert sent + [] == sent && old(transport.queue) + [] == old(transport.queue);
    }
  }
}
