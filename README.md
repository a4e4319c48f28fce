# NVDA Remote: transports, sessions, patcher and local machines

A Dafny model of the message and session layer of the NVDA remote-access
add-on (the `unicornNVDA` fork). The model covers four parts:

- **Transports** (`transport.dfy`, with `framing.dfy`). Each transport
  accumulates received text in a carry-over buffer, splits it on newlines,
  turns each line into a `"msg_" + type` dispatch, and queues outgoing
  records only while connected. This covers the TCP transport, the relay
  handshake, the virtual-channel (DVC) transport and the reconnect
  supervisor.
- **Sessions** (`session.py`, modelled in `session.dfy`).
  - The slave session patches the local screen reader while controlling
    peers are present and forwards its speech and sounds.
  - The master session announces braille gestures and sends a message
    whenever the synthesizer index changes.
- **Patchers** (`nvda_patcher.py`, modelled in `patcher.dfy`). These swap
  host function slots for hooks and put the originals back.
- **Local machines** (both `local_machine.py` files). These gate output
  while muted, pad braille cells, and negotiate the braille display size.

## How the model is built

Each Python object whose methods update fields becomes a Dafny class with
those fields. A method promises its new state in one of two ways:

- it states the new state outright;
- or it states the new state as a function of the old one (`SlavePatched`,
  `Registered`, `Deliver`, `IndexChanges`). Lemmas then prove what the
  source promises about that function.

Four things from outside the core are abstract:

- the serializer (`Fields -> string`);
- the deserializer (`string -> Option<Fields>`, where `None` is a record
  that fails to parse);
- the callback registry (`Callbacks.CallbackManager`, a map from event name
  to a sequence of handlers). Its source is not part of this model.
- the host screen reader. This is a set of function slots plus a log of
  calls into the host (`Host.Host`). A call is recorded, not executed.

A Python exception that escapes a method becomes a `raised` result. The
rest of that method's effects are then stated for that case. Sockets,
threads, the DVC library and `os.path.exists` become inputs: received text,
the outcomes of connection attempts, library return codes, whether a file
exists.

### Behaviour of the code that the model keeps

- **Deserializer failures.** `parse` lets an exception from the
  deserializer escape (transport.py:102-108), so the rest of the chunk is
  not parsed and the buffer stays empty. `Framing.Classify` returns
  `Raises`, and `Framing.Deliver` stops at that line.
- **Three pieces in one chunk.** `"a\nb\nc"` yields two lines, and `c` stays
  in the buffer until its newline arrives (`Framing.SplitExampleThree`).
- **Python 2 value types.** `Values.Value` keeps `str` apart from `unicode`
  and `int` apart from `long`, because the code's `isinstance` tests do:
  `isinstance(channel, str)` (transport.py:168) refuses a `unicode` channel,
  and the gesture comprehension (nvda_patcher.py:162) drops `long` and
  `unicode` fields. `"msg_" + type` (transport.py:106) accepts either kind
  of text.
- **Python 2 equality.** `==` and dict lookup do not tell these kinds
  apart: `2L == 2`, `True == 1` and `u'a' == 'a'`. `Values.Canon` maps a
  value to the representative `==` sees, and `Values.PyEq` compares
  representatives. The version test in `handle_p2p` (transport.py:318) and
  the index test in `send_indexes` (session.py:161) use `PyEq`. The slave
  session's `masters` dict is keyed by representatives (session.py:40, 58),
  so `7L` and `7` are one master and `del masters[7L]` removes the entry
  stored for `7`.
- **The DVC callback binding.** transport.py:195 names a method
  `register_lib-callbacks`, which is not a valid Python identifier. The
  library callbacks are modelled as the methods they would bind to.
- **`braille_write_cells`.** `MasterSession.__init__` looks up
  `local_machine.braille_write_cells` (session.py:101), which neither
  `LocalMachine` defines; both define `display`. See "## Findings".
- **Which `LocalMachine`.** A session is given its local machine
  (session.py:11-12). The session classes are modelled with remoteClient's
  `LocalMachine`, which has every method the sessions register. The unicorn
  `LocalMachine` has no `play_wave`, `beep`, `send_key`,
  `set_clipboard_text` or `send_SAS`. With it, `SlaveSession.__init__`
  raises at `msg_key` (`Session.UnicornSlaveStopsAtKey`), and even the
  corrected `MasterSession.__init__` raises at `msg_tone`
  (`Session.UnicornMasterStopsAtTone`).
- **`handle_transport_disconnected`.** This slave handler is never
  registered. It is modelled on its own.
- **End of stream with a partial line buffered.** When `recv` returns
  nothing (end of stream) while the buffer holds a partial line, `data` is
  not empty. The code then re-buffers the text instead of disconnecting, and
  the model does the same (`Transport.TcpTransport.HandleServerData`).

## Model

| member | source | states |
|---|---|---|
| Callbacks.CallbackManager.RegisterCallback | addon/globalPlugins/remoteClient/transport.py:151 | registering appends the handler to that event's handlers and changes no other event |
| Callbacks.CallbackManager.UnregisterCallback | addon/globalPlugins/remoteClient/session.py:70-71 | unregistering removes the first matching handler; an unknown event changes nothing |
| Callbacks.CallbackManager.RegisterAll | addon/globalPlugins/remoteClient/session.py:64-65 | the registration loop gives the registry `Registered(old, pairs)` |
| Callbacks.CallbackManager.UnregisterAll | addon/globalPlugins/remoteClient/session.py:70-71 | the unregistration loop gives the registry `Unregistered(old, pairs)` |
| Callbacks.CallbackManager.CallCallbacks | addon/globalPlugins/remoteClient/transport.py:108 | a dispatch is recorded with its fields and the handlers registered for the event, in registration order |
| Callbacks.RemoveFirst | addon/globalPlugins/remoteClient/session.py:71 | removing an absent handler changes nothing; removing a present one shortens the list by one |
| Callbacks.CountRemoveFirst | addon/globalPlugins/remoteClient/session.py:71 | removal takes away exactly one occurrence of that handler and none of any other |
| Callbacks.CountRegistered | addon/globalPlugins/remoteClient/session.py:64-65 | after registering pairs, each handler occurs once more for every pair naming it |
| Callbacks.CountUnregistered | addon/globalPlugins/remoteClient/session.py:70-71 | after unregistering pairs, each handler occurs once less for every pair naming it, never below zero |
| Callbacks.Install | addon/globalPlugins/remoteClient/session.py:62-65 | registering distinct absent pairs installs each exactly once |
| Callbacks.Uninstall | addon/globalPlugins/remoteClient/session.py:68-71 | unregistering distinct pairs that are installed once leaves none of them |
| Framing.FirstIndex | addon/globalPlugins/remoteClient/transport.py:98 | `partition` splits at the first newline: it is there and none precedes it |
| Framing.SplitJoin | addon/globalPlugins/remoteClient/transport.py:97-100 | no character is lost: the lines, each re-terminated, followed by the remainder, are the input |
| Framing.SplitClean | addon/globalPlugins/remoteClient/transport.py:97-100 | no parsed line and no remainder holds a newline |
| Framing.SplitUnique | addon/globalPlugins/remoteClient/transport.py:97-100 | newline-free lines and remainder are recovered exactly from their joined text |
| Framing.SplitAcrossReads | addon/globalPlugins/remoteClient/transport.py:88-100 | carrying the remainder into the next read splits the stream into the same lines, in stream order, as one combined read |
| Framing.SplitExampleThree | addon/globalPlugins/remoteClient/transport.py:97-100 | `"a\nb\nc"` gives the lines `a`, `b` and keeps `c` |
| Framing.SplitExampleTwoReads | addon/globalPlugins/remoteClient/transport.py:89-100 | `"a\nbc"` then `"d\n"` give the lines `a` and `bcd` |
| Framing.Classify | addon/globalPlugins/remoteClient/transport.py:102-108 | a record is dropped iff it lacks `type`; it is dispatched iff `type` is `str` or `unicode` text, as `"msg_" + type` with exactly the other fields; otherwise `parse` raises |
| Framing.DeliverAppend | addon/globalPlugins/remoteClient/transport.py:97-99 | parsing lines in order delivers the dispatches of a prefix, then those of the rest |
| Framing.DeliverSnoc | addon/globalPlugins/remoteClient/transport.py:97-99 | parsing one more line after lines that did not raise adds exactly that line's dispatch, and raises exactly when that line does |
| Framing.DeliverStopsAtRaise | addon/globalPlugins/remoteClient/transport.py:97-99 | nothing after a raising line is dispatched |
| Framing.Message | addon/globalPlugins/remoteClient/transport.py:121 | the serialized record holds the keyword fields unchanged plus `type` |
| Framing.SentRecordIsDispatched | addon/globalPlugins/remoteClient/transport.py:102-108 | with a deserializer inverting the serializer, a sent record is dispatched as `"msg_" + type` with exactly its keyword fields |
| Transport.AttemptsMadeCount | addon/globalPlugins/remoteClient/transport.py:374-383 | the supervisor makes every attempt unless one raises an unexpected exception; that attempt is then its last, and none before it crashed |
| Transport.ConnectorThread.constructor | addon/globalPlugins/remoteClient/transport.py:365-372 | a new supervisor is running with the 5-second delay |
| Transport.ConnectorThread.Run | addon/globalPlugins/remoteClient/transport.py:374-384 | while running, it makes `AttemptsMade` calls and sleeps the fixed delay after each one that does not crash; stopped, it does nothing |
| Transport.HandshakeShape | addon/globalPlugins/remoteClient/transport.py:153-158 | the handshake is `protocol_version` first, then `join(channel, connection_type)` iff the channel is known, else `generate_key` |
| Transport.Parse | addon/globalPlugins/remoteClient/transport.py:102-108 | one line dispatches exactly once iff its record is `Dispatched`, and raises iff the record does not deserialize or its `type` is not text |
| Transport.ParseLines | addon/globalPlugins/remoteClient/transport.py:97-100 | the loop dispatches the complete lines in order until one raises, and returns the remainder |
| Transport.TcpTransport.constructor | addon/globalPlugins/remoteClient/transport.py:36-46 | a new transport is disconnected, with an empty buffer, an empty queue, no connects and a running supervisor |
| Transport.TcpTransport.Relay | addon/globalPlugins/remoteClient/transport.py:145-151 | the relay transport keeps its channel, role and version and registers `on_connected` for `transport_connected` |
| Transport.TcpTransport.TransportConnected | addon/globalPlugins/remoteClient/transport.py:29-32 | the connect counter rises by exactly one and `connected` is set before `transport_connected` is dispatched |
| Transport.TcpTransport.Connect | addon/globalPlugins/remoteClient/transport.py:49-56 | a failed connect announces `transport_connection_failed` and raises without touching the counter; a successful one performs `transport_connected` |
| Transport.TcpTransport.RunEnded | addon/globalPlugins/remoteClient/transport.py:62-77 | a socket error drops the partial line; the transport ends disconnected with `transport_disconnected` announced |
| Transport.TcpTransport.HandleServerData | addon/globalPlugins/remoteClient/transport.py:88-100 | the buffer never holds a newline; lines plus new buffer equal old buffer plus received text; lines dispatch in order; text with no newline is only buffered; empty data disconnects |
| Transport.TcpTransport.Send | addon/globalPlugins/remoteClient/transport.py:120-123 | exactly one serialized record is queued when connected; otherwise the queue is unchanged |
| Transport.TcpTransport.Disconnect | addon/globalPlugins/remoteClient/transport.py:125-134 | does nothing when not connected; otherwise empties the queue, drops the socket and leaves `connected` alone; raises iff the socket is already gone |
| Transport.TcpTransport.Close | addon/globalPlugins/remoteClient/transport.py:136-141 | announces `transport_closing`, stops the supervisor, disconnects, then sets `closed` and arms a fresh running supervisor unless the disconnect raised |
| Transport.TcpTransport.OnConnected | addon/globalPlugins/remoteClient/transport.py:153-158 | queues the serialized handshake records, in order, while connected |
| Transport.ConnectedHandshake | addon/globalPlugins/remoteClient/transport.py:151-158 | on connect both handshake records are queued, because `connected` is set before `on_connected` runs |
| Transport.DvcConfigError | addon/globalPlugins/remoteClient/transport.py:166-171 | the DVC constructor accepts exactly a role in `('slave', 'master')` (as `str` or `unicode`), a `str` channel and a found library; each refusal gives the message of the first check that fails, so a `unicode` channel is refused as an invalid key |
| Transport.Without | addon/globalPlugins/remoteClient/transport.py:348 | removing NULs leaves no NUL and every other character, shortens the text by the number of NULs, and leaves NUL-free text unchanged |
| Transport.WithoutAppend | addon/globalPlugins/remoteClient/transport.py:348 | removing NULs from two pieces of text one after the other is removing them from their concatenation |
| Transport.DvcTransport.constructor | addon/globalPlugins/remoteClient/transport.py:162-193 | a new DVC transport is uninitialized and disconnected, and registers `handle_p2p` for `msg_protocol_version` |
| Transport.DvcTransport.InitializeLib | addon/globalPlugins/remoteClient/transport.py:211-217 | does nothing when already initialized; otherwise raises iff the library fails, and is initialized iff it did not raise |
| Transport.DvcTransport.TerminateLib | addon/globalPlugins/remoteClient/transport.py:219-225 | does nothing when not initialized; otherwise raises iff the library fails, staying initialized exactly then |
| Transport.DvcTransport.TransportConnected | addon/globalPlugins/remoteClient/transport.py:29-32 | the connect counter rises by exactly one and `connected` is set before `transport_connected` is dispatched |
| Transport.DvcTransport.RunStart | addon/globalPlugins/remoteClient/transport.py:227-244 | clears the error event and initializes; the start goes through iff initializing, opening (slave) and finding the client (master) all succeed; the last two failures announce `transport_connection_failed`; a master without a client crashes the supervisor iff no earlier caught `WindowsError` is still being handled, and otherwise fails like the others |
| Transport.DvcTransport.RunEnded | addon/globalPlugins/remoteClient/transport.py:245-251 | after the error event, the transport is disconnected with `transport_disconnected` announced |
| Transport.DvcTransport.HandleData | addon/globalPlugins/remoteClient/transport.py:253-265 | the same framing as the TCP transport: conservation, a newline-free buffer, in-order dispatch; empty data disconnects |
| Transport.DvcTransport.Send | addon/globalPlugins/remoteClient/transport.py:286-289 | every record carries `origin=-1`; it is queued only while connected |
| Transport.DvcTransport.Disconnect | addon/globalPlugins/remoteClient/transport.py:291-304 | does nothing when not connected; otherwise sets the error event and empties the queue |
| Transport.DvcTransport.Close | addon/globalPlugins/remoteClient/transport.py:306-315 | announces closing, stops the supervisor, disconnects, terminates; raises iff terminating fails, and otherwise is closed with a fresh supervisor |
| Transport.DvcTransport.HandleP2p | addon/globalPlugins/remoteClient/transport.py:317-321 | replies `client_joined` with id -1 and the role iff the peer's version equals 2 under `==` (so `2L` qualifies), else `version_mismatch` |
| Transport.DvcTransport.OnNewChannelConnection | addon/globalPlugins/remoteClient/transport.py:337-341 | the transport becomes connected and then queues its protocol version |
| Transport.DvcTransport.OnDataReceived | addon/globalPlugins/remoteClient/transport.py:343-349 | text with no NUL is only buffered; text with a NUL is framed with its NULs removed |
| Transport.ReceiveOneRecord | addon/globalPlugins/remoteClient/transport.py:253-265 | a whole well-formed record and its newline make one dispatch of its other fields, raise nothing and leave nothing buffered |
| Transport.ReceivePeerVersion | addon/globalPlugins/remoteClient/transport.py:317-321 | a peer's `protocol_version` record is dispatched to the transport's own `handle_p2p`, which queues `client_joined` on the same transport when the versions are equal under `==` and `version_mismatch` otherwise, only while connected |
| Transport.DvcTransport.OnReadError | addon/globalPlugins/remoteClient/transport.py:351-355 | a read error sets the error event |
| Transport.DvcTransport.OnClose | addon/globalPlugins/remoteClient/transport.py:357-361 | the peer is announced as `msg_client_left` with id -1, then the transport disconnects |
| Host.PadCells | addon/globalPlugins/remoteClient/local_machine.py:47 | padded cells are the input followed by zeros, `max(size, len)` long, so longer inputs pass unchanged |
| Patcher.PatchSlotIdempotent | addon/globalPlugins/remoteClient/nvda_patcher.py:47-57 | a second patch of a slot changes nothing, and an already saved original is kept |
| Patcher.SlotRoundTrip | addon/globalPlugins/remoteClient/nvda_patcher.py:47-87 | patching installs the hook, and unpatching restores the original slot and clears the saved field |
| Patcher.UnpatchSlotClears | addon/globalPlugins/remoteClient/nvda_patcher.py:77-87 | unpatching clears the saved field and is a no-op when nothing is saved |
| Patcher.SlavePatchIdempotent | addon/globalPlugins/remoteClient/nvda_patcher.py:89-92 | after `patch` every original is saved; a second `patch` changes nothing |
| Patcher.SlaveUnpatchClears | addon/globalPlugins/remoteClient/nvda_patcher.py:94-97 | after `unpatch` nothing is saved; unpatching with nothing saved changes nothing |
| Patcher.SlaveRoundTrip | addon/globalPlugins/remoteClient/nvda_patcher.py:26-97 | `patch` then `unpatch` restores speak, cancel, beep, playWaveFile and setSynth; the two other setSynth names receive the saved `setSynth` |
| Patcher.PatchThenUnpatch | addon/globalPlugins/remoteClient/nvda_patcher.py:89-97 | patching before unpatching leaves the unpatched outcome unchanged |
| Patcher.SlavePatcher.constructor | addon/globalPlugins/remoteClient/nvda_patcher.py:16-24 | a new patcher has nothing saved and no index callback |
| Patcher.SlavePatcher.PatchSynth | addon/globalPlugins/remoteClient/nvda_patcher.py:26-45 | the slots and saved originals become `SynthPatched` of the old ones |
| Patcher.SlavePatcher.PatchTones | addon/globalPlugins/remoteClient/nvda_patcher.py:47-51 | `tones.beep` is patched as one slot and no other slot changes |
| Patcher.SlavePatcher.PatchNvwave | addon/globalPlugins/remoteClient/nvda_patcher.py:53-57 | `nvwave.playWaveFile` is patched as one slot and no other slot changes |
| Patcher.SlavePatcher.UnpatchSynth | addon/globalPlugins/remoteClient/nvda_patcher.py:59-75 | the slots and saved originals become `SynthUnpatched` of the old ones |
| Patcher.SlavePatcher.UnpatchTones | addon/globalPlugins/remoteClient/nvda_patcher.py:77-81 | `tones.beep` is restored and its saved field cleared; nothing else changes |
| Patcher.SlavePatcher.UnpatchNvwave | addon/globalPlugins/remoteClient/nvda_patcher.py:83-87 | `nvwave.playWaveFile` is restored and its saved field cleared; nothing else changes |
| Patcher.SlavePatcher.Patch | addon/globalPlugins/remoteClient/nvda_patcher.py:89-92 | the slots and originals become `SlavePatched` of the old ones |
| Patcher.SlavePatcher.Unpatch | addon/globalPlugins/remoteClient/nvda_patcher.py:94-97 | the slots and originals become `SlaveUnpatched` of the old ones, with nothing saved |
| Patcher.SlavePatcher.Speak | addon/globalPlugins/remoteClient/nvda_patcher.py:99-101 | fires `speak` with the sequence, then calls the original speak; raises when none is saved |
| Patcher.SlavePatcher.Cancel | addon/globalPlugins/remoteClient/nvda_patcher.py:103-105 | fires `cancel_speech`, then calls the original cancel |
| Patcher.SlavePatcher.Beep | addon/globalPlugins/remoteClient/nvda_patcher.py:107-109 | fires `beep` with the same arguments (balance defaulting to 50), calls the original with `hz`, `length`, `left` and `right` as keyword arguments, and returns its result |
| Patcher.SlavePatcher.SetSynth | addon/globalPlugins/remoteClient/nvda_patcher.py:111-116 | calls the saved setSynth with the positional and keyword arguments and returns its result; the new synthesizer ends up patched with its own originals saved |
| Patcher.SlavePatcher.PlayWaveFile | addon/globalPlugins/remoteClient/nvda_patcher.py:118-120 | fires `wave` with the same arguments (`async` defaulting to true), calls the original with the file name positionally and `async` as a keyword argument, and returns its result |
| Patcher.SlavePatcher.SetLastIndexCallback | addon/globalPlugins/remoteClient/nvda_patcher.py:125-126 | the index callback is the one given |
| Patcher.PrimitiveFields | addon/globalPlugins/remoteClient/nvda_patcher.py:162 | exactly the instance fields holding an `int`, `str` or `bool` are kept, with their values; `long` and `unicode` fields are dropped |
| Patcher.GestureFieldsShape | addon/globalPlugins/remoteClient/nvda_patcher.py:160-195 | the announced fields are the primitive fields, the script path, and each extra attribute the gesture has; an extra never overrides a present field |
| Patcher.GestureFieldsOnlyPrimitive | addon/globalPlugins/remoteClient/nvda_patcher.py:162 | any field other than the extras and the script path holds an int, str or bool |
| Patcher.MasterPatcher.constructor | addon/globalPlugins/remoteClient/nvda_patcher.py:131-134 | a new master patcher has nothing saved |
| Patcher.MasterPatcher.PatchBrailleInput | addon/globalPlugins/remoteClient/nvda_patcher.py:136-140 | `executeGesture` is patched as one slot and nothing else changes |
| Patcher.MasterPatcher.PatchSetDisplay | addon/globalPlugins/remoteClient/nvda_patcher.py:142-146 | `setDisplayByName` is patched as one slot, idempotently, and nothing else changes |
| Patcher.MasterPatcher.UnpatchBrailleInput | addon/globalPlugins/remoteClient/nvda_patcher.py:148-152 | `executeGesture` is restored and its saved field cleared |
| Patcher.MasterPatcher.UnpatchSetDisplay | addon/globalPlugins/remoteClient/nvda_patcher.py:154-158 | `setDisplayByName` is restored and its saved field cleared |
| Patcher.MasterPatcher.ExecuteGesture | addon/globalPlugins/remoteClient/nvda_patcher.py:160-198 | a braille gesture fires exactly one `execute_gesture` with `GestureFields` and is not executed; any other goes to the original with no callback |
| Patcher.MasterPatcher.SetDisplayByName | addon/globalPlugins/remoteClient/nvda_patcher.py:200-204 | calls the original, fires `set_display` iff the result is truthy, and returns that result |
| Session.SlavePatchCallbacksDistinct | addon/globalPlugins/remoteClient/session.py:63 | the four slave patch callbacks are distinct pairs |
| Session.SlaveSession.constructor | addon/globalPlugins/remoteClient/session.py:19-32 | with remoteClient's `LocalMachine`, the session registers its eight transport handlers in order, with no masters, no index and the flag clear |
| Session.SlaveSession.AddPatchCallbacks | addon/globalPlugins/remoteClient/session.py:62-66 | registers the four patch callbacks and sets the index callback |
| Session.SlaveSession.RemovePatchCallbacks | addon/globalPlugins/remoteClient/session.py:68-71 | unregisters the four patch callbacks |
| Session.SlaveSession.HandleClientConnected | addon/globalPlugins/remoteClient/session.py:34-40 | patches, installs the patch callbacks only when the flag is clear (so exactly once), beeps through the original beep, and marks the master under the id's representative, so ids equal under `==` share one entry |
| Session.MasterLookup | addon/globalPlugins/remoteClient/session.py:40-58 | an id finds an entry in `masters` iff some stored key is equal to it under Python's `==` |
| Session.SlaveSession.HandleChannelJoined | addon/globalPlugins/remoteClient/session.py:42-44 | the same as a join for each id in order: one patch and install, every id's representative a master key, one beep per id |
| Session.JoinedSpec | addon/globalPlugins/remoteClient/session.py:40-44 | after a channel join the keys are the old keys plus the ids' representatives, every id is a master, and every other master keeps its entry |
| Session.SlaveSession.HandleTransportClosing | addon/globalPlugins/remoteClient/session.py:46-50 | always unpatches, removes the patch callbacks iff they were added, and ends with the flag clear |
| Session.SlaveSession.HandleTransportDisconnected | addon/globalPlugins/remoteClient/session.py:52-54 | beeps through the original beep, then unpatches; raises first when no original is saved |
| Session.SlaveSession.HandleClientDisconnected | addon/globalPlugins/remoteClient/session.py:56-60 | removes only the entry whose key equals the id under `==` (raising if there is none), unpatches iff no master is left, and leaves the flag unchanged |
| Session.SlaveSession.Speak | addon/globalPlugins/remoteClient/session.py:73-74 | the sequence is sent as a `speak` message |
| Session.SlaveSession.CancelSpeech | addon/globalPlugins/remoteClient/session.py:76-77 | a `cancel` message is sent |
| Session.SlaveSession.Beep | addon/globalPlugins/remoteClient/session.py:82-83 | a `tone` message is sent with the arguments, balance defaulting to 50/50 |
| Session.SlaveSession.PlayWaveFile | addon/globalPlugins/remoteClient/session.py:85-86 | a `wave` message is sent with the file name and `async` |
| Session.SlaveSession.UpdateIndex | addon/globalPlugins/remoteClient/session.py:79-89 | afterwards `_get_lastIndex` returns the given index |
| Session.IndexChangesCompress | addon/globalPlugins/remoteClient/session.py:152-164 | the sent indices are the polled readings with consecutive `==`-equal readings collapsed to the first, after the last one sent |
| Session.IndexChangesChange | addon/globalPlugins/remoteClient/session.py:152-164 | no two indices sent in a row are equal under `==` (so `5L` is not sent after `5`), and the first sent differs from the last one sent (None at the start) |
| Session.IndexRecordsAt | addon/globalPlugins/remoteClient/session.py:161-163 | the queued records are one serialized `index` message per sent index, in the order sent |
| Session.MasterPatchCallbacksDistinct | addon/globalPlugins/remoteClient/session.py:167 | the two master patch callbacks are distinct pairs |
| Session.BoundPrefix | addon/globalPlugins/remoteClient/session.py:99-111 | the registrations made before the first handler that does not exist on the given machine: every earlier handler exists, and the one at that index does not |
| Session.BoundPrefixAt | addon/globalPlugins/remoteClient/session.py:99-111 | the registrations stop exactly at the first missing handler |
| Session.SlaveTransportCallbacksBound | addon/globalPlugins/remoteClient/session.py:19-32 | with remoteClient's `LocalMachine` every slave registration is made |
| Session.UnicornSlaveStopsAtKey | addon/globalPlugins/unicorn/local_machine.py:14-52 | with the unicorn `LocalMachine`, which has no `send_key`, the slave registrations stop after two, at `msg_key` |
| Session.UnicornMasterStopsAtTone | addon/globalPlugins/unicorn/local_machine.py:14-52 | with the unicorn `LocalMachine`, which has no `beep`, the corrected master registrations stop after three, at `msg_tone` |
| Session.BoundPrefixAll | addon/globalPlugins/remoteClient/session.py:99-111 | when every handler exists, all registrations are made |
| Session.RegisterLookedUp | addon/globalPlugins/remoteClient/session.py:99-111 | the registrations are made in order up to the first missing handler, which raises iff it is there |
| Session.AsWrittenStopsAtBrailleWriteCells | addon/globalPlugins/remoteClient/session.py:99-101 | as written, the master's registrations stop after `msg_speak` and `msg_cancel` |
| Session.MasterSessionInitAsWritten | addon/globalPlugins/remoteClient/session.py:93-101 | as written, `MasterSession.__init__` raises after registering only `msg_speak` and `msg_cancel` |
| Session.MasterTransportCallbacksBound | addon/globalPlugins/remoteClient/session.py:99-111 | with `display` in place of `braille_write_cells` and remoteClient's `LocalMachine`, all thirteen registrations are made |
| Session.MasterSession.constructor | addon/globalPlugins/remoteClient/session.py:93-111 | with cell updates registered to `local_machine.display` and remoteClient's `LocalMachine`, the session registers its thirteen transport handlers in order, with no poller and the flag clear |
| Session.MasterSession.HandleNvdaNotConnected | addon/globalPlugins/remoteClient/session.py:113-115 | cancels speech, then shows "Remote NVDA not connected." |
| Session.MasterSession.HandleConnected | addon/globalPlugins/remoteClient/session.py:117-122 | a poller is started iff none is running |
| Session.MasterSession.HandleDisconnected | addon/globalPlugins/remoteClient/session.py:124-125 | the poller is forgotten |
| Session.MasterSession.AddPatchCallbacks | addon/globalPlugins/remoteClient/session.py:166-169 | registers the two patch callbacks |
| Session.MasterSession.RemovePatchCallbacks | addon/globalPlugins/remoteClient/session.py:171-174 | unregisters the two patch callbacks |
| Session.MasterSession.HandleClientConnected | addon/globalPlugins/remoteClient/session.py:131-136 | patches the display setter, installs the patch callbacks only when the flag is clear, and beeps |
| Session.MasterSession.HandleChannelJoined | addon/globalPlugins/remoteClient/session.py:127-129 | the same as a join for each id in order |
| Session.MasterSession.HandleClientDisconnected | addon/globalPlugins/remoteClient/session.py:138-143 | any single leave unpatches the display setter, removes the callbacks iff they were added, clears the flag and beeps |
| Session.MasterSession.ExecuteGesture | addon/globalPlugins/remoteClient/session.py:145-146 | the gesture fields are sent as `execute_gesture`; a field named `type` raises |
| Session.MasterSession.SendBrailleInfo | addon/globalPlugins/remoteClient/session.py:148-150 | the local display's name, description and cell count are sent |
| Session.MasterSession.SendIndexes | addon/globalPlugins/remoteClient/session.py:152-164 | while connected, one `index` message is sent for each change of the polled index under `!=` (`IndexChanges` from None); nothing is sent when disconnected |
| RemoteLocalMachine.LocalMachine.constructor | addon/globalPlugins/remoteClient/local_machine.py:16-18 | a new local machine is unmuted with remote braille off |
| RemoteLocalMachine.LocalMachine.PlayWave | addon/globalPlugins/remoteClient/local_machine.py:20-24 | plays iff unmuted and the file exists, passing `fileName` and `async` unchanged as keyword arguments |
| RemoteLocalMachine.LocalMachine.Beep | addon/globalPlugins/remoteClient/local_machine.py:26-29 | when unmuted, beeps with hz, length, left and right unchanged; muted, does nothing |
| RemoteLocalMachine.LocalMachine.CancelSpeech | addon/globalPlugins/remoteClient/local_machine.py:31-35 | when unmuted, schedules the synthesizer's cancel; muted, does nothing |
| RemoteLocalMachine.LocalMachine.Speak | addon/globalPlugins/remoteClient/local_machine.py:37-42 | when unmuted, clears `beenCanceled` and schedules speaking the sequence; muted, does nothing |
| RemoteLocalMachine.LocalMachine.Display | addon/globalPlugins/remoteClient/local_machine.py:44-48 | writes iff remote braille is on and the display has cells; the cells are padded by `PadCells` |
| RemoteLocalMachine.LocalMachine.BrailleInput | addon/globalPlugins/remoteClient/local_machine.py:50-54 | the fields become one braille input gesture for the current `executeGesture` |
| RemoteLocalMachine.LocalMachine.SendKey | addon/globalPlugins/remoteClient/local_machine.py:56-57 | schedules the key with vk code, no scan code, extended and pressed, ignoring other fields |
| RemoteLocalMachine.LocalMachine.SetClipboardText | addon/globalPlugins/remoteClient/local_machine.py:59-60 | the text goes to the clipboard as the keyword argument `text` |
| RemoteLocalMachine.LocalMachine.SendSAS | addon/globalPlugins/remoteClient/local_machine.py:62-63 | the secure attention sequence is sent with argument 0 |
| UnicornLocalMachine.MinPositive | addon/globalPlugins/unicorn/local_machine.py:47-50 | yields the smallest positive element, and nothing iff no element is positive |
| UnicornLocalMachine.LocalMachine.constructor | addon/globalPlugins/unicorn/local_machine.py:16-18 | a new local machine is unmuted and not receiving braille |
| UnicornLocalMachine.LocalMachine.CancelSpeech | addon/globalPlugins/unicorn/local_machine.py:20-24 | when unmuted, schedules the cancel; muted, does nothing |
| UnicornLocalMachine.LocalMachine.Speak | addon/globalPlugins/unicorn/local_machine.py:26-31 | when unmuted, clears `beenCanceled` and schedules the speech; muted, does nothing |
| UnicornLocalMachine.LocalMachine.Display | addon/globalPlugins/unicorn/local_machine.py:33-37 | writes iff receiving braille, the size is positive and the cells fit; the written cells are exactly the display size, the input followed by zeros |
| UnicornLocalMachine.LocalMachine.BrailleInput | addon/globalPlugins/unicorn/local_machine.py:39-43 | the fields become one braille input gesture for the current `executeGesture` |
| UnicornLocalMachine.LocalMachine.SetBrailleDisplaySize | addon/globalPlugins/unicorn/local_machine.py:45-52 | the caller's list gains the local size at its end; the size becomes its minimum positive element, or the local size; braille is enabled iff the size is non-zero |
| Values.Canon | addon/globalPlugins/remoteClient/session.py:40 | the representative of a value holds no `bool`, `long` or `unicode`, at any depth |
| Values.CanonFixes | addon/globalPlugins/remoteClient/session.py:40 | a representative is its own representative |
| Values.PyEqCases | addon/globalPlugins/remoteClient/transport.py:318 | `2L == 2`, `True == 1`, `False == 0` and `u'a' == 'a'`; a number never equals text or `None`; an `int` equals a `long` iff their values agree |
| Values.PyEqOnKeys | addon/globalPlugins/remoteClient/session.py:40 | between representatives, `==` is equality of the values |

## Left out

- **Threads and blocking I/O.**
  - Not modelled: sockets, SSL, `select`, `recv` and `sendall` (transport.py:50-86, 110-118), and threads, `Queue` blocking, `join` and `time.sleep`.
  - The supervisor's `running` flag is taken as staying set for the attempts it is given.
  - The send-drain loops `send_queue` (transport.py:110-118, 275-284) are not modelled; the queue is what waits to be sent.
  - `clear_queue` (transport.py:386-391) is the queue becoming empty.
- **DVC library binding** (`register_lib-callbacks`, `lib.Open`, `Close`, `Write`, `Reader`, `WinError`). The library is foreign code, seen only through its return codes. `_Connected`, `_Disconnected` and `_Terminated` (transport.py:323-335) only log and call `_disconnect`, which is `Transport.DvcTransport.Disconnect`. A warning logged for a non-zero `Close` result is not modelled.
- **Serializer and callback registry.** Their source is not part of this model. No round-trip is assumed except as an explicit premise of `Framing.SentRecordIsDispatched`. Handlers are named and not run, so exceptions raised inside handlers are not modelled.
- **The silence synthesizer's `lastIndex` property swap and `_get_lastIndex`** (nvda_patcher.py:20, 34-41, 67-71, 122-123). This is class-level property manipulation. The saved `orig_get_lastIndex` is therefore not a field of `Patcher.SlavePatcher`.
- **Script lookup in `executeGesture`** (nvda_patcher.py:163-183: `scriptHandler` and gesture maps). The resolved script path is an input to `Patcher.GestureFields`.
- **What the host does when called.** A call is recorded, not executed. The synthesizer that the native `setSynth` installs is an input to `Patcher.SlavePatcher.SetSynth`.
- **Python 2 text comparisons.** `Values.PyEq` counts `str` and `unicode` as equal when their characters are. For ASCII text that is Python's `==`. A non-ASCII `str`, which Python decodes before comparing, is not modelled, and neither is any encoding.
- Session.SlaveSession.HandleClientConnected: a list or dict user id, which Python refuses as a dict key with a TypeError, is stored under its representative instead. Ids from the server are numbers.
- **Floats.** Python floats are not among the modelled field values. `POLL_TIME` is a sleep and not modelled.
- **Non-list `user_ids`** in `handle_channel_joined` are not modelled. The ids are a sequence.
- **Sessions are bound to the TCP transport.** Running a session over the DVC transport is not modelled.
- **Logging calls** are not modelled anywhere.
- Transport.DvcTransport.constructor: the three configuration errors that the Python constructor raises are stated by `Transport.DvcConfigError`. The constructor requires that function to accept its arguments rather than returning the error.
- Transport.DvcTransport.Send: a caller-supplied `origin` field, which Python rejects with a TypeError, is excluded by the precondition rather than modelled as an error.
- Transport.TcpTransport.HandleServerData: handlers are recorded, not run, so the queue it states is the transport's own; records the invoked handlers queue (MasterSession's `send_braille_info`, session.py:148-150) are not in it.
- Transport.DvcTransport.HandleData: the queue it states is the transport's own; the reply `handle_p2p` queues (transport.py:317-321) is composed separately in `Transport.ReceivePeerVersion`.
- Transport.DvcTransport.OnDataReceived: the queue it states is the transport's own, as for `Transport.DvcTransport.HandleData`.
- Transport.DvcTransport.OnDataReceived: reading past `cbSize` characters of the foreign buffer is excluded by the precondition `cbSize <= |data|`.
- Transport.ConnectorThread.Run: the back-off is counted in seconds slept, not timed.

## Findings

| source | as written | input that shows it | evidently intended | confidence | as-written member | corrected member |
|---|---|---|---|---|---|---|
| addon/globalPlugins/remoteClient/session.py:101 | `MasterSession.__init__` registers `self.local_machine.braille_write_cells`, an attribute neither `LocalMachine` defines, so the constructor raises AttributeError after registering `msg_speak` and `msg_cancel` | constructing a `MasterSession` with either `LocalMachine` | cell updates go to `local_machine.display`, which both define for exactly this; with remoteClient's `LocalMachine` all thirteen handlers are then registered | not executed | Session.MasterSessionInitAsWritten (with Session.AsWrittenStopsAtBrailleWriteCells) | Session.MasterSession.constructor (with Session.MasterTransportCallbacksBound) |
