/** nvda_patcher.py: the slave patcher, which swaps the synthesizer's
    `speak`/`cancel`, the three `setSynth` names, `tones.beep` and
    `nvwave.playWaveFile` for its own hooks, and the master patcher, which
    swaps `braille.handler.setDisplayByName` and
    `inputCore.manager.executeGesture`.  Each swap saves the original in an
    `orig_*` field; a swap with an original already saved does nothing, and
    undoing it puts the original back and clears the field.  Each patcher is a
    callback manager in the source; here it owns one. */
module Patcher {
  import opened Values
  import opened Callbacks
  import opened Host

  // ---------------------------------------------------------------------------
  // One slot

  /** Patching one slot: save what it holds and install the hook, unless an
      original is already saved. */
  function PatchSlot(current: Fn, saved: Option<Fn>, hook: Hook): (Fn, Option<Fn>) {
    if saved.Some? then (current, saved) else (Hooked(hook), Some(current))
  }

  /** Unpatching one slot: put the saved original back and forget it. */
  function UnpatchSlot(current: Fn, saved: Option<Fn>): (Fn, Option<Fn>) {
    if saved.None? then (current, saved) else (saved.value, None)
  }

  lemma PatchSlotIdempotent(current: Fn, saved: Option<Fn>, hook: Hook)
    ensures var p := PatchSlot(current, saved, hook);
            PatchSlot(p.0, p.1, hook) == p
    ensures PatchSlot(current, saved, hook).1.Some?
    ensures saved.Some? ==> PatchSlot(current, saved, hook).1 == saved
  {
  }

  lemma SlotRoundTrip(current: Fn, hook: Hook)
    ensures var p := PatchSlot(current, None, hook);
            p.0 == Hooked(hook) && UnpatchSlot(p.0, p.1) == (current, None)
  {
  }

  lemma UnpatchSlotClears(current: Fn, saved: Option<Fn>)
    ensures UnpatchSlot(current, saved).1 == None
    ensures saved.None? ==> UnpatchSlot(current, saved).0 == current
    ensures saved.Some? ==> UnpatchSlot(current, saved).0 == saved.value
  {
  }

  // ---------------------------------------------------------------------------
  // The slave patcher, as a function of the slots and the saved originals

  /** The `orig_*` fields of NVDASlavePatcher that hold functions. */
  datatype SlaveSaved = SlaveSaved(speak: Option<Fn>, cancel: Option<Fn>, setSynth: Option<Fn>,
                                   beep: Option<Fn>, playWaveFile: Option<Fn>)

  const NothingSaved := SlaveSaved(None, None, None, None, None)

  /** `orig_speak`, `orig_cancel` and `orig_setSynth` are saved and cleared
      together. */
  predicate SavedValid(v: SlaveSaved) {
    v.speak.Some? == v.cancel.Some? && v.speak.Some? == v.setSynth.Some?
  }

  /** patch_synth */
  function SynthPatched(s: Slots, v: SlaveSaved): (Slots, SlaveSaved) {
    if v.speak.Some? then (s, v)
    else
      (s.(synth := Synth(Hooked(SpeakHook), Hooked(CancelHook)), setSynth := Hooked(SetSynthHook),
          speechSetSynth := Hooked(SetSynthHook), guiSetSynth := Hooked(SetSynthHook)),
       v.(speak := Some(s.synth.speak), cancel := Some(s.synth.cancel), setSynth := Some(s.setSynth)))
  }

  /** unpatch_synth: all three `setSynth` names get the one saved original. */
  function SynthUnpatched(s: Slots, v: SlaveSaved): (Slots, SlaveSaved)
    requires SavedValid(v)
  {
    if v.speak.None? then (s, v)
    else
      (s.(synth := Synth(v.speak.value, v.cancel.value), setSynth := v.setSynth.value,
          speechSetSynth := v.setSynth.value, guiSetSynth := v.setSynth.value),
       v.(speak := None, cancel := None, setSynth := None))
  }

  /** patch: synth, then tones, then nvwave. */
  function SlavePatched(s: Slots, v: SlaveSaved): (Slots, SlaveSaved) {
    var (s1, v1) := SynthPatched(s, v);
    var (b, ob) := PatchSlot(s1.tonesBeep, v1.beep, BeepHook);
    var (w, ow) := PatchSlot(s1.playWaveFile, v1.playWaveFile, PlayWaveFileHook);
    (s1.(tonesBeep := b, playWaveFile := w), v1.(beep := ob, playWaveFile := ow))
  }

  /** unpatch: synth, then tones, then nvwave. */
  function SlaveUnpatched(s: Slots, v: SlaveSaved): (Slots, SlaveSaved)
    requires SavedValid(v)
  {
    var (s1, v1) := SynthUnpatched(s, v);
    var (b, ob) := UnpatchSlot(s1.tonesBeep, v1.beep);
    var (w, ow) := UnpatchSlot(s1.playWaveFile, v1.playWaveFile);
    (s1.(tonesBeep := b, playWaveFile := w), v1.(beep := ob, playWaveFile := ow))
  }

  /** Patching keeps the saved state well formed, saves every original, and
      a second patch changes nothing. */
  lemma SlavePatchIdempotent(s: Slots, v: SlaveSaved)
    requires SavedValid(v)
    ensures var p := SlavePatched(s, v);
            SavedValid(p.1) && SlavePatched(p.0, p.1) == p
            && p.1.speak.Some? && p.1.beep.Some? && p.1.playWaveFile.Some?
  {
  }

  /** Unpatching clears every saved original, and an unpatched patcher
      unpatches to itself. */
  lemma SlaveUnpatchClears(s: Slots, v: SlaveSaved)
    requires SavedValid(v)
    ensures SlaveUnpatched(s, v).1 == NothingSaved
    ensures SlaveUnpatched(s, NothingSaved) == (s, NothingSaved)
  {
  }

  /** From nothing saved, patch then unpatch gives back every slot, except
      that `speech.setSynth` and `gui.settingsDialogs.setSynth` both receive
      the original `synthDriverHandler.setSynth`, the only one saved. */
  lemma SlaveRoundTrip(s: Slots)
    ensures var p := SlavePatched(s, NothingSaved);
            SlaveUnpatched(p.0, p.1) == (s.(speechSetSynth := s.setSynth, guiSetSynth := s.setSynth), NothingSaved)
  {
  }

  /** Patching before unpatching makes no difference to the unpatched result
      when the three `setSynth` names agree. */
  lemma PatchThenUnpatch(s: Slots, v: SlaveSaved)
    requires SavedValid(v) && s.speechSetSynth == s.setSynth && s.guiSetSynth == s.setSynth
    ensures SavedValid(SlavePatched(s, v).1)
    ensures SlaveUnpatched(SlavePatched(s, v).0, SlavePatched(s, v).1) == SlaveUnpatched(s, v)
  {
  }

  // ---------------------------------------------------------------------------
  // NVDASlavePatcher

  class SlavePatcher {
    const host: Host
    const callbacks: CallbackManager
    var origSpeak: Option<Fn>
    var origCancel: Option<Fn>
    var origSetSynth: Option<Fn>
    var origBeep: Option<Fn>
    var origPlayWaveFile: Option<Fn>
    var lastIndexCallback: Option<Handler>

    function Saved(): SlaveSaved
      reads this
    {
      SlaveSaved(origSpeak, origCancel, origSetSynth, origBeep, origPlayWaveFile)
    }

    ghost predicate Valid()
      reads this
    {
      SavedValid(Saved())
    }

    constructor (host: Host)
      ensures Valid() && this.host == host && fresh(callbacks)
      ensures Saved() == NothingSaved && lastIndexCallback == None
      ensures callbacks.registry == map[] && callbacks.log == []
    {
      this.host := host;
      callbacks := new CallbackManager();
      origSpeak := None;
      origCancel := None;
      origSetSynth := None;
      origBeep := None;
      origPlayWaveFile := None;
      lastIndexCallback := None;
    }

    method PatchSynth()
      requires Valid()
      modifies host`slots, this`origSpeak, this`origCancel, this`origSetSynth
      ensures Valid()
      ensures (host.slots, Saved()) == SynthPatched(old(host.slots), old(Saved()))
    {
      if origSpeak.Some? {
        return;
      }
      var synth := host.slots.synth;
      origSpeak := Some(synth.speak);
      origCancel := Some(synth.cancel);
      host.slots := host.slots.(synth := Synth(Hooked(SpeakHook), Hooked(CancelHook)));
      origSetSynth := Some(host.slots.setSynth);
      host.slots := host.slots.(setSynth := Hooked(SetSynthHook), speechSetSynth := Hooked(SetSynthHook),
                                guiSetSynth := Hooked(SetSynthHook));
    }

    method PatchTones()
      modifies host`slots, this`origBeep
      ensures (host.slots.tonesBeep, origBeep) == PatchSlot(old(host.slots.tonesBeep), old(origBeep), BeepHook)
      ensures host.slots == old(host.slots).(tonesBeep := host.slots.tonesBeep)
    {
      if origBeep.Some? {
        return;
      }
      origBeep := Some(host.slots.tonesBeep);
      host.slots := host.slots.(tonesBeep := Hooked(BeepHook));
    }

    method PatchNvwave()
      modifies host`slots, this`origPlayWaveFile
      ensures (host.slots.playWaveFile, origPlayWaveFile)
              == PatchSlot(old(host.slots.playWaveFile), old(origPlayWaveFile), PlayWaveFileHook)
      ensures host.slots == old(host.slots).(playWaveFile := host.slots.playWaveFile)
    {
      if origPlayWaveFile.Some? {
        return;
      }
      origPlayWaveFile := Some(host.slots.playWaveFile);
      host.slots := host.slots.(playWaveFile := Hooked(PlayWaveFileHook));
    }

    method UnpatchSynth()
      requires Valid()
      modifies host`slots, this`origSpeak, this`origCancel, this`origSetSynth
      ensures Valid()
      ensures (host.slots, Saved()) == SynthUnpatched(old(host.slots), old(Saved()))
    {
      if origSpeak.None? {
        return;
      }
      host.slots := host.slots.(synth := host.slots.synth.(speak := origSpeak.value));
      origSpeak := None;
      host.slots := host.slots.(synth := host.slots.synth.(cancel := origCancel.value));
      origCancel := None;
      host.slots := host.slots.(setSynth := origSetSynth.value, speechSetSynth := origSetSynth.value,
                                guiSetSynth := origSetSynth.value);
      origSetSynth := None;
    }

    method UnpatchTones()
      modifies host`slots, this`origBeep
      ensures (host.slots.tonesBeep, origBeep) == UnpatchSlot(old(host.slots.tonesBeep), old(origBeep))
      ensures host.slots == old(host.slots).(tonesBeep := host.slots.tonesBeep)
    {
      if origBeep.None? {
        return;
      }
      host.slots := host.slots.(tonesBeep := origBeep.value);
      origBeep := None;
    }

    method UnpatchNvwave()
      modifies host`slots, this`origPlayWaveFile
      ensures (host.slots.playWaveFile, origPlayWaveFile)
              == UnpatchSlot(old(host.slots.playWaveFile), old(origPlayWaveFile))
      ensures host.slots == old(host.slots).(playWaveFile := host.slots.playWaveFile)
    {
      if origPlayWaveFile.None? {
        return;
      }
      host.slots := host.slots.(playWaveFile := origPlayWaveFile.value);
      origPlayWaveFile := None;
    }

    method Patch()
      requires Valid()
      modifies host`slots, this`origSpeak, this`origCancel, this`origSetSynth, this`origBeep, this`origPlayWaveFile
      ensures Valid()
      ensures (host.slots, Saved()) == SlavePatched(old(host.slots), old(Saved()))
    {
      PatchSynth();
      PatchTones();
      PatchNvwave();
    }

    method Unpatch()
      requires Valid()
      modifies host`slots, this`origSpeak, this`origCancel, this`origSetSynth, this`origBeep, this`origPlayWaveFile
      ensures Valid() && Saved() == NothingSaved
      ensures (host.slots, Saved()) == SlaveUnpatched(old(host.slots), old(Saved()))
    {
      UnpatchSynth();
      UnpatchTones();
      UnpatchNvwave();
    }

    /** The `speak` hook: announce, then delegate.  Calling an original that
        is not saved raises. */
    method Speak(speechSequence: Value) returns (raised: bool)
      modifies callbacks`log, host`effects
      ensures callbacks.log == old(callbacks.log) +
              [Dispatch("speak", map["speechSequence" := speechSequence], callbacks.Handlers("speak"))]
      ensures raised == origSpeak.None?
      ensures host.effects == old(host.effects) + if raised then [] else [Call(origSpeak.value, [speechSequence])]
    {
      callbacks.CallCallbacks("speak", map["speechSequence" := speechSequence]);
      if origSpeak.None? {
        return true;
      }
      host.Perform(Call(origSpeak.value, [speechSequence]));
      raised := false;
    }

    /** The `cancel` hook. */
    method Cancel() returns (raised: bool)
      modifies callbacks`log, host`effects
      ensures callbacks.log == old(callbacks.log) + [Dispatch("cancel_speech", map[], callbacks.Handlers("cancel_speech"))]
      ensures raised == origCancel.None?
      ensures host.effects == old(host.effects) + if raised then [] else [Call(origCancel.value, [])]
    {
      callbacks.CallCallbacks("cancel_speech", map[]);
      if origCancel.None? {
        return true;
      }
      host.Perform(Call(origCancel.value, []));
      raised := false;
    }

    /** The `tones.beep` hook; `origResult` is what the original returns. */
    method Beep(origResult: Value, hz: Value, length: Value, left: Value := VInt(50), right: Value := VInt(50))
      returns (raised: bool, result: Value)
      modifies callbacks`log, host`effects
      ensures callbacks.log == old(callbacks.log) +
              [Dispatch("beep", map["hz" := hz, "length" := length, "left" := left, "right" := right],
                        callbacks.Handlers("beep"))]
      ensures raised == origBeep.None?
      ensures !raised ==> result == origResult
      ensures host.effects == old(host.effects) + if raised then [] else [CallKw(origBeep.value, [], map["hz" := hz, "length" := length, "left" := left, "right" := right])]
    {
      callbacks.CallCallbacks("beep", map["hz" := hz, "length" := length, "left" := left, "right" := right]);
      if origBeep.None? {
        return true, VNone;
      }
      host.Perform(CallKw(origBeep.value, [], map["hz" := hz, "length" := length, "left" := left, "right" := right]));
      raised, result := false, origResult;
    }

    /** The `nvwave.playWaveFile` hook. */
    method PlayWaveFile(origResult: Value, fileName: Value, async: Value := VBool(true))
      returns (raised: bool, result: Value)
      modifies callbacks`log, host`effects
      ensures callbacks.log == old(callbacks.log) +
              [Dispatch("wave", map["fileName" := fileName, "async" := async], callbacks.Handlers("wave"))]
      ensures raised == origPlayWaveFile.None?
      ensures !raised ==> result == origResult
      ensures host.effects == old(host.effects) +
              if raised then [] else [CallKw(origPlayWaveFile.value, [fileName], map["async" := async])]
    {
      callbacks.CallCallbacks("wave", map["fileName" := fileName, "async" := async]);
      if origPlayWaveFile.None? {
        return true, VNone;
      }
      host.Perform(CallKw(origPlayWaveFile.value, [fileName], map["async" := async]));
      raised, result := false, origResult;
    }

    /** The `setSynth` hook: unpatch, run the original with the positional and
        keyword arguments it was given, patch again.  What the original does to
        the host is given: `installed` is the synthesizer it makes current
        (None when it keeps the current one), `origResult` what it returns. */
    method SetSynth(args: seq<Value>, kwargs: Fields, installed: Option<Synth>, origResult: Value)
      returns (raised: bool, result: Value)
      requires Valid()
      modifies host`slots, host`effects, this`origSpeak, this`origCancel, this`origSetSynth
      ensures Valid()
      ensures raised == old(origSetSynth).None?
      ensures raised ==> host.slots == old(host.slots) && Saved() == old(Saved()) && host.effects == old(host.effects)
      ensures !raised ==> result == origResult && host.effects == old(host.effects) + [CallKw(old(origSetSynth).value, args, kwargs)]
      ensures !raised ==> origSetSynth == old(origSetSynth)
                          && host.slots == old(host.slots).(synth := Synth(Hooked(SpeakHook), Hooked(CancelHook)),
                                                            setSynth := Hooked(SetSynthHook),
                                                            speechSetSynth := Hooked(SetSynthHook),
                                                            guiSetSynth := Hooked(SetSynthHook))
      ensures !raised && installed.Some? ==> origSpeak == Some(installed.value.speak) && origCancel == Some(installed.value.cancel)
      ensures !raised && installed.None? ==> origSpeak == old(origSpeak) && origCancel == old(origCancel)
    {
      var orig := origSetSynth;
      UnpatchSynth();
      if orig.None? {
        return true, VNone;
      }
      host.Perform(CallKw(orig.value, args, kwargs));
      if installed.Some? {
        host.slots := host.slots.(synth := installed.value);
      }
      PatchSynth();
      raised, result := false, origResult;
    }

    /** set_last_index_callback */
    method SetLastIndexCallback(callback: Handler)
      modifies this`lastIndexCallback
      ensures lastIndexCallback == Some(callback)
    {
      lastIndexCallback := Some(callback);
    }
  }

  // ---------------------------------------------------------------------------
  // Gesture fields

  /** The attributes added after the primitive instance fields, each only
      when the gesture has it and the field is not yet present. */
  const GestureExtras: seq<string> := ["source", "id", "identifiers", "dots", "space", "routingIndex"]

  /** The dict comprehension: the instance fields holding an int, str or
      bool.  Python 2 `long` and `unicode` values fail the `isinstance` test
      and are dropped. */
  function PrimitiveFields(d: Fields): (r: Fields)
    ensures forall k :: k in r <==> k in d && IsPrimitive(d[k])
    ensures forall k :: k in r ==> r[k] == d[k]
    ensures forall k :: k in d && (d[k].VLong? || d[k].VUnicode?) ==> k !in r
  {
    map k | k in d && IsPrimitive(d[k]) :: d[k]
  }

  /** One conditional insertion: `if hasattr(gesture, n) and n not in dict`. */
  function AddExtra(d: Fields, g: Gesture, n: string): Fields {
    if HasAttr(g, n) && n !in d then d[n := GetAttr(g, n)] else d
  }

  /** The fields `executeGesture` announces for a braille gesture: the
      primitive instance fields, the script path when one was resolved (an
      input here), then the six extras in turn. */
  function GestureFields(g: Gesture, scriptPath: Option<Value>): Fields {
    var base := PrimitiveFields(g.instanceDict);
    var d0 := if scriptPath.Some? then base["scriptPath" := scriptPath.value] else base;
    AddExtra(AddExtra(AddExtra(AddExtra(AddExtra(AddExtra(d0, g, "source"), g, "id"), g, "identifiers"),
                               g, "dots"), g, "space"), g, "routingIndex")
  }

  /** One insertion adds the attribute `n` when the gesture has it and the
      field is absent, and changes no present field. */
  lemma AddExtraShape(d: Fields, g: Gesture, n: string, k: string)
    ensures k in AddExtra(d, g, n) <==> k in d || (k == n && HasAttr(g, n))
    ensures k in d ==> AddExtra(d, g, n)[k] == d[k]
    ensures k !in d && k == n && HasAttr(g, n) ==> AddExtra(d, g, n)[k] == GetAttr(g, k)
  {
  }

  /** What the announced fields are: the primitive instance fields, the
      script path, and each extra attribute the gesture has, the extras never
      overriding a field already present. */
  lemma GestureFieldsShape(g: Gesture, scriptPath: Option<Value>, k: string)
    ensures var r := GestureFields(g, scriptPath);
            var primitive := k in g.instanceDict && IsPrimitive(g.instanceDict[k]);
            && (k in r <==> primitive || (k == "scriptPath" && scriptPath.Some?)
                            || (k in GestureExtras && HasAttr(g, k)))
            && (k == "scriptPath" && scriptPath.Some? ==> r[k] == scriptPath.value)
            && (primitive && !(k == "scriptPath" && scriptPath.Some?) ==> r[k] == g.instanceDict[k])
            && (k in r && !primitive && !(k == "scriptPath" && scriptPath.Some?) ==> r[k] == GetAttr(g, k))
  {
    var base := PrimitiveFields(g.instanceDict);
    var d0 := if scriptPath.Some? then base["scriptPath" := scriptPath.value] else base;
    var d1 := AddExtra(d0, g, "source");
    var d2 := AddExtra(d1, g, "id");
    var d3 := AddExtra(d2, g, "identifiers");
    var d4 := AddExtra(d3, g, "dots");
    var d5 := AddExtra(d4, g, "space");
    var d6 := AddExtra(d5, g, "routingIndex");
    assert GestureFields(g, scriptPath) == d6;
    AddExtraShape(d0, g, "source", k);
    AddExtraShape(d1, g, "id", k);
    AddExtraShape(d2, g, "identifiers", k);
    AddExtraShape(d3, g, "dots", k);
    AddExtraShape(d4, g, "space", k);
    AddExtraShape(d5, g, "routingIndex", k);
    assert k in GestureExtras <==> k == "source" || k == "id" || k == "identifiers" || k == "dots"
                                   || k == "space" || k == "routingIndex";
  }

  /** A field not among the extras nor the script path is present only when
      a primitive instance field holds it. */
  lemma GestureFieldsOnlyPrimitive(g: Gesture, scriptPath: Option<Value>, k: string)
    requires k !in GestureExtras && k != "scriptPath"
    ensures k in GestureFields(g, scriptPath) ==> IsPrimitive(GestureFields(g, scriptPath)[k])
  {
    GestureFieldsShape(g, scriptPath, k);
  }

  // ---------------------------------------------------------------------------
  // NVDAMasterPatcher

  class MasterPatcher {
    const host: Host
    const callbacks: CallbackManager
    var origSetDisplayByName: Option<Fn>
    var origExecuteGesture: Option<Fn>

    constructor (host: Host)
      ensures this.host == host && fresh(callbacks)
      ensures origSetDisplayByName == None && origExecuteGesture == None
      ensures callbacks.registry == map[] && callbacks.log == []
    {
      this.host := host;
      callbacks := new CallbackManager();
      origSetDisplayByName := None;
      origExecuteGesture := None;
    }

    method PatchBrailleInput()
      modifies host`slots, this`origExecuteGesture
      ensures (host.slots.executeGesture, origExecuteGesture)
              == PatchSlot(old(host.slots.executeGesture), old(origExecuteGesture), ExecuteGestureHook)
      ensures host.slots == old(host.slots).(executeGesture := host.slots.executeGesture)
    {
      if origExecuteGesture.Some? {
        return;
      }
      origExecuteGesture := Some(host.slots.executeGesture);
      host.slots := host.slots.(executeGesture := Hooked(ExecuteGestureHook));
    }

    method PatchSetDisplay()
      modifies host`slots, this`origSetDisplayByName
      ensures (host.slots.setDisplayByName, origSetDisplayByName)
              == PatchSlot(old(host.slots.setDisplayByName), old(origSetDisplayByName), SetDisplayByNameHook)
      ensures host.slots == old(host.slots).(setDisplayByName := host.slots.setDisplayByName)
    {
      if origSetDisplayByName.Some? {
        return;
      }
      origSetDisplayByName := Some(host.slots.setDisplayByName);
      host.slots := host.slots.(setDisplayByName := Hooked(SetDisplayByNameHook));
    }

    method UnpatchBrailleInput()
      modifies host`slots, this`origExecuteGesture
      ensures (host.slots.executeGesture, origExecuteGesture)
              == UnpatchSlot(old(host.slots.executeGesture), old(origExecuteGesture))
      ensures host.slots == old(host.slots).(executeGesture := host.slots.executeGesture)
    {
      if origExecuteGesture.None? {
        return;
      }
      host.slots := host.slots.(executeGesture := origExecuteGesture.value);
      origExecuteGesture := None;
    }

    method UnpatchSetDisplay()
      modifies host`slots, this`origSetDisplayByName
      ensures (host.slots.setDisplayByName, origSetDisplayByName)
              == UnpatchSlot(old(host.slots.setDisplayByName), old(origSetDisplayByName))
      ensures host.slots == old(host.slots).(setDisplayByName := host.slots.setDisplayByName)
    {
      if origSetDisplayByName.None? {
        return;
      }
      host.slots := host.slots.(setDisplayByName := origSetDisplayByName.value);
      origSetDisplayByName := None;
    }

    /** The `executeGesture` hook.  A braille gesture is announced and not
        executed locally; any other goes to the original. */
    method ExecuteGesture(g: Gesture, scriptPath: Option<Value>) returns (raised: bool)
      modifies callbacks`log, host`effects
      ensures g.isBraille ==> !raised && host.effects == old(host.effects)
                              && callbacks.log == old(callbacks.log) +
                                 [Dispatch("execute_gesture", GestureFields(g, scriptPath), callbacks.Handlers("execute_gesture"))]
      ensures !g.isBraille ==> callbacks.log == old(callbacks.log) && raised == origExecuteGesture.None?
                               && host.effects == old(host.effects) +
                                  if raised then [] else [GestureCall(origExecuteGesture.value, g)]
    {
      if g.isBraille {
        callbacks.CallCallbacks("execute_gesture", GestureFields(g, scriptPath));
        return false;
      }
      if origExecuteGesture.None? {
        return true;
      }
      host.Perform(GestureCall(origExecuteGesture.value, g));
      raised := false;
    }

    /** The `setDisplayByName` hook: `result` is what the original returns;
        the display change is announced only when it is truthy. */
    method SetDisplayByName(result: Value, name: Value, isFallback: Value := VBool(false))
      returns (raised: bool, r: Value)
      modifies callbacks`log, host`effects
      ensures raised == origSetDisplayByName.None?
      ensures raised ==> callbacks.log == old(callbacks.log) && host.effects == old(host.effects)
      ensures !raised ==> r == result && host.effects == old(host.effects) + [Call(origSetDisplayByName.value, [name, isFallback])]
      ensures !raised ==> callbacks.log == old(callbacks.log) +
                          if Truthy(result) then [Dispatch("set_display", map[], callbacks.Handlers("set_display"))] else []
    {
      if origSetDisplayByName.None? {
        return true, VNone;
      }
      host.Perform(Call(origSetDisplayByName.value, [name, isFallback]));
      if Truthy(result) {
        callbacks.CallCallbacks("set_display", map[]);
      }
      raised, r := false, result;
    }
  }
}
