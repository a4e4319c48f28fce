/** The host screen-reader state that the add-on reads and patches: the
    module-level function slots it swaps (`tones.beep`, `nvwave.playWaveFile`,
    the current synthesizer's `speak`/`cancel`, the three `setSynth` names,
    `braille.handler.setDisplayByName`, `inputCore.manager.executeGesture`),
    the braille handler's size fields, and a log of every call made into the
    host.  What the host functions do is not modelled: a call is recorded, not
    executed. */
module Host {
  import opened Values

  /** The patchers' own bound methods, as installed into host slots. */
  datatype Hook =
    | SpeakHook | CancelHook | SetSynthHook | BeepHook | PlayWaveFileHook
    | SetDisplayByNameHook | ExecuteGestureHook

  /** A function object held by a host slot. */
  datatype Fn = Native(name: string) | Hooked(hook: Hook)

  /** The `speak` and `cancel` attributes of the current synthesizer. */
  datatype Synth = Synth(speak: Fn, cancel: Fn)

  /** Every host slot that a patcher replaces. */
  datatype Slots = Slots(
    synth: Synth,            // speech.getSynth().speak / .cancel
    setSynth: Fn,            // synthDriverHandler.setSynth
    speechSetSynth: Fn,      // speech.setSynth
    guiSetSynth: Fn,         // gui.settingsDialogs.setSynth
    tonesBeep: Fn,           // tones.beep
    playWaveFile: Fn,        // nvwave.playWaveFile
    setDisplayByName: Fn,    // braille.handler.setDisplayByName
    executeGesture: Fn)      // inputCore.manager.executeGesture

  /** An input gesture: its instance `__dict__`, the further attributes that
      `getattr` finds on its class, and whether it is a braille gesture
      (`BrailleDisplayGesture` or `BrailleInputGesture`). */
  datatype Gesture = Gesture(isBraille: bool, instanceDict: Fields, classAttrs: Fields)

  predicate HasAttr(g: Gesture, name: string) {
    name in g.instanceDict || name in g.classAttrs
  }

  function GetAttr(g: Gesture, name: string): Value
    requires HasAttr(g, name)
  {
    if name in g.instanceDict then g.instanceDict[name] else g.classAttrs[name]
  }

  /** A call into the host. */
  datatype Effect =
    | Call(target: Fn, args: seq<Value>)            // target(*args), now
    | CallKw(target: Fn, args: seq<Value>, kwargs: Fields)  // target(*args, **kwargs)
    | CallAfter(target: Fn, args: seq<Value>)       // wx.CallAfter(target, *args)
    | WriteCellsLater(cells: seq<int>)              // wx.CallAfter(braille.handler._writeCells, cells)
    | GestureCall(target: Fn, gesture: Gesture)     // target(gesture)

  // Host functions that are called but never patched.
  const CancelSpeechFn := Native("speech.cancelSpeech")
  const UiMessageFn := Native("ui.message")
  const SendKeyFn := Native("input.send_key")
  const CopyToClipFn := Native("api.copyToClip")
  const SendSasFn := Native("ctypes.windll.sas.SendSAS")

  /** The slots before anything is patched. */
  const NativeSlots := Slots(
    Synth(Native("synth.speak"), Native("synth.cancel")),
    Native("synthDriverHandler.setSynth"), Native("synthDriverHandler.setSynth"),
    Native("synthDriverHandler.setSynth"), Native("tones.beep"), Native("nvwave.playWaveFile"),
    Native("braille.handler.setDisplayByName"), Native("inputCore.manager.executeGesture"))

  /** `cells + [0] * (size - len(cells))`: a negative repeat count gives no
      zeros, so cells longer than `size` pass unchanged. */
  function PadCells(cells: seq<int>, size: int): (r: seq<int>)
    ensures |r| == if size > |cells| then size else |cells|
    ensures r[..|cells|] == cells
    ensures forall k :: |cells| <= k < |r| ==> r[k] == 0
  {
    cells + Repeat(0, if size > |cells| then size - |cells| else 0)
  }

  class Host {
    var slots: Slots
    var effects: seq<Effect>
    var beenCanceled: bool          // speech.beenCanceled
    var displaySize: int            // braille.handler.displaySize
    var enabled: bool               // braille.handler.enabled
    var numCells: int               // braille.handler.display.numCells
    var displayName: string         // braille.handler.display.name
    var displayDescription: string  // braille.handler.display.description

    constructor (numCells: int, displaySize: int, name: string, description: string)
      ensures slots == NativeSlots && effects == [] && !beenCanceled
      ensures this.numCells == numCells && this.displaySize == displaySize && enabled
      ensures displayName == name && displayDescription == description
    {
      slots := NativeSlots;
      effects := [];
      beenCanceled := false;
      this.displaySize := displaySize;
      enabled := true;
      this.numCells := numCells;
      displayName := name;
      displayDescription := description;
    }

    /** Records one call into the host. */
    method Perform(e: Effect)
      modifies this`effects
      ensures effects == old(effects) + [e]
    {
      effects := effects + [e];
    }
  }
}
