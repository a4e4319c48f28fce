/** remoteClient/local_machine.py: how the master's machine acts on what the
    peer sends.  Output is suppressed while muted; braille is written only
    when remote braille is on and a display is attached. */
module RemoteLocalMachine {
  import opened Values
  import opened Host

  class LocalMachine {
    const host: Host
    var isMuted: bool
    var remoteBraille: bool

    constructor (host: Host)
      ensures this.host == host && !isMuted && !remoteBraille
    {
      this.host := host;
      isMuted := false;
      remoteBraille := false;
    }

    /** play_wave: `fileExists` is whether the file exists on this machine. */
    method PlayWave(fileName: Value, async: Value, fileExists: bool)
      modifies host`effects
      ensures host.effects == old(host.effects) +
              if !isMuted && fileExists then [CallKw(host.slots.playWaveFile, [], map["fileName" := fileName, "async" := async])] else []
    {
      if isMuted {
        return;
      }
      if fileExists {
        host.Perform(CallKw(host.slots.playWaveFile, [], map["fileName" := fileName, "async" := async]));
      }
    }

    /** beep */
    method Beep(hz: Value, length: Value, left: Value, right: Value)
      modifies host`effects
      ensures host.effects == old(host.effects) +
              if isMuted then [] else [Call(host.slots.tonesBeep, [hz, length, left, right])]
    {
      if isMuted {
        return;
      }
      host.Perform(Call(host.slots.tonesBeep, [hz, length, left, right]));
    }

    /** cancel_speech: the current synthesizer's cancel, on the GUI thread. */
    method CancelSpeech()
      modifies host`effects
      ensures host.effects == old(host.effects) +
              if isMuted then [] else [CallAfter(host.slots.synth.cancel, [])]
    {
      if isMuted {
        return;
      }
      host.Perform(CallAfter(host.slots.synth.cancel, []));
    }

    /** speak: clears `speech.beenCanceled`, then speaks on the GUI thread. */
    method Speak(sequence: Value)
      modifies host`effects, host`beenCanceled
      ensures isMuted ==> host.effects == old(host.effects) && host.beenCanceled == old(host.beenCanceled)
      ensures !isMuted ==> (!host.beenCanceled &&
              host.effects == old(host.effects) + [CallAfter(host.slots.synth.speak, [sequence])])
    {
      if isMuted {
        return;
      }
      host.beenCanceled := false;
      host.Perform(CallAfter(host.slots.synth.speak, [sequence]));
    }

    /** display: the cells padded with zeros up to the display size. */
    method Display(cells: seq<int>)
      modifies host`effects
      ensures host.effects == old(host.effects) +
              if remoteBraille && host.numCells > 0 then [WriteCellsLater(PadCells(cells, host.displaySize))] else []
    {
      if remoteBraille && host.numCells > 0 {
        var padded := cells + Repeat(0, if host.displaySize > |cells| then host.displaySize - |cells| else 0);
        host.Perform(WriteCellsLater(padded));
      }
    }

    /** braille_input: the fields become a braille input gesture for the
        current `executeGesture`; a gesture with no action is ignored. */
    method BrailleInput(kwargs: Fields)
      modifies host`effects
      ensures host.effects == old(host.effects) + [GestureCall(host.slots.executeGesture, Gesture(true, kwargs, map[]))]
    {
      host.Perform(GestureCall(host.slots.executeGesture, Gesture(true, kwargs, map[])));
    }

    /** send_key: the key, with no scan code, on the GUI thread; other fields
        are ignored. */
    method SendKey(vkCode: Value := VNone, extended: Value := VNone, pressed: Value := VNone, kwargs: Fields := map[])
      modifies host`effects
      ensures host.effects == old(host.effects) + [CallAfter(SendKeyFn, [vkCode, VNone, extended, pressed])]
    {
      host.Perform(CallAfter(SendKeyFn, [vkCode, VNone, extended, pressed]));
    }

    /** set_clipboard_text */
    method SetClipboardText(text: Value)
      modifies host`effects
      ensures host.effects == old(host.effects) + [CallKw(CopyToClipFn, [], map["text" := text])]
    {
      host.Perform(CallKw(CopyToClipFn, [], map["text" := text]));
    }

    /** send_SAS */
    method SendSAS()
      modifies host`effects
      ensures host.effects == old(host.effects) + [Call(SendSasFn, [VInt(0)])]
    {
      host.Perform(Call(SendSasFn, [VInt(0)]));
    }
  }
}
