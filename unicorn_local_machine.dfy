/** unicorn/local_machine.py: the local machine of the virtual-channel
    variant.  Output is suppressed while muted; braille is written only when
    it fits the negotiated display size, which is the smallest positive size
    among the peers' and the local display's. */
module UnicornLocalMachine {
  import opened Values
  import opened Host

  /** A Python list of ints that the caller also holds. */
  class IntList {
    var items: seq<int>

    constructor (items: seq<int>)
      ensures this.items == items
    {
      this.items := items;
    }
  }

  /** `min(i for i in s if i > 0)`, or None where Python raises ValueError. */
  function MinPositive(s: seq<int>): (m: Option<int>)
    ensures m.None? <==> forall x :: x in s ==> x <= 0
    ensures m.Some? ==> m.value > 0 && m.value in s && forall x :: x in s && x > 0 ==> m.value <= x
  {
    if s == [] then None
    else
      var rest := MinPositive(s[1..]);
      assert forall x :: x in s <==> x == s[0] || x in s[1..];
      if s[0] <= 0 then rest
      else if rest.None? || s[0] <= rest.value then
        assert s[0] in s;
        Some(s[0])
      else rest
  }

  class LocalMachine {
    const host: Host
    var isMuted: bool
    var receivingBraille: bool

    constructor (host: Host)
      ensures this.host == host && !isMuted && !receivingBraille
    {
      this.host := host;
      isMuted := false;
      receivingBraille := false;
    }

    /** cancel_speech */
    method CancelSpeech(kwargs: Fields := map[])
      modifies host`effects
      ensures host.effects == old(host.effects) +
              if isMuted then [] else [CallAfter(host.slots.synth.cancel, [])]
    {
      if isMuted {
        return;
      }
      host.Perform(CallAfter(host.slots.synth.cancel, []));
    }

    /** speak */
    method Speak(sequence: Value, kwargs: Fields := map[])
      modifies host`effects, host`beenCanceled
      ensures isMuted ==> host.effects == old(host.effects) && host.beenCanceled == old(host.beenCanceled)
      ensures !isMuted ==> (!host.beenCanceled &&
              host.effects == old(host.effects) + [CallAfter(host.slots.synth.speak, [sequence])])
    {
      if isMuted {
        return;
      }
      host.beenCanceled := false;
      host.Perform(CallAfter(host.slots.synth.speak, [sequence]));
    }

    /** display: only cells that fit are written, padded to exactly the
        display size. */
    method Display(cells: seq<int>, kwargs: Fields := map[])
      modifies host`effects
      ensures var writes := receivingBraille && host.displaySize > 0 && |cells| <= host.displaySize;
              host.effects == old(host.effects) + if writes then [WriteCellsLater(PadCells(cells, host.displaySize))] else []
      ensures receivingBraille && host.displaySize > 0 && |cells| <= host.displaySize ==>
              |PadCells(cells, host.displaySize)| == host.displaySize
    {
      if receivingBraille && host.displaySize > 0 && |cells| <= host.displaySize {
        var padded := cells + Repeat(0, host.displaySize - |cells|);
        host.Perform(WriteCellsLater(padded));
      }
    }

    /** braille_input */
    method BrailleInput(kwargs: Fields)
      modifies host`effects
      ensures host.effects == old(host.effects) + [GestureCall(host.slots.executeGesture, Gesture(true, kwargs, map[]))]
    {
      host.Perform(GestureCall(host.slots.executeGesture, Gesture(true, kwargs, map[])));
    }

    /** set_braille_display_size: the local size joins the caller's list; the
        smallest positive size wins, the local size when none is positive;
        braille is enabled iff the chosen size is non-zero. */
    method SetBrailleDisplaySize(sizes: IntList, kwargs: Fields := map[])
      modifies sizes, host`displaySize, host`enabled
      ensures sizes.items == old(sizes.items) + [host.numCells]
      ensures host.displaySize == match MinPositive(sizes.items) case Some(m) => m case None => host.numCells
      ensures host.enabled == (host.displaySize != 0)
      ensures host.numCells > 0 ==> 0 < host.displaySize <= host.numCells
    {
      sizes.items := sizes.items + [host.numCells];
      var size: int;
      var smallest := MinPositive(sizes.items);
      if smallest.Some? {
        size := smallest.value;
      } else {
        size := host.numCells;
      }
      assert host.numCells in sizes.items;
      host.displaySize := size;
      host.enabled := size != 0;
    }
  }
}
