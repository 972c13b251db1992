/** The hold logic of voice activity detection (vad.rs); the energy test is a given boolean. */
module Vad {
  datatype Detector = Detector(holdFrames: nat, holdCounter: nat, isActive: bool)

  function NewDetector(holdFrames: nat): Detector { Detector(holdFrames, 0, false) }

  /** One call of `detect`: the new detector; its flag is the verdict. */
  function Detect(d: Detector, voice: bool): Detector {
    if voice then d.(holdCounter := d.holdFrames, isActive := true)
    else if d.holdCounter > 0 then d.(holdCounter := d.holdCounter - 1)
    else d.(isActive := false)
  }

  function DetectAll(holdFrames: nat, voices: seq<bool>): Detector {
    if voices == [] then NewDetector(holdFrames)
    else Detect(DetectAll(holdFrames, voices[..|voices| - 1]), voices[|voices| - 1])
  }

  /** Some frame among the last n was classified as voice. */
  ghost predicate VoiceWithin(voices: seq<bool>, n: nat) {
    exists s :: 0 <= s < |voices| && |voices| - n <= s && voices[s]
  }

  /** The counter is the part of the hold window that is left since the last voice frame. */
  lemma {:induction false} CounterIsWindow(holdFrames: nat, voices: seq<bool>)
    ensures var d := DetectAll(holdFrames, voices);
            && d.holdFrames == holdFrames && d.holdCounter <= holdFrames
            && (d.holdCounter > 0 ==> d.isActive)
            && (d.isActive <==> VoiceWithin(voices, holdFrames + 1))
            && (forall n: nat | n <= holdFrames ::
                  holdFrames - n < d.holdCounter <==> VoiceWithin(voices, n))
  {
    if voices != [] {
      var init, voice := voices[..|voices| - 1], voices[|voices| - 1];
      CounterIsWindow(holdFrames, init);
      forall n: nat
        ensures VoiceWithin(voices, n + 1) <==> voice || VoiceWithin(init, n)
      {
        WindowStep(init, voice, n);
        assert voices == init + [voice];
      }
      assert !VoiceWithin(voices, 0);
      var d, d' := DetectAll(holdFrames, init), DetectAll(holdFrames, voices);
      assert d' == Detect(d, voice);
      forall n: nat | n <= holdFrames
        ensures holdFrames - n < d'.holdCounter <==> VoiceWithin(voices, n)
      {
        if n > 0 { assert VoiceWithin(voices, n - 1 + 1) <==> voice || VoiceWithin(init, n - 1); }
      }
      assert holdFrames - holdFrames < d.holdCounter <==> VoiceWithin(init, holdFrames);
      hide VoiceWithin;
    }
  }

  lemma WindowStep(init: seq<bool>, voice: bool, n: nat)
    ensures VoiceWithin(init + [voice], n + 1) <==> voice || VoiceWithin(init, n)
  {
    var voices := init + [voice];
    if voice { assert voices[|init|]; }
    if VoiceWithin(init, n) {
      var s :| 0 <= s < |init| && |init| - n <= s && init[s];
      assert voices[s];
    }
    if VoiceWithin(voices, n + 1) && !voice {
      var s :| 0 <= s < |voices| && |voices| - (n + 1) <= s && voices[s];
      assert init[s];
    }
  }

  /**
   * Detection is a history window: after every history the verdict is true exactly if one
   * of the last hold_frames + 1 frames was voice, for every hold length.
   */
  lemma DetectIsHistoryWindow(holdFrames: nat, voices: seq<bool>)
    ensures DetectAll(holdFrames, voices).isActive <==> VoiceWithin(voices, holdFrames + 1)
  {
    CounterIsWindow(holdFrames, voices);
  }
}

/** The detector object of vad.rs. */
module VoiceActivity {
  import V = Vad

  class VoiceActivityDetector {
    const holdFrames: nat
    var holdCounter: nat
    var isActive: bool
    ghost var heard: seq<bool>

    ghost predicate Valid()
      reads this
    {
      V.Detector(holdFrames, holdCounter, isActive) == V.DetectAll(holdFrames, heard)
    }

    constructor (holdFrames: nat)
      ensures Valid() && heard == [] && this.holdFrames == holdFrames
    {
      this.holdFrames, holdCounter, isActive, heard := holdFrames, 0, false, [];
    }

    method Detect(voiceDetected: bool) returns (active: bool)
      requires Valid()
      modifies this
      ensures Valid() && heard == old(heard) + [voiceDetected]
      ensures active <==> V.VoiceWithin(heard, holdFrames + 1)
    {
      heard := heard + [voiceDetected];
      assert heard[..|heard| - 1] == old(heard);
      if voiceDetected {
        holdCounter := holdFrames;
        isActive := true;
      } else if holdCounter > 0 {
        holdCounter := holdCounter - 1;
      } else {
        isActive := false;
      }
      V.DetectIsHistoryWindow(holdFrames, heard);
      active := isActive;
    }
  }
}
