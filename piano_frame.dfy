/** The per-frame state of the virtual piano (VirtualPiano.tsx): smoothed
    landmarks, the held keys, the highlighted keys and the pressed flags, and
    one pass of the frame loop that updates them and issues audio calls. */
module PianoFrame {
  import opened Common
  import opened Keyboard
  import opened Smoother
  import opened HitTest
  import opened PressGate

  class PianoSession {
    var smoothed: seq<Hand>
    var prevSmoothed: seq<Hand>
    var heldKeys: seq<string>
    var highlighted: set<string>
    var fingerPress: map<FingerId, bool>

    /** Between frames the previous landmarks are a copy of the smoothed
        ones and the held keys are distinct piano notes. */
    ghost predicate Valid()
      reads this
    {
      && WellFormed(smoothed)
      && prevSmoothed == smoothed
      && NoDup(heldKeys)
      && (forall n :: n in heldKeys ==> IsPianoNote(n))
    }

    constructor()
      ensures Valid()
      ensures smoothed == [] && prevSmoothed == [] && heldKeys == []
      ensures highlighted == {} && fingerPress == map[]
    {
      smoothed := [];
      prevSmoothed := [];
      heldKeys := [];
      highlighted := {};
      fingerPress := map[];
    }

    /** The smoothing step: a new hand count takes the raw frame, no hands
        clears the state, otherwise every landmark is blended in place. */
    method SmoothLandmarks(raw: seq<Hand>)
      requires WellFormed(smoothed) && WellFormed(raw)
      modifies this`smoothed
      ensures smoothed == Smooth(old(smoothed), raw)
    {
      if |raw| == 0 {
        smoothed := [];
        return;
      }
      if |smoothed| != |raw| {
        smoothed := raw;
        return;
      }
      ghost var prev := smoothed;
      ghost var target := Smooth(prev, raw);
      for i := 0 to |raw|
        invariant |smoothed| == |raw|
        invariant forall k :: 0 <= k < i ==> smoothed[k] == target[k]
        invariant forall k :: i <= k < |raw| ==> smoothed[k] == prev[k]
      {
        ghost var before := smoothed;
        for j := 0 to |raw[i]|
          invariant |smoothed| == |raw| && |smoothed[i]| == |raw[i]|
          invariant forall k :: 0 <= k < |raw| && k != i ==> smoothed[k] == before[k]
          invariant forall l :: 0 <= l < j ==> smoothed[i][l] == Blend(raw[i][l], prev[i][l])
          invariant forall l :: j <= l < |raw[i]| ==> smoothed[i][l] == prev[i][l]
        {
          var newPt := raw[i][j];
          var oldPt := smoothed[i][j];
          smoothed := smoothed[i := smoothed[i][j := Blend(newPt, oldPt)]];
        }
        assert smoothed[i] == target[i];
      }
      assert smoothed == target;
    }
  
    /** The gate state a frame starts from: nothing held yet this frame. */
    static function FrameStart(highlighted: set<string>, press: map<FingerId, bool>): Gate {
      Gate([], highlighted, press, [])
    }

    /** The body of the fingertip loop for tip `t` of hand `i`: hit test,
        held set, and the attack gate with its pressed flag. */
    static method GateFingertip(g: Gate, hands: seq<Hand>, previousHands: seq<Hand>, i: nat, t: nat,
                                view: View, sensitivity: real, hypot: Hypot)
      returns (g': Gate)
      requires WellFormed(hands) && i < |hands| && t < TIPS_PER_HAND
      ensures var inp := FrameInput(hands, previousHands, view, sensitivity, hypot);
        g' == GateFinger(g, Finger(i, t), Hit(inp, i, t), Attack(inp, i, t))
    {
      var held, hl, press, plays := g.held, g.highlighted, g.press, g.plays;
      var tipIndex := FINGERTIP_LANDMARKS[t];
      var fingertip := hands[i][tipIndex];
      var fingerId := FingerId(i, tipIndex);
      var keyUnderFinger := HitTestTip(fingertip.x, fingertip.y, view);
      if keyUnderFinger.Some? {
        var note := keyUnderFinger.value;
        if note !in held {
          held := held + [note];
        }
        var isAttacking := AttackDetected(hands, previousHands, i, tipIndex, sensitivity, hypot);
        var wasPressed := fingerId in press && press[fingerId];
        if isAttacking && !wasPressed {
          var key := KeyByNote(PIANO_KEYS, note);
          if key.Some? {
            plays := plays + [Play(fingerId, key.value.note, key.value.frequency)];
            hl := hl + {key.value.note};
            press := press[fingerId := true];
          }
        }
      } else {
        press := press[fingerId := false];
      }
      g' := Gate(held, hl, press, plays);
    }

    /** The fingertip loop of one frame: every fingertip of every hand, in
        order, through the attack gate. */
    static method RunGate(g0: Gate, hands: seq<Hand>, previousHands: seq<Hand>, view: View, sensitivity: real, hypot: Hypot)
      returns (g: Gate)
      requires WellFormed(hands)
      ensures g == GateAll(g0, FrameTips(FrameInput(hands, previousHands, view, sensitivity, hypot), |hands|))
    {
      ghost var inp := FrameInput(hands, previousHands, view, sensitivity, hypot);
      ghost var all := FrameTips(inp, |hands|);
      g := g0;
      ghost var k := 0;
      for i := 0 to |hands|
        invariant k == TIPS_PER_HAND * i && g == GateAll(g0, all[..k])
      {
        for t := 0 to TIPS_PER_HAND
          invariant k == TIPS_PER_HAND * i + t && g == GateAll(g0, all[..k])
        {
          g := GateFingertip(g, hands, previousHands, i, t, view, sensitivity, hypot);
          FrameTipAt(inp, |hands|, i, t);
          GateAllStep(g0, all, k);
          k := k + 1;
        }
      }
      assert all[..k] == all;
    }

    /** The note-off loop: a stop, in last frame's order, for every key held
        last frame and not this one, which also loses its highlight. */
    static method ReleaseKeys(previouslyHeld: seq<string>, held: seq<string>, hl: set<string>)
      returns (stops: seq<NoteEvent>, hl': set<string>)
      ensures stops == StopEvents(Released(previouslyHeld, held))
      ensures hl' == hl - (set n | n in Released(previouslyHeld, held))
    {
      stops := [];
      hl' := hl;
      for k := 0 to |previouslyHeld|
        invariant stops == StopEvents(Released(previouslyHeld[..k], held))
        invariant hl' == hl - (set n | n in Released(previouslyHeld[..k], held))
      {
        var note := previouslyHeld[k];
        assert previouslyHeld[..k + 1][..k] == previouslyHeld[..k];
        if note !in held {
          stops := stops + [Stop(note)];
          hl' := hl' - {note};
        }
      }
      assert previouslyHeld[..|previouslyHeld|] == previouslyHeld;
    }

    /** One pass of the frame loop after detection: smooth, run every
        fingertip through the attack gate, release the keys no longer held,
        and keep a copy of the smoothed landmarks for the next frame. The
        audio calls come back in the order they are made. */
    method ProcessFrame(raw: seq<Hand>, view: View, sensitivity: real, hypot: Hypot) returns (events: seq<NoteEvent>)
      requires Valid() && WellFormed(raw)
      modifies this
      ensures Valid()
      ensures smoothed == Smooth(old(smoothed), raw) && prevSmoothed == smoothed
      ensures var g := GateAll(FrameStart(old(highlighted), old(fingerPress)),
                               FrameTips(FrameInput(smoothed, old(smoothed), view, sensitivity, hypot), |smoothed|));
        var released := Released(old(heldKeys), g.held);
        && heldKeys == g.held
        && fingerPress == g.press
        && events == g.plays + StopEvents(released)
        && highlighted == g.highlighted - (set n | n in released)
    {
      var previousHands := prevSmoothed;
      SmoothLandmarks(raw);
      var hands := smoothed;
      var g := RunGate(FrameStart(highlighted, fingerPress), hands, previousHands, view, sensitivity, hypot);
      var stops, hl := ReleaseKeys(heldKeys, g.held, g.highlighted);
      ghost var inp := FrameInput(hands, previousHands, view, sensitivity, hypot);
      FrameHeld(FrameStart(highlighted, fingerPress), inp);
      events := g.plays + stops;
      heldKeys := g.held;
      highlighted := hl;
      fingerPress := g.press;
      prevSmoothed := smoothed;
      forall n | n in heldKeys
        ensures IsPianoNote(n)
      {
        var i, t :| 0 <= i < |hands| && 0 <= t < TIPS_PER_HAND && Hit(inp, i, t) == Some(n);
        HitIsPianoNote(inp, i, t);
      }
    }
  }
}
