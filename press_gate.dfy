/** The note on/off logic of the frame loop (VirtualPiano.tsx): sensitivity
    thresholds, the per-finger attack gate with its pressed flags, the held set
    and the release diff, as functions that specify one frame. */
module PressGate {
  import opened Common
  import opened PianoTypes
  import opened Keyboard
  import opened Smoother
  import opened HitTest

  // ---------------------------------------------------------------------------
  // Sensitivity thresholds

  const MIN_Z_THRESHOLD: real := 0.0005
  const MAX_Z_THRESHOLD: real := 0.0035
  const MIN_CURL_THRESHOLD: real := 0.0005
  const MAX_CURL_THRESHOLD: real := 0.004

  /** Depth speed a fingertip must exceed; a higher sensitivity lowers it. */
  function ZVelocityThreshold(sensitivity: real): (t: real)
    ensures sensitivity == 0.0 ==> t == MAX_Z_THRESHOLD
    ensures sensitivity == 1.0 ==> t == MIN_Z_THRESHOLD
    ensures 0.0 <= sensitivity <= 1.0 ==> 0.0 < MIN_Z_THRESHOLD <= t <= MAX_Z_THRESHOLD
  {
    MAX_Z_THRESHOLD - sensitivity * (MAX_Z_THRESHOLD - MIN_Z_THRESHOLD)
  }

  /** Curl speed (tip approaching its base joint) a finger must exceed. */
  function CurlVelocityThreshold(sensitivity: real): (t: real)
    ensures sensitivity == 0.0 ==> t == MAX_CURL_THRESHOLD
    ensures sensitivity == 1.0 ==> t == MIN_CURL_THRESHOLD
    ensures 0.0 <= sensitivity <= 1.0 ==> 0.0 < MIN_CURL_THRESHOLD <= t <= MAX_CURL_THRESHOLD
  {
    MAX_CURL_THRESHOLD - sensitivity * (MAX_CURL_THRESHOLD - MIN_CURL_THRESHOLD)
  }

  /** Raising the sensitivity never raises either threshold. */
  lemma ThresholdsNonIncreasing(s1: real, s2: real)
    requires s1 <= s2
    ensures ZVelocityThreshold(s2) <= ZVelocityThreshold(s1)
    ensures CurlVelocityThreshold(s2) <= CurlVelocityThreshold(s1)
  {
  }

  /** An attack is a downward move and a curl, both strictly above threshold. */
  predicate IsAttacking(zVelocity: real, curlVelocity: real, sensitivity: real) {
    zVelocity > ZVelocityThreshold(sensitivity) && curlVelocity > CurlVelocityThreshold(sensitivity)
  }

  /** For a sensitivity in [0, 1], a finger with no depth motion or no curl
      never attacks, and motion that attacks at sensitivity 0 attacks at every
      higher sensitivity. */
  lemma NoMotionNeverAttacks(zVelocity: real, curlVelocity: real, sensitivity: real)
    requires 0.0 <= sensitivity <= 1.0
    ensures zVelocity <= 0.0 || curlVelocity <= 0.0 ==> !IsAttacking(zVelocity, curlVelocity, sensitivity)
    ensures IsAttacking(zVelocity, curlVelocity, 0.0) ==> IsAttacking(zVelocity, curlVelocity, sensitivity)
  {
    ThresholdsNonIncreasing(0.0, sensitivity);
  }

  // ---------------------------------------------------------------------------
  // Fingers and events

  /** Middle and base joints of a finger. */
  datatype Joints = Joints(pip: nat, mcp: nat)

  /** Joint indices per fingertip landmark. */
  const FINGER_JOINTS_MAP: map<nat, Joints> :=
    map[4 := Joints(3, 2), 8 := Joints(6, 5), 12 := Joints(10, 9), 16 := Joints(14, 13), 20 := Joints(18, 17)]

  /** A trackable fingertip: hand slot and fingertip landmark index
      (the string "hand-tip" of the source). */
  datatype FingerId = FingerId(hand: nat, tip: nat)

  /** A call the frame makes on the audio player, in order. A play is tagged
      with the finger that triggered it. */
  datatype NoteEvent = Play(finger: FingerId, note: string, frequency: real) | Stop(note: string)

  /** `Math.hypot`, supplied by the caller. */
  type Hypot = (real, real) -> real

  /** What one pass of the frame loop reads. */
  datatype FrameInput = FrameInput(
    hands: seq<Hand>,
    prev: seq<Hand>,
    view: View,
    sensitivity: real,
    hypot: Hypot)

  const TIPS_PER_HAND: nat := 5

  function Finger(i: nat, t: nat): FingerId
    requires t < TIPS_PER_HAND
  {
    FingerId(i, FINGERTIP_LANDMARKS[t])
  }

  /** The note under tip `t` of hand `i`, if any. */
  function Hit(inp: FrameInput, i: nat, t: nat): Option<string>
    requires WellFormed(inp.hands) && i < |inp.hands| && t < TIPS_PER_HAND
  {
    var p := inp.hands[i][FINGERTIP_LANDMARKS[t]];
    HitTestTip(p.x, p.y, inp.view)
  }

  /** Whether the finger with fingertip landmark `tip` of hand `i` moved down
      and curled fast enough since the previous frame. False when the previous
      frame has no hand in that slot or lacks one of the landmarks. */
  function AttackDetected(hands: seq<Hand>, prev: seq<Hand>, i: nat, tip: nat, sensitivity: real, hypot: Hypot): bool
    requires WellFormed(hands) && i < |hands| && tip < LANDMARKS_PER_HAND
  {
    && i < |prev|
    && tip in FINGER_JOINTS_MAP
    && var mcp := FINGER_JOINTS_MAP[tip].mcp;
    && mcp < |hands[i]| && tip < |prev[i]| && mcp < |prev[i]|
    && var fingertip, mcpJoint := hands[i][tip], hands[i][mcp];
    && var prevFingertip, prevMcp := prev[i][tip], prev[i][mcp];
    && var tipZVelocity := prevFingertip.z - fingertip.z;
    && var currentDist := hypot(fingertip.x - mcpJoint.x, fingertip.y - mcpJoint.y);
    && var prevDist := hypot(prevFingertip.x - prevMcp.x, prevFingertip.y - prevMcp.y);
    && IsAttacking(tipZVelocity, prevDist - currentDist, sensitivity)
  }

  function Attack(inp: FrameInput, i: nat, t: nat): bool
    requires WellFormed(inp.hands) && i < |inp.hands| && t < TIPS_PER_HAND
  {
    AttackDetected(inp.hands, inp.prev, i, FINGERTIP_LANDMARKS[t], inp.sensitivity, inp.hypot)
  }

  /** Every fingertip has joints, so a missing previous hand is the only way
      to skip the attack check. */
  lemma FingertipsHaveJoints(t: nat)
    requires t < TIPS_PER_HAND
    ensures FINGERTIP_LANDMARKS[t] in FINGER_JOINTS_MAP
    ensures FINGER_JOINTS_MAP[FINGERTIP_LANDMARKS[t]].mcp < FINGERTIP_LANDMARKS[t] < LANDMARKS_PER_HAND
  {
  }

  // ---------------------------------------------------------------------------
  // The attack gate

  /** Frame-loop state touched by the fingers: the held keys in insertion
      order, the highlighted notes, the pressed flags and the plays issued. */
  datatype Gate = Gate(held: seq<string>, highlighted: set<string>, press: map<FingerId, bool>, plays: seq<NoteEvent>)

  /** `fingerPressStateRef.current.get(f) || false`. */
  predicate PressedBefore(press: map<FingerId, bool>, f: FingerId) {
    f in press && press[f]
  }

  predicate IsPianoNote(note: string) {
    exists i :: 0 <= i < |PIANO_KEYS| && PIANO_KEYS[i].note == note
  }

  /** `PIANO_KEYS.find(k => k.note === note)`. */
  function KeyByNote(keys: seq<PianoKey>, note: string): (r: Option<PianoKey>)
    ensures r.Some? ==> r.value in keys && r.value.note == note
    ensures r.None? <==> forall i :: 0 <= i < |keys| ==> keys[i].note != note
  {
    if keys == [] then None
    else if keys[0].note == note then Some(keys[0])
    else KeyByNote(keys[1..], note)
  }

  /** One fingertip: a key under it joins the held set; it plays when the
      finger attacks and its flag is down, raising the flag; no key under it
      lowers the flag. */
  function GateFinger(g: Gate, f: FingerId, hit: Option<string>, attacking: bool): Gate {
    match hit
    case None => g.(press := g.press[f := false])
    case Some(note) =>
      var held := if note in g.held then g.held else g.held + [note];
      if attacking && !PressedBefore(g.press, f) then
        match KeyByNote(PIANO_KEYS, note)
        case Some(k) => Gate(held, g.highlighted + {k.note}, g.press[f := true], g.plays + [Play(f, k.note, k.frequency)])
        case None => g.(held := held)
      else g.(held := held)
  }

  /** What the frame loop observes about one fingertip: which finger, the
      note under it and whether it attacks. */
  datatype Tip = Tip(finger: FingerId, hit: Option<string>, attacking: bool)

  /** The fingertips of the first `n` hands in loop order: hand by hand,
      and within a hand in FINGERTIP_LANDMARKS order. */
  function FrameTips(inp: FrameInput, n: nat): (tips: seq<Tip>)
    requires WellFormed(inp.hands) && n <= |inp.hands|
    ensures |tips| == TIPS_PER_HAND * n
  {
    seq(TIPS_PER_HAND * n, k requires 0 <= k < TIPS_PER_HAND * n =>
      var i, t := k / TIPS_PER_HAND, k % TIPS_PER_HAND;
      Tip(Finger(i, t), Hit(inp, i, t), Attack(inp, i, t)))
  }

  /** The gate run over fingertips in order. */
  function GateAll(g: Gate, tips: seq<Tip>): Gate {
    if tips == [] then g
    else
      var last := tips[|tips| - 1];
      GateFinger(GateAll(g, tips[..|tips| - 1]), last.finger, last.hit, last.attacking)
  }

  // ---------------------------------------------------------------------------
  // The release diff

  /** The notes held last frame and not this frame, in last frame's order. */
  function Released(prev: seq<string>, cur: seq<string>): (r: seq<string>)
    ensures forall n :: n in r <==> n in prev && n !in cur
    ensures NoDup(prev) ==> NoDup(r)
  {
    if prev == [] then []
    else
      var last := prev[|prev| - 1];
      Released(prev[..|prev| - 1], cur) + (if last in cur then [] else [last])
  }

  /** One note-off per note, in order: a stop for every note and nothing else. */
  function StopEvents(notes: seq<string>): (r: seq<NoteEvent>)
    ensures |r| == |notes|
    ensures forall n :: Stop(n) in r <==> n in notes
    ensures forall e :: e in r ==> e.Stop?
  {
    var r := seq(|notes|, k requires 0 <= k < |notes| => Stop(notes[k]));
    assert forall k :: 0 <= k < |notes| ==> r[k] == Stop(notes[k]);
    r
  }

  /** A held set that keeps the same notes releases nothing; each released
      note is released once. */
  lemma ReleaseOnlyOnChange(prev: seq<string>, cur: seq<string>)
    requires NoDup(prev)
    ensures (forall n :: n in prev ==> n in cur) ==> Released(prev, cur) == []
    ensures NoDup(Released(prev, cur))
  {
    if forall n :: n in prev ==> n in cur {
      var r := Released(prev, cur);
      if r != [] { assert r[0] in r; }
    }
  }

  // ---------------------------------------------------------------------------
  // What the gate does to each finger

  /** The flag a finger holds in a map: absent, lowered or raised. */
  function Flag(press: map<FingerId, bool>, f: FingerId): Option<bool> {
    if f in press then Some(press[f]) else None
  }

  /** The play events of finger `f`, in order. */
  function PlaysOf(events: seq<NoteEvent>, f: FingerId): (r: seq<NoteEvent>)
    ensures |r| <= |events|
    ensures forall e :: e in r <==> e in events && e.Play? && e.finger == f
  {
    if events == [] then []
    else
      var last := events[|events| - 1];
      PlaysOf(events[..|events| - 1], f) + (if last.Play? && last.finger == f then [last] else [])
  }

  lemma {:induction false} PlaysOfAppend(a: seq<NoteEvent>, b: seq<NoteEvent>, f: FingerId)
    ensures PlaysOf(a + b, f) == PlaysOf(a, f) + PlaysOf(b, f)
    decreases |b|
  {
    if b == [] {
      assert a + b == a;
    } else {
      var b' := b[..|b| - 1];
      assert (a + b)[..|a + b| - 1] == a + b';
      PlaysOfAppend(a, b', f);
    }
  }

  /** The play a finger issues this frame: one when it is over a key,
      attacking and not already pressed. */
  function NewPlays(f: FingerId, hit: Option<string>, attacking: bool, wasPressed: bool): seq<NoteEvent> {
    if hit.Some? && attacking && !wasPressed then
      match KeyByNote(PIANO_KEYS, hit.value)
      case Some(k) => [Play(f, k.note, k.frequency)]
      case None => []
    else []
  }

  /** A valid note always finds its key, so a play is issued exactly when
      the gate opens, for the note under the finger. */
  lemma NewPlaysOfPianoNote(f: FingerId, hit: Option<string>, attacking: bool, wasPressed: bool)
    requires hit.Some? ==> IsPianoNote(hit.value)
    ensures |NewPlays(f, hit, attacking, wasPressed)| == (if hit.Some? && attacking && !wasPressed then 1 else 0)
    ensures forall e :: e in NewPlays(f, hit, attacking, wasPressed) ==>
      e.Play? && e.finger == f && e.note == hit.value && IsPianoNote(e.note)
  {
    if hit.Some? {
      var i :| 0 <= i < |PIANO_KEYS| && PIANO_KEYS[i].note == hit.value;
      assert KeyByNote(PIANO_KEYS, hit.value).Some?;
    }
  }

  /** Finger `f` ends the step as the debouncer says: pressed exactly when
      it is over a key and was either pressed already or attacks (an explicit
      `false` entry when over no key), with its plays extended by this
      frame's play. */
  predicate FingerOutcome(g': Gate, g: Gate, f: FingerId, hit: Option<string>, attacking: bool) {
    var was := PressedBefore(g.press, f);
    && PressedBefore(g'.press, f) == (hit.Some? && (was || attacking))
    && (hit.None? ==> Flag(g'.press, f) == Some(false))
    && PlaysOf(g'.plays, f) == PlaysOf(g.plays, f) + NewPlays(f, hit, attacking, was)
  }

  /** Finger `f` is not touched by the step. */
  predicate Untouched(g': Gate, g: Gate, f: FingerId) {
    Flag(g'.press, f) == Flag(g.press, f) && PlaysOf(g'.plays, f) == PlaysOf(g.plays, f)
  }

  /** One gate step on the held list: it gains the note under the finger,
      once. */
  lemma GateFingerHeld(g: Gate, f: FingerId, hit: Option<string>, attacking: bool)
    ensures var g' := GateFinger(g, f, hit, attacking);
      && (forall n :: n in g'.held <==> (n in g.held || hit == Some(n)))
      && (NoDup(g.held) ==> NoDup(g'.held))
  {
  }

  /** One gate step on the plays: they grow by this finger's new play. */
  lemma GateFingerPlays(g: Gate, f: FingerId, hit: Option<string>, attacking: bool)
    ensures GateFinger(g, f, hit, attacking).plays == g.plays + NewPlays(f, hit, attacking, PressedBefore(g.press, f))
  {
  }

  /** Every piano note finds its key. */
  lemma PianoNoteHasKey(note: string)
    requires IsPianoNote(note)
    ensures KeyByNote(PIANO_KEYS, note).Some?
  {
  }

  /** One gate step on a finger whose gate opens: it plays its note and is
      marked pressed. */
  lemma GateFingerOpens(g: Gate, f: FingerId, note: string)
    requires IsPianoNote(note) && !PressedBefore(g.press, f)
    ensures var g' := GateFinger(g, f, Some(note), true);
      PressedBefore(g'.press, f) && PlaysOf(g'.plays, f) == PlaysOf(g.plays, f) + NewPlays(f, Some(note), true, false)
  {
    PianoNoteHasKey(note);
    var k := KeyByNote(PIANO_KEYS, note).value;
    var np := [Play(f, k.note, k.frequency)];
    assert GateFinger(g, f, Some(note), true).plays == g.plays + np;
    PlaysOfAppend(g.plays, np, f);
    assert PlaysOf(np, f) == PlaysOf([], f) + [np[0]];
  }

  /** One gate step on the finger itself: it follows the debouncer. */
  lemma GateFingerOwn(g: Gate, f: FingerId, hit: Option<string>, attacking: bool)
    requires hit.Some? ==> IsPianoNote(hit.value)
    ensures FingerOutcome(GateFinger(g, f, hit, attacking), g, f, hit, attacking)
  {
    var was := PressedBefore(g.press, f);
    if hit.Some? && attacking && !was {
      GateFingerOpens(g, f, hit.value);
    } else {
      var np := NewPlays(f, hit, attacking, was);
      assert np == [];
      assert GateFinger(g, f, hit, attacking).plays == g.plays;
    }
  }

  /** One gate step leaves every other finger alone. */
  lemma GateFingerOther(g: Gate, f: FingerId, hit: Option<string>, attacking: bool, other: FingerId)
    requires other != f
    ensures Untouched(GateFinger(g, f, hit, attacking), g, other)
  {
    var np := NewPlays(f, hit, attacking, PressedBefore(g.press, f));
    GateFingerPlays(g, f, hit, attacking);
    PlaysOfAppend(g.plays, np, other);
    if np != [] {
      assert PlaysOf(np, other) == PlaysOf([], other) + [];
    }
  }

  /** Running the gate one fingertip further is one more gate step. */
  lemma GateAllStep(g: Gate, tips: seq<Tip>, k: nat)
    requires k < |tips|
    ensures GateAll(g, tips[..k + 1]) == GateFinger(GateAll(g, tips[..k]), tips[k].finger, tips[k].hit, tips[k].attacking)
  {
    assert tips[..k + 1][..k] == tips[..k];
  }

  /** Distinct (hand, tip) slots are distinct fingers. */
  lemma FingersDistinct(i: nat, t: nat, j: nat, u: nat)
    requires t < TIPS_PER_HAND && u < TIPS_PER_HAND
    ensures Finger(i, t) == Finger(j, u) <==> i == j && t == u
  {
  }

  lemma HitIsPianoNote(inp: FrameInput, i: nat, t: nat)
    requires WellFormed(inp.hands) && i < |inp.hands| && t < TIPS_PER_HAND
    ensures Hit(inp, i, t).Some? ==> IsPianoNote(Hit(inp, i, t).value)
  {
  }

  /** The observation at slot (i, t) of the frame. */
  lemma FrameTipAt(inp: FrameInput, n: nat, i: nat, t: nat)
    requires WellFormed(inp.hands) && n <= |inp.hands| && i < n && t < TIPS_PER_HAND
    ensures TIPS_PER_HAND * i + t < |FrameTips(inp, n)|
    ensures FrameTips(inp, n)[TIPS_PER_HAND * i + t] == Tip(Finger(i, t), Hit(inp, i, t), Attack(inp, i, t))
  {
    var k := TIPS_PER_HAND * i + t;
    assert k / TIPS_PER_HAND == i && k % TIPS_PER_HAND == t;
  }

  /** Every fingertip of a frame is a different finger, and every note under
      one is a piano note. */
  predicate DistinctFingers(tips: seq<Tip>) {
    forall j, k :: 0 <= j < k < |tips| ==> tips[j].finger != tips[k].finger
  }

  predicate PianoHits(tips: seq<Tip>) {
    forall k :: 0 <= k < |tips| && tips[k].hit.Some? ==> IsPianoNote(tips[k].hit.value)
  }

  lemma FrameTipsWellBehaved(inp: FrameInput, n: nat)
    requires WellFormed(inp.hands) && n <= |inp.hands|
    ensures DistinctFingers(FrameTips(inp, n)) && PianoHits(FrameTips(inp, n))
  {
    var tips := FrameTips(inp, n);
    forall j, k | 0 <= j < k < |tips|
      ensures tips[j].finger != tips[k].finger
    {
      var ij, tj := j / TIPS_PER_HAND, j % TIPS_PER_HAND;
      var ik, tk := k / TIPS_PER_HAND, k % TIPS_PER_HAND;
      FingersDistinct(ij, tj, ik, tk);
    }
  }

  /** The gate gains in its held list exactly the notes under the tips, in
      first-seen order and without repeats. */
  lemma {:induction false} GateAllHeld(g: Gate, tips: seq<Tip>)
    ensures forall n :: n in GateAll(g, tips).held <==> (n in g.held || exists k :: 0 <= k < |tips| && tips[k].hit == Some(n))
    ensures NoDup(g.held) ==> NoDup(GateAll(g, tips).held)
  {
    if tips != [] {
      var init := tips[..|tips| - 1];
      var last := tips[|tips| - 1];
      GateAllHeld(g, init);
      GateFingerHeld(GateAll(g, init), last.finger, last.hit, last.attacking);
      forall n | exists k :: 0 <= k < |tips| && tips[k].hit == Some(n)
        ensures n in GateAll(g, tips).held
      {
        var k :| 0 <= k < |tips| && tips[k].hit == Some(n);
        if k < |init| { assert init[k] == tips[k]; }
      }
      forall n | exists k :: 0 <= k < |init| && init[k].hit == Some(n)
        ensures exists k :: 0 <= k < |tips| && tips[k].hit == Some(n)
      {
        var k :| 0 <= k < |init| && init[k].hit == Some(n);
        assert tips[k] == init[k];
      }
    }
  }

  /** A finger that does not appear among the tips is untouched. */
  lemma {:induction false} GateAllOther(g: Gate, tips: seq<Tip>, f: FingerId)
    requires forall k :: 0 <= k < |tips| ==> tips[k].finger != f
    ensures Untouched(GateAll(g, tips), g, f)
  {
    if tips != [] {
      var init := tips[..|tips| - 1];
      var last := tips[|tips| - 1];
      GateAllOther(g, init, f);
      GateFingerOther(GateAll(g, init), last.finger, last.hit, last.attacking, f);
    }
  }

  /** Each fingertip, appearing once, follows the debouncer from its own
      starting flag whatever the other fingers do. */
  lemma {:induction false} GateAllFinger(g: Gate, tips: seq<Tip>, k: nat)
    requires k < |tips| && DistinctFingers(tips) && PianoHits(tips)
    ensures FingerOutcome(GateAll(g, tips), g, tips[k].finger, tips[k].hit, tips[k].attacking)
  {
    var init := tips[..|tips| - 1];
    var last := tips[|tips| - 1];
    if k == |tips| - 1 {
      GateAllOther(g, init, last.finger);
      GateFingerOwn(GateAll(g, init), last.finger, last.hit, last.attacking);
    } else {
      assert init[k] == tips[k];
      GateAllFinger(g, init, k);
      GateFingerOther(GateAll(g, init), last.finger, last.hit, last.attacking, tips[k].finger);
    }
  }

  /** One frame of the gate on the held list: it gains exactly the notes
      under the fingertips, without repeats. */
  lemma FrameHeld(g: Gate, inp: FrameInput)
    requires WellFormed(inp.hands)
    ensures var g' := GateAll(g, FrameTips(inp, |inp.hands|));
      && (forall note :: note in g'.held <==>
           (note in g.held || exists i, t :: 0 <= i < |inp.hands| && 0 <= t < TIPS_PER_HAND && Hit(inp, i, t) == Some(note)))
      && (NoDup(g.held) ==> NoDup(g'.held))
  {
    var n := |inp.hands|;
    var tips := FrameTips(inp, n);
    GateAllHeld(g, tips);
    forall note | exists k :: 0 <= k < |tips| && tips[k].hit == Some(note)
      ensures exists i, t :: 0 <= i < n && 0 <= t < TIPS_PER_HAND && Hit(inp, i, t) == Some(note)
    {
      var k :| 0 <= k < |tips| && tips[k].hit == Some(note);
      var i, t := k / TIPS_PER_HAND, k % TIPS_PER_HAND;
      assert Hit(inp, i, t) == Some(note);
    }
    forall note | exists i, t :: 0 <= i < n && 0 <= t < TIPS_PER_HAND && Hit(inp, i, t) == Some(note)
      ensures exists k :: 0 <= k < |tips| && tips[k].hit == Some(note)
    {
      var i, t :| 0 <= i < n && 0 <= t < TIPS_PER_HAND && Hit(inp, i, t) == Some(note);
      FrameTipAt(inp, n, i, t);
    }
  }

  /** One frame of the gate on the fingers: each fingertip follows the
      debouncer and every finger not in the frame is untouched. */
  lemma FrameFingers(g: Gate, inp: FrameInput)
    requires WellFormed(inp.hands)
    ensures var g' := GateAll(g, FrameTips(inp, |inp.hands|));
      && (forall i, t :: 0 <= i < |inp.hands| && 0 <= t < TIPS_PER_HAND ==>
            FingerOutcome(g', g, Finger(i, t), Hit(inp, i, t), Attack(inp, i, t)))
      && (forall f: FingerId :: f.hand >= |inp.hands| || f.tip !in FINGERTIP_LANDMARKS ==> Untouched(g', g, f))
  {
    FrameTipsFollowGate(g, inp);
    FrameLeavesOthers(g, inp);
  }

  /** Each fingertip of the frame follows the debouncer. */
  lemma FrameTipsFollowGate(g: Gate, inp: FrameInput)
    requires WellFormed(inp.hands)
    ensures var g' := GateAll(g, FrameTips(inp, |inp.hands|));
      forall i, t :: 0 <= i < |inp.hands| && 0 <= t < TIPS_PER_HAND ==>
        FingerOutcome(g', g, Finger(i, t), Hit(inp, i, t), Attack(inp, i, t))
  {
    var n := |inp.hands|;
    var tips := FrameTips(inp, n);
    var g' := GateAll(g, tips);
    FrameTipsWellBehaved(inp, n);
    forall i, t | 0 <= i < n && 0 <= t < TIPS_PER_HAND
      ensures FingerOutcome(g', g, Finger(i, t), Hit(inp, i, t), Attack(inp, i, t))
    {
      FrameTipAt(inp, n, i, t);
      GateAllFinger(g, tips, TIPS_PER_HAND * i + t);
    }
  }

  /** Every finger that is not a fingertip of the frame is untouched. */
  lemma FrameLeavesOthers(g: Gate, inp: FrameInput)
    requires WellFormed(inp.hands)
    ensures var g' := GateAll(g, FrameTips(inp, |inp.hands|));
      forall f: FingerId :: f.hand >= |inp.hands| || f.tip !in FINGERTIP_LANDMARKS ==> Untouched(g', g, f)
  {
    var n := |inp.hands|;
    var tips := FrameTips(inp, n);
    FrameTipsWellBehaved(inp, n);
    forall f: FingerId | f.hand >= n || f.tip !in FINGERTIP_LANDMARKS
      ensures Untouched(GateAll(g, tips), g, f)
    {
      GateAllOther(g, tips, f);
    }
  }

  /** A finger that played in one frame and is still over a key in the next
      does not play again there: a note sounds once per press. */
  lemma NoReattackWhileOverKeys(g1: Gate, inp1: FrameInput, g2: Gate, inp2: FrameInput, i: nat, t: nat)
    requires WellFormed(inp1.hands) && WellFormed(inp2.hands)
    requires i < |inp1.hands| && i < |inp2.hands| && t < TIPS_PER_HAND
    requires var f := Finger(i, t);
      |PlaysOf(GateAll(g1, FrameTips(inp1, |inp1.hands|)).plays, f)| > |PlaysOf(g1.plays, f)|
    requires g2.press == GateAll(g1, FrameTips(inp1, |inp1.hands|)).press
    requires Hit(inp2, i, t).Some?
    ensures var f := Finger(i, t);
      PlaysOf(GateAll(g2, FrameTips(inp2, |inp2.hands|)).plays, f) == PlaysOf(g2.plays, f)
  {
    FrameFingers(g1, inp1);
    FrameFingers(g2, inp2);
  }

  /** A finger lifted off the keys in one frame plays again in the next
      frame in which it attacks over a key. */
  lemma ReleaseRearms(g1: Gate, inp1: FrameInput, g2: Gate, inp2: FrameInput, i: nat, t: nat)
    requires WellFormed(inp1.hands) && WellFormed(inp2.hands)
    requires i < |inp1.hands| && i < |inp2.hands| && t < TIPS_PER_HAND
    requires Hit(inp1, i, t).None?
    requires g2.press == GateAll(g1, FrameTips(inp1, |inp1.hands|)).press
    requires Hit(inp2, i, t).Some? && Attack(inp2, i, t)
    ensures var f := Finger(i, t);
      var p := PlaysOf(GateAll(g2, FrameTips(inp2, |inp2.hands|)).plays, f);
      |p| == |PlaysOf(g2.plays, f)| + 1 && p[|p| - 1].note == Hit(inp2, i, t).value
  {
    FrameFingers(g1, inp1);
    FrameFingers(g2, inp2);
    var f := Finger(i, t);
    HitIsPianoNote(inp2, i, t);
    NewPlaysOfPianoNote(f, Hit(inp2, i, t), true, false);
    var np := NewPlays(f, Hit(inp2, i, t), true, false);
    assert np[0] in np;
  }
}
