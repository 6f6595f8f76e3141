# AI Virtual Piano: the per-frame note pipeline and its voice managers

A Dafny model of the core of the AI Virtual Piano, a browser piano played by fingertips in front of a camera. The model covers four parts:

- **Keyboard layout** (`keyboard.dfy`, module `Keyboard`). The note table C4 to B6 and the build loop that turns it into key rectangles. The cursor advances by one white-key width on white notes only, and a black key straddles the cursor. Also the keyboard's width and height, and the fingertip landmark indices.
- **One pass of the frame loop** (`smoother.dfy`, `hit_test.dfy`, `press_gate.dfy`, `piano_frame.dfy`).
  - The landmark smoother: reset on a change of hand count, empty on no hands, otherwise a 0.5/0.5 blend in place.
  - The sensitivity thresholds.
  - The hit test: flip the fingertip, keep it only inside the keyboard band, map it to keyboard-local coordinates, black keys first.
  - The per-finger attack gate with its pressed flags, and the held set.
  - The release diff, and the copy of the smoothed landmarks kept for the next frame.
  - The refs of the component are the fields of class `PianoSession`. `ProcessFrame` is one pass, and it returns the audio calls in the order they are made.
- **`AudioPlayer`** (`audio_player.dfy`). A lazily created audio context with a master gain, a sample cache with in-flight deduplication, and a table of sounding voices. Re-striking a note replaces its voice, a stop removes the entry before the fade, and a natural end only removes its own voice. Audio nodes are fresh numeric ids. Gain ramps and scheduled stops go into a ghost log.
- **`InstrumentPlayer`** (`instrument_player.dfy`). Three instruments. The piano is struck (`attack`); the mellotron and synth are held (`sustain`). One source per note, with the play and stop rules that depend on the instrument type, the fallback to the piano for an unknown key, and volume clamping.

The code behaves as follows where one might expect otherwise, and the model does the same:

- A note is held whenever a fingertip is over its key, whether or not it attacks.
- Playing a note is decided per finger. A finger must move down and curl, each strictly faster than its own threshold, while its pressed flag is down. There is no summed score against `1.2 - sensitivity`, and plays do not come from diffing the held sets; only stops do.
- With the keyboard at the bottom, the hit test subtracts from the band's height in canvas pixels, not from the keyboard's height. It therefore mirrors the drawn keyboard only when the band is 150 pixels tall (see `HitTest.BottomHitInvertsDrawingOnlyAtKeyboardHeight` and `HitTest.BottomTipMissesDrawnKey`).
- `loadSamples` does not stop the sounding sources of the previous instrument. It only drops the buffers.
- The frame loop drives `AudioPlayer` and never `InstrumentPlayer`.

## Model

| member | source | states |
|---|---|---|
| Common.Clamp01 | services/audioPlayer.ts:26 | the volume clamp `max(0, min(1, v))`: the result lies in [0, 1], equals the input inside it, is 0 below and 1 above |
| Keyboard.Layout | constants.ts:40-66 | the layout has exactly one key per note |
| Keyboard.KeyFor | constants.ts:42-64 | the key pushed for one note at a cursor: a sharp gets a 24 × 90 black key starting 12 left of the cursor, any other note a 40 × 150 white key starting at the cursor, both at y = 0, with the note's name and frequency |
| Keyboard.BuildKeys | constants.ts:40-68 | the build loop yields one key per note, in input order, with that note's name and frequency. A key is black iff its name contains `#`. The keys equal the layout, and the final cursor is 40 times the number of white notes |
| Keyboard.WhiteKeysOrdered | constants.ts:55-64 | a white key ends at or before the start of every later white key, so white keys never overlap |
| Keyboard.WhiteKeysContiguous | constants.ts:55-64 | with only sharps between two white notes, the second white key starts exactly where the first ends |
| Keyboard.BlackKeyCentredOnNextWhite | constants.ts:42-52 | a black key's centre is the left edge of the next white key, so the cursor does not move over it |
| Keyboard.WhiteKeyAtOrdinal | constants.ts:55-64 | for every m below the white count, some white key is the m-th and has x = 40·m |
| Keyboard.LayoutInBounds | constants.ts:40-69 | when the table starts and ends on white notes, every key lies inside [0, width] × [0, 150] |
| Keyboard.Octave4Whites | constants.ts:10-17 | octave 4 has 7 white notes |
| Keyboard.Octave5Whites | constants.ts:19-26 | octave 5 has 7 white notes |
| Keyboard.Octave6Whites | constants.ts:28-35 | octave 6 has 7 white notes |
| Keyboard.Octave4Names | constants.ts:10-17 | the octave-4 names are distinct and end in '4' |
| Keyboard.Octave5Names | constants.ts:19-26 | the octave-5 names are distinct and end in '5' |
| Keyboard.Octave6Names | constants.ts:28-35 | the octave-6 names are distinct and end in '6' |
| Keyboard.KeyboardDimensions | constants.ts:68-69 | the table has 21 white notes, so the keyboard is 840 wide (the constant) and 150 high |
| Keyboard.PianoKeysUnique | constants.ts:9-36 | 36 keys, in table order, with pairwise distinct note names |
| Keyboard.NotesStartAndEndWhite | constants.ts:9-36 | the table has 36 notes, and its first (C4) and last (B6) are white |
| Smoother.Smooth | components/VirtualPiano.tsx:209-228 | no hands gives the empty state; a changed hand count gives exactly the raw frame; the result always has the raw hand count and 21 landmarks per hand |
| Smoother.Blend | components/VirtualPiano.tsx:217-222 | one landmark's blend: each coordinate is half the new value plus half the old, and the visibility is the new one or 1 |
| Smoother.SmoothMovesHalfway | components/VirtualPiano.tsx:213-222 | with the same hand count, each coordinate moves half of the way from its old value to the new one and lies between them; the visibility is the new one, or 1 when it is absent |
| Smoother.SmoothAt | components/VirtualPiano.tsx:213-222 | the smoothed landmark (i, j) is the blend of the raw and previous landmarks (i, j) |
| Smoother.ConstantInputIsFixedPoint | components/VirtualPiano.tsx:213-222 | smoothing a frame against itself keeps every position, keeps the whole frame when every visibility is present, and a second step changes nothing |
| Smoother.ConvergesOnAxis | components/VirtualPiano.tsx:213-222 | under a constant input with a steady hand count, the gap between a smoothed and a raw coordinate after k frames is the initial gap divided by 2^k |
| HitTest.FindKey | components/VirtualPiano.tsx:278-282 | `find` over one key colour gives the first key of that colour containing the point, or none when no such key contains it |
| HitTest.ContainsPoint | components/VirtualPiano.tsx:278-285 | the inclusive rectangle test of the `find` predicates: x from the key's left to its right edge and y from its top to its bottom edge, both ends included |
| HitTest.LocateKey | components/VirtualPiano.tsx:278-286 | a found note belongs to a key containing the point; no note is found iff no key contains the point |
| HitTest.BlackKeyWins | components/VirtualPiano.tsx:278-280 | when any black key contains the point, the result is the first black key in layout order that does |
| HitTest.WhiteKeyWhenNoBlack | components/VirtualPiano.tsx:281-285 | with no black key under the point, the result is the first white key containing it |
| HitTest.NoBlackAtWhiteCentre | constants.ts:42-52 | no black key covers the vertical centre line of any white key |
| HitTest.WhiteCentreLineResolves | components/VirtualPiano.tsx:278-286 | every point on a white key's centre line, from its top to its bottom, resolves to that key |
| HitTest.WhiteCentreResolves | components/VirtualPiano.tsx:278-286 | the centre of every white key resolves to that key |
| HitTest.SharedEdgeResolvesLeft | components/VirtualPiano.tsx:281-285 | a point on the edge between two white keys, below the black keys, resolves to the left key |
| HitTest.BlackCursorsDistinct | constants.ts:42-52 | when no two sharps are adjacent, two black keys placed at the same cursor are the same key |
| HitTest.BlackCentreResolves | components/VirtualPiano.tsx:278-280 | when no two sharps are adjacent, the centre of every black key resolves to that key |
| HitTest.Octave4NoAdjacentSharps | constants.ts:10-17 | octave 4 starts on a natural and has no two sharps in a row |
| HitTest.Octave5NoAdjacentSharps | constants.ts:19-26 | octave 5 starts on a natural and has no two sharps in a row |
| HitTest.Octave6NoAdjacentSharps | constants.ts:28-35 | octave 6 starts on a natural and has no two sharps in a row |
| HitTest.NotesHaveNoAdjacentSharps | constants.ts:9-36 | the whole note table has no two sharps in a row |
| HitTest.KeyCentreResolves | components/VirtualPiano.tsx:278-286 | when no two sharps are adjacent, every key's centre resolves to that key |
| HitTest.PianoKeyCentresResolve | components/VirtualPiano.tsx:278-286 | the centre of every one of the 36 piano keys resolves to that key |
| HitTest.FirstKeyCentreIsC4 | components/VirtualPiano.tsx:278-286 | the keyboard-local point (20, 75) resolves to "C4" |
| HitTest.HitTestTip | components/VirtualPiano.tsx:262-287 | no key when the keyboard is hidden or the flipped tip is outside the inclusive band; a found note is one of the piano's keys |
| HitTest.InBand | components/VirtualPiano.tsx:262-268 | the flipped fingertip's canvas y lies in the keyboard band, both edges included |
| HitTest.KeyboardLocal | components/VirtualPiano.tsx:262-276 | the keyboard-local point of a fingertip: canvas x over the x scale, and the band offset over the y scale, taken from the band's pixel height when the keyboard is at the bottom |
| HitTest.Drawn | components/VirtualPiano.tsx:22-47 | where the keyboard point (x, y) is painted: x times the x scale, and the band's top plus y times the y scale, or, at the bottom, the band's bottom minus it |
| HitTest.LocalX | components/VirtualPiano.tsx:262-269 | the local x is the flipped normalised x times 840, whatever the canvas width (x is mapped to 1 − x when flipped) |
| HitTest.BandOffsetInRange | components/VirtualPiano.tsx:268-275 | inside the band, the offset from the band's top, in keyboard units, lies in [0, 150] |
| HitTest.LocalYAtTop | components/VirtualPiano.tsx:268-276 | with the keyboard at the top, a tip inside the band has a local y in [0, 150] |
| HitTest.TopHitInvertsDrawing | components/VirtualPiano.tsx:262-276 | with the keyboard at the top, the keyboard point a tip maps to is drawn exactly under the tip |
| HitTest.BottomHitInvertsDrawingOnlyAtKeyboardHeight | components/VirtualPiano.tsx:271-273 | with the keyboard at the bottom, the row a tip maps to is drawn under it iff the band is 150 canvas pixels tall |
| HitTest.WebcamTipOffsets | components/VirtualPiano.tsx:234-239 | on a 640 × 480 canvas with the keyboard at the bottom, the tip (1/42, 0.996) is in the band, at local x 20 and 148 units below the band's top |
| HitTest.NothingAboveKeyboard | components/VirtualPiano.tsx:278-286 | a point above the keyboard's top edge hits no key |
| HitTest.BottomTipMissesDrawnKey | components/VirtualPiano.tsx:271-273 | on that view the tip maps to (20, −4) and hits nothing, while the point drawn under it is (20, 2) on the C4 key |
| HitTest.LocalMirrors | components/VirtualPiano.tsx:262-276 | with a horizontal flip, a tip maps to the local point that the mirrored tip maps to without the flip |
| HitTest.FlipHorizontalMirrors | components/VirtualPiano.tsx:262 | hit-testing with a horizontal flip equals hit-testing the mirrored x without it |
| PressGate.ZVelocityThreshold | components/VirtualPiano.tsx:245-247 | the depth threshold is 0.0035 at sensitivity 0 and 0.0005 at sensitivity 1, and lies within them (and above 0) for sensitivities in [0, 1] |
| PressGate.CurlVelocityThreshold | components/VirtualPiano.tsx:250-252 | the curl threshold is 0.004 at sensitivity 0 and 0.0005 at sensitivity 1, and lies within them (and above 0) for sensitivities in [0, 1] |
| PressGate.ThresholdsNonIncreasing | components/VirtualPiano.tsx:245-252 | raising the sensitivity never raises either threshold |
| PressGate.NoMotionNeverAttacks | components/VirtualPiano.tsx:310-313 | for a sensitivity in [0, 1], no depth motion or no curl never attacks, and motion that attacks at sensitivity 0 attacks at every higher sensitivity |
| PressGate.IsAttacking | components/VirtualPiano.tsx:310-313 | an attack is depth velocity strictly above the depth threshold and curl velocity strictly above the curl threshold |
| PressGate.AttackDetected | components/VirtualPiano.tsx:292-313 | with a previous frame holding the fingertip and its base joint, the depth velocity is the tip's previous z minus its z, the curl velocity the previous tip-to-base distance minus the current one, and the finger attacks iff `IsAttacking` holds of them; otherwise no attack |
| PressGate.Hit | components/VirtualPiano.tsx:262-287 | the note under fingertip t of hand i: `HitTestTip` of that landmark |
| PressGate.FingertipsHaveJoints | components/VirtualPiano.tsx:14-20 | every fingertip landmark has an entry in the joints map, with a base joint that precedes it |
| PressGate.KeyByNote | components/VirtualPiano.tsx:317 | `find` by note gives a key of that note, and gives none iff no key has it |
| PressGate.GateFinger | components/VirtualPiano.tsx:289-330 | one fingertip's step: over a key, the note joins the held list once, and an attack with the flag down plays the key, highlights it and raises the flag; over no key, the flag is set to false |
| PressGate.GateAll | components/VirtualPiano.tsx:254-333 | the gate applied to the fingertips one after the other, in order |
| PressGate.FrameTips | components/VirtualPiano.tsx:254-261 | one frame visits five fingertips per hand, hand by hand |
| PressGate.Released | components/VirtualPiano.tsx:336-342 | a note is released iff it was held last frame and is not held now; no note is released twice when last frame's notes were distinct |
| PressGate.StopEvents | components/VirtualPiano.tsx:337-339 | one stop per released note: as many stops as notes, a stop for a note iff the note is among them, and nothing else |
| PressGate.ReleaseOnlyOnChange | components/VirtualPiano.tsx:336-343 | when every note held last frame is still held, nothing is released, and the released notes are distinct |
| PressGate.NewPlaysOfPianoNote | components/VirtualPiano.tsx:316-322 | over a piano note, a finger plays exactly once when it attacks with its flag down, and never otherwise; the play is for that note |
| PressGate.GateFingerHeld | components/VirtualPiano.tsx:289-290 | one fingertip adds the note under it to the held list, once; distinct held notes stay distinct |
| PressGate.GateFingerPlays | components/VirtualPiano.tsx:313-323 | one fingertip appends exactly this frame's play for that finger to the events |
| PressGate.PianoNoteHasKey | components/VirtualPiano.tsx:317-318 | every piano note finds its key |
| PressGate.GateFingerOpens | components/VirtualPiano.tsx:316-322 | a finger that attacks over a piano note with its flag down plays and raises its flag |
| PressGate.GateFingerOwn | components/VirtualPiano.tsx:289-330 | after one fingertip, its flag is up iff it is over a key and was pressed or attacks; it is explicitly false over no key; its plays grow by the new play only |
| PressGate.GateFingerOther | components/VirtualPiano.tsx:289-330 | one fingertip leaves every other finger's flag and plays alone |
| PressGate.FingersDistinct | components/VirtualPiano.tsx:261 | finger ids `hand-tip` are equal iff the hand and the tip are equal |
| PressGate.HitIsPianoNote | components/VirtualPiano.tsx:267-287 | a note found under a fingertip is a piano note |
| PressGate.FrameTipAt | components/VirtualPiano.tsx:255-261 | the fingertip of hand i, slot t is visited at position 5i + t, with its hit and attack |
| PressGate.FrameTipsWellBehaved | components/VirtualPiano.tsx:255-261 | within one frame every fingertip is a different finger, and every note under one is a piano note |
| PressGate.GateAllHeld | components/VirtualPiano.tsx:289-290 | over a run of fingertips, the held list gains exactly the notes under them, without repeats |
| PressGate.GateAllOther | components/VirtualPiano.tsx:289-330 | a finger absent from the run is untouched |
| PressGate.GateAllFinger | components/VirtualPiano.tsx:289-330 | each fingertip in the run follows the gate from its own starting flag, whatever the other fingers do |
| PressGate.FrameHeld | components/VirtualPiano.tsx:254-333 | after one frame, the held list is the old one plus exactly the notes under some fingertip, without repeats |
| PressGate.FrameFingers | components/VirtualPiano.tsx:254-333 | after one frame, every fingertip follows the gate and every other finger is untouched |
| PressGate.FrameTipsFollowGate | components/VirtualPiano.tsx:254-333 | after one frame, every fingertip follows the gate |
| PressGate.FrameLeavesOthers | components/VirtualPiano.tsx:254-333 | after one frame, fingers of absent hands and non-fingertip landmarks are untouched |
| PressGate.NoReattackWhileOverKeys | components/VirtualPiano.tsx:313-329 | a finger that played in one frame and is over a key in the next does not play in the next |
| PressGate.ReleaseRearms | components/VirtualPiano.tsx:327-329 | a finger over no key in one frame plays exactly once, for the note under it, in the next frame in which it attacks over a key |
| PianoFrame.PianoSession.constructor | components/VirtualPiano.tsx:76-80 | a session starts with no landmarks, nothing held or highlighted, and no flags |
| PianoFrame.PianoSession.SmoothLandmarks | components/VirtualPiano.tsx:209-228 | the in-place nested blend loop leaves exactly `Smooth(previous, raw)` |
| PianoFrame.PianoSession.GateFingertip | components/VirtualPiano.tsx:259-330 | the loop body for one fingertip is one gate step with that finger's hit and attack |
| PianoFrame.PianoSession.RunGate | components/VirtualPiano.tsx:254-333 | the nested fingertip loops run the gate over the frame's fingertips in loop order |
| PianoFrame.PianoSession.ReleaseKeys | components/VirtualPiano.tsx:335-342 | the note-off loop issues the stops of the released notes in last frame's order and unhighlights exactly them |
| PianoFrame.PianoSession.ProcessFrame | components/VirtualPiano.tsx:209-386 | one pass keeps the session valid (distinct held piano notes, previous = smoothed). Smoothed is the smoothing of the raw frame; held keys and flags are the gate's; the events are the plays, then the stops of the released notes; released notes lose their highlight |
| AudioPlayerModel.ReplaceFirst | services/audioPlayer.ts:35 | a note without `#` is unchanged; otherwise exactly one character gives way to the replacement, so the length changes by its length minus one |
| AudioPlayerModel.ReplaceFirstAt | services/audioPlayer.ts:35 | the replacement lands on the first `#` and nowhere else |
| AudioPlayerModel.NoteToUrl | services/audioPlayer.ts:32-37 | the URL is the base URL, then the file name, then `.mp3` |
| AudioPlayerModel.FileName | services/audioPlayer.ts:33-35 | the file name is the note with its first `#` written `sharp` |
| AudioPlayerModel.FileNameRoundTrip | services/audioPlayer.ts:32-36 | a note spelled without `s` is recovered from its file name |
| AudioPlayerModel.NoteToUrlInjective | services/audioPlayer.ts:32-37 | two notes spelled without `s` never share a URL |
| AudioPlayerModel.FileNameExamples | services/audioPlayer.ts:33-35 | F4 gives F4 and C#4 gives Csharp4 |
| AudioPlayerModel.EndedVoices | services/audioPlayer.ts:102-107 | the voice table after a source ends: the note's entry goes only if it still holds that very source |
| AudioPlayerModel.EndRemovesOwnVoice | services/audioPlayer.ts:102-107 | the end of a note's current voice removes that note only |
| AudioPlayerModel.StaleEndKeepsReplacement | services/audioPlayer.ts:102-107 | the end of a replaced voice leaves the replacement in place |
| AudioPlayerModel.ReleaseTime | services/audioPlayer.ts:121 | the custom release when given, else 0.3 |
| AudioPlayerModel.AudioPlayer.constructor | services/audioPlayer.ts:1-8 | no context, no gain, no voices, no buffers, no loads |
| AudioPlayerModel.AudioPlayer.InitContext | services/audioPlayer.ts:10-21 | the context and master gain are created once, with volume 0.5, and only when the browser allows; creating them uses one node; an existing context, or a failure, leaves the volume, the suspension and every table unchanged |
| AudioPlayerModel.AudioPlayer.SetVolume | services/audioPlayer.ts:23-30 | with a master gain, ramps it to the clamped volume 20 ms ahead; nothing happens before the context exists |
| AudioPlayerModel.AudioPlayer.LoadSample | services/audioPlayer.ts:39-70 | a cached buffer returns at once; a note already loading joins that load; otherwise a missing context is first created when the browser allows (volume 0.5, one node), and a load starts iff a context then exists (null otherwise); the voices, the cache and the gain log are untouched |
| AudioPlayerModel.AudioPlayer.CompleteLoad | services/audioPlayer.ts:51-68 | the note stops loading either way; a decoded buffer is cached and returned; a failure caches nothing and returns null |
| AudioPlayerModel.AudioPlayer.StopNote | services/audioPlayer.ts:110-132 | an active note loses its entry, then its gain falls to 0 over the release time and its source stops at that same moment; otherwise nothing changes, so a second stop is a no-op |
| AudioPlayerModel.AudioPlayer.StartVoice | services/audioPlayer.ts:79-107 | the note maps to a voice of the next two nodes, its source and gain; a note already sounding first fades out over 0.015 s, then the new voice ramps up over 10 ms (`StartLog`); other notes keep their entries |
| AudioPlayerModel.AudioPlayer.PlayNote | services/audioPlayer.ts:72-108 | creates the context as `initContext` does and never touches the cache. Without a context nothing changes. With a cached sample the note gets a voice of the next two nodes, with the 0.015 s retrigger fade and the 10 ms attack, and the loads are untouched. Otherwise the call waits on the note's load, now in flight, and the voices and the gain log are unchanged |
| AudioPlayerModel.AudioPlayer.ResumePlay | services/audioPlayer.ts:76-100 | after the await, a null sample changes nothing; a buffer gives the note a voice of the next two nodes, with the retrigger fade and the attack ramp |
| AudioPlayerModel.AudioPlayer.OnEnded | services/audioPlayer.ts:102-107 | the end callback removes the note only if it still holds that source |
| AudioPlayerModel.AudioPlayer.ResumeContext | services/audioPlayer.ts:134-139 | afterwards a context exists iff one did or the browser allows one, and it is not suspended; a new context has volume 0.5 and uses one node; voices, cache, loads and the gain log are unchanged |
| InstrumentPlayerModel.OctaveNames | services/instrumentPlayer.ts:15-26 | an octave of the sample tables has twelve note names, C to B with the sharps |
| InstrumentPlayerModel.SelectInstrument | services/instrumentPlayer.ts:158 | the choice is one of the three instruments; it sustains iff the key is mellotron or synth; an unknown key gives the piano |
| InstrumentPlayerModel.PlayedSources | services/instrumentPlayer.ts:185-204 | the table after `playNote`: no buffer, or a sustained note already sounding, leaves it as it was; otherwise the note gets a fresh source on its buffer, looping iff the instrument sustains |
| InstrumentPlayerModel.Retriggered | services/instrumentPlayer.ts:193-196 | the source `playNote` stops: the note's old one when it has a buffer, is sounding and the instrument is struck; none otherwise |
| InstrumentPlayerModel.StoppedSources | services/instrumentPlayer.ts:217-223 | the table after `stopNote`: a sounding note of a sustain instrument is removed; otherwise nothing changes |
| InstrumentPlayerModel.EndedSources | services/instrumentPlayer.ts:206-210 | the table after a source ends: the note's entry goes only if it still holds that very source |
| InstrumentPlayerModel.SustainPlayIdempotent | services/instrumentPlayer.ts:188-191 | for a sustain instrument, playing a note twice equals playing it once |
| InstrumentPlayerModel.AttackPlayReplaces | services/instrumentPlayer.ts:193-204 | for an attack instrument with a buffer, the note gets the fresh non-looping source, and other notes keep theirs |
| InstrumentPlayerModel.SustainPlayThenStop | services/instrumentPlayer.ts:198-223 | a silent sustained note starts a looping source, and stopping it restores the table |
| InstrumentPlayerModel.StopIgnoresAttack | services/instrumentPlayer.ts:217-223 | stopping a note of an attack instrument changes nothing |
| InstrumentPlayerModel.StaleEndKeepsReplacement | services/instrumentPlayer.ts:206-210 | the end of a replaced source leaves the replacement in place |
| InstrumentPlayerModel.LoadedBuffers | services/instrumentPlayer.ts:161-175 | after loading, a note has a buffer iff it is a sample of the instrument and it fetched and decoded |
| InstrumentPlayerModel.InstrumentPlayer.constructor | services/instrumentPlayer.ts:139-151 | piano selected, volume 0.5, no sources, no buffers |
| InstrumentPlayerModel.InstrumentPlayer.LoadSamples | services/instrumentPlayer.ts:157-176 | the selected instrument (piano for an unknown key) replaces the current one; the old buffers are dropped and only the samples that loaded get one |
| InstrumentPlayerModel.InstrumentPlayer.LoadBuffers | services/instrumentPlayer.ts:161-175 | the per-sample loads, a failure skipped, leave exactly `LoadedBuffers` |
| InstrumentPlayerModel.InstrumentPlayer.PlayNote | services/instrumentPlayer.ts:182-211 | wakes the context; the table becomes `PlayedSources` (no buffer or a sounding sustained note: unchanged; otherwise a fresh source, looping iff sustain); a re-struck attack note's old source is stopped |
| InstrumentPlayerModel.InstrumentPlayer.PlayOn | services/instrumentPlayer.ts:185-204 | the table part of `playNote` keeps ids fresh and distinct, and stops the old source exactly on an attack retrigger |
| InstrumentPlayerModel.InstrumentPlayer.StopNote | services/instrumentPlayer.ts:217-223 | only a sounding note of a sustain instrument is stopped and removed |
| InstrumentPlayerModel.InstrumentPlayer.OnEnded | services/instrumentPlayer.ts:206-210 | the end callback removes the note only if it still holds that source |
| InstrumentPlayerModel.InstrumentPlayer.SetVolume | services/instrumentPlayer.ts:229-232 | the volume becomes the input clamped to [0, 1] |

## Left out

- Camera access, hand-landmark detection and the animation-frame loop. A frame's raw landmarks are an input of `ProcessFrame`, and every detected hand has 21 landmarks.
- `Math.hypot` is a function parameter of the frame, because it needs square roots.
- Drawing of the video, keyboard and landmarks, and the settings UI. `HitTest.Drawn` models only the keyboard's placement transform, to relate the hit test to it.
- The browser's audio graph, `fetch` and decoding. Nodes are fresh ids, buffers are opaque numbers, and gain ramps and stops are recorded in ghost logs, not played.
- Whether the browser can create an audio context, and whether it starts suspended, are parameters. So is the audio clock (`now`). Context resumption is immediate.
- `AudioPlayerModel.AudioPlayer.PlayNote`: with a cached sample, the model starts the voice within the call. The source always yields at `await this.loadSample(note)` (audioPlayer.ts:76), even on an already-resolved promise, so the voice starts after the rest of the frame, including that frame's `stopNote` calls. Played and released notes of one frame are disjoint, so the resulting voice table is the same; the order of the gain commands in the log is not.
- Asynchrony. `AudioPlayer.playNote` is split at its await into `PlayNote` and `ResumePlay`. A load's end is the explicit event `CompleteLoad`. `loadSamples` is given the map of samples that fetched and decoded. Interleavings of loads and instrument switches are not modelled.
- Sample URLs of the instrument tables are not modelled; an instrument carries the note names it has samples for. Two synth URLs are malformed (instrumentPlayer.ts:107 and 131). Their loads fail and are swallowed, which the decoded-sample map covers.
- Note frequencies are carried as given, never computed with.
- JavaScript numbers are IEEE doubles; the model computes with exact reals. Results that sit exactly on a boundary hold in reals but may differ by rounding in the browser. Examples are the key edge at x = 40·m (`HitTest.SharedEdgeResolvesLeft`), the inclusive band edges (`HitTest.InBand`) and the products of `HitTest.WebcamTipOffsets` such as 0.996 · 480.
- `INSTRUMENTS[key]` on a key inherited by every JavaScript object (such as `constructor`) yields a non-instrument. The model treats every key outside the three instruments as unknown.
- `PianoFrame.PianoSession.ProcessFrame`: the audio calls are returned as events rather than made on `AudioPlayer`.
- `HitTest.HitTestTip`: a canvas of zero width or height yields no key, as the source's NaN coordinates compare false.
- Bottom placement is modelled as written. The lemmas say when it agrees with the drawing; there is no mirror round trip for it.
