/** The keyboard layout of constants.ts: one key rectangle per note, white keys
    laid left to right by a cursor, black keys straddling the cursor. */
module Keyboard {
  import opened Common
  import opened PianoTypes

  const WHITE_KEY_WIDTH: int := 40
  const WHITE_KEY_HEIGHT: int := 150
  const BLACK_KEY_WIDTH: int := 24
  const BLACK_KEY_HEIGHT: int := 90

  /** One entry of the note table: a name such as "C#4" and its frequency. */
  datatype NoteSpec = NoteSpec(note: string, freq: real)

  /** The note table, C4 to B6, one octave per constant. */
  const OCTAVE_4: seq<NoteSpec> := [
    NoteSpec("C4", 261.63), NoteSpec("C#4", 277.18),
    NoteSpec("D4", 293.66), NoteSpec("D#4", 311.13),
    NoteSpec("E4", 329.63),
    NoteSpec("F4", 349.23), NoteSpec("F#4", 369.99),
    NoteSpec("G4", 392.00), NoteSpec("G#4", 415.30),
    NoteSpec("A4", 440.00), NoteSpec("A#4", 466.16),
    NoteSpec("B4", 493.88)]

  const OCTAVE_5: seq<NoteSpec> := [
    NoteSpec("C5", 523.25), NoteSpec("C#5", 554.37),
    NoteSpec("D5", 587.33), NoteSpec("D#5", 622.25),
    NoteSpec("E5", 659.25),
    NoteSpec("F5", 698.46), NoteSpec("F#5", 739.99),
    NoteSpec("G5", 783.99), NoteSpec("G#5", 830.61),
    NoteSpec("A5", 880.00), NoteSpec("A#5", 932.33),
    NoteSpec("B5", 987.77)]

  const OCTAVE_6: seq<NoteSpec> := [
    NoteSpec("C6", 1046.50), NoteSpec("C#6", 1108.73),
    NoteSpec("D6", 1174.66), NoteSpec("D#6", 1244.51),
    NoteSpec("E6", 1318.51),
    NoteSpec("F6", 1396.91), NoteSpec("F#6", 1479.98),
    NoteSpec("G6", 1567.98), NoteSpec("G#6", 1661.22),
    NoteSpec("A6", 1760.00), NoteSpec("A#6", 1864.66),
    NoteSpec("B6", 1975.53)]

  const NOTES: seq<NoteSpec> := OCTAVE_4 + OCTAVE_5 + OCTAVE_6

  /** `note.includes('#')`: the note is a sharp and gets a black key. */
  predicate IsSharp(note: string) {
    '#' in note
  }

  /** Number of white (non-sharp) notes in `s`. */
  function WhiteCount(s: seq<NoteSpec>): nat {
    if s == [] then 0 else (if IsSharp(s[0].note) then 0 else 1) + WhiteCount(s[1..])
  }

  /** The rectangle pushed for note `n` while the white-key cursor stands at `cursor`. */
  function KeyFor(n: NoteSpec, cursor: int): PianoKey {
    if IsSharp(n.note) then
      PianoKey(n.note, Black, n.freq, cursor - BLACK_KEY_WIDTH / 2, 0, BLACK_KEY_WIDTH, BLACK_KEY_HEIGHT)
    else
      PianoKey(n.note, White, n.freq, cursor, 0, WHITE_KEY_WIDTH, WHITE_KEY_HEIGHT)
  }

  /** The layout of `notes`: key `i` is placed with the cursor advanced past
      every white note before it. */
  function Layout(notes: seq<NoteSpec>): (keys: seq<PianoKey>)
    ensures |keys| == |notes|
  {
    seq(|notes|, i requires 0 <= i < |notes| => KeyFor(notes[i], WHITE_KEY_WIDTH * WhiteCount(notes[..i])))
  }

  /** Total width of the layout of `notes` (the final cursor position). */
  function KeyboardWidth(notes: seq<NoteSpec>): int {
    WHITE_KEY_WIDTH * WhiteCount(notes)
  }

  const PIANO_KEYS: seq<PianoKey> := Layout(NOTES)

  /** Width of the keyboard, the cursor after the last note; `KeyboardDimensions`
      proves it is what the build loop computes for the note table. */
  const KEYBOARD_WIDTH: int := 840
  const KEYBOARD_HEIGHT: int := WHITE_KEY_HEIGHT

  /** Landmark indices of the five fingertips (thumb, index, middle, ring, pinky). */
  const FINGERTIP_LANDMARKS: seq<nat> := [4, 8, 12, 16, 20]

  /** The build loop: walk the note table once, pushing one key per note and
      advancing the cursor on white keys only. */
  method BuildKeys(notes: seq<NoteSpec>) returns (keys: seq<PianoKey>, keyboardWidth: int)
    ensures |keys| == |notes|
    ensures forall i :: 0 <= i < |notes| ==>
      && keys[i].note == notes[i].note
      && keys[i].frequency == notes[i].freq
      && (keys[i].keyType == Black <==> IsSharp(notes[i].note))
    ensures keys == Layout(notes)
    ensures keyboardWidth == KeyboardWidth(notes)
  {
    keys := [];
    var whiteKeyX := 0;
    for i := 0 to |notes|
      invariant |keys| == i
      invariant whiteKeyX == WHITE_KEY_WIDTH * WhiteCount(notes[..i])
      invariant forall k :: 0 <= k < i ==> keys[k] == KeyFor(notes[k], WHITE_KEY_WIDTH * WhiteCount(notes[..k]))
    {
      var n := notes[i];
      assert notes[..i + 1] == notes[..i] + [n];
      WhiteCountAppend(notes[..i], [n]);
      if IsSharp(n.note) {
        keys := keys + [PianoKey(n.note, Black, n.freq, whiteKeyX - BLACK_KEY_WIDTH / 2, 0, BLACK_KEY_WIDTH, BLACK_KEY_HEIGHT)];
      } else {
        keys := keys + [PianoKey(n.note, White, n.freq, whiteKeyX, 0, WHITE_KEY_WIDTH, WHITE_KEY_HEIGHT)];
        whiteKeyX := whiteKeyX + WHITE_KEY_WIDTH;
      }
    }
    assert notes[..|notes|] == notes;
    keyboardWidth := whiteKeyX;
  }

  // ---------------------------------------------------------------------------
  // Counting white notes

  lemma {:induction false} WhiteCountAppend(a: seq<NoteSpec>, b: seq<NoteSpec>)
    ensures WhiteCount(a + b) == WhiteCount(a) + WhiteCount(b)
  {
    if a == [] {
      assert a + b == b;
    } else {
      assert (a + b)[1..] == a[1..] + b;
      WhiteCountAppend(a[1..], b);
    }
  }

  lemma {:induction false} WhiteCountOfSharps(s: seq<NoteSpec>)
    requires forall k :: 0 <= k < |s| ==> IsSharp(s[k].note)
    ensures WhiteCount(s) == 0
  {
    if s != [] {
      WhiteCountOfSharps(s[1..]);
    }
  }

  /** A white note in `s` contributes one to the count. */
  lemma {:induction false} WhiteCountPositive(s: seq<NoteSpec>, k: nat)
    requires k < |s| && !IsSharp(s[k].note)
    ensures WhiteCount(s) >= 1
  {
    if k > 0 {
      WhiteCountPositive(s[1..], k - 1);
    }
  }

  /** The cursor before key `j` is the cursor before key `i` plus the white
      notes from `i` up to `j`. */
  lemma PrefixSplit(notes: seq<NoteSpec>, i: nat, j: nat)
    requires i <= j <= |notes|
    ensures WhiteCount(notes[..j]) == WhiteCount(notes[..i]) + WhiteCount(notes[i..j])
  {
    assert notes[..j] == notes[..i] + notes[i..j];
    WhiteCountAppend(notes[..i], notes[i..j]);
  }

  // ---------------------------------------------------------------------------
  // Geometry of the layout

  /** White keys come in layout order, left to right, without overlap: a white
      key ends at or before the start of every later white key. */
  lemma WhiteKeysOrdered(notes: seq<NoteSpec>, i: nat, j: nat)
    requires i < j < |notes|
    requires !IsSharp(notes[i].note) && !IsSharp(notes[j].note)
    ensures Layout(notes)[i].x + Layout(notes)[i].width <= Layout(notes)[j].x
  {
    PrefixSplit(notes, i, j);
    WhiteCountPositive(notes[i..j], 0);
  }

  /** Consecutive white keys touch: with only sharps between white notes `i`
      and `j`, key `j` starts exactly where key `i` ends. */
  lemma WhiteKeysContiguous(notes: seq<NoteSpec>, i: nat, j: nat)
    requires i < j < |notes|
    requires !IsSharp(notes[i].note) && !IsSharp(notes[j].note)
    requires forall k :: i < k < j ==> IsSharp(notes[k].note)
    ensures Layout(notes)[j].x == Layout(notes)[i].x + Layout(notes)[i].width
  {
    PrefixSplit(notes, i, j);
    assert notes[i..j] == [notes[i]] + notes[i + 1..j];
    WhiteCountAppend([notes[i]], notes[i + 1..j]);
    WhiteCountOfSharps(notes[i + 1..j]);
  }

  /** A black key is centred on the left edge of the next white key, and the
      cursor does not move over it. */
  lemma BlackKeyCentredOnNextWhite(notes: seq<NoteSpec>, i: nat, j: nat)
    requires i < j < |notes|
    requires IsSharp(notes[i].note) && !IsSharp(notes[j].note)
    requires forall k :: i < k < j ==> IsSharp(notes[k].note)
    ensures Layout(notes)[i].keyType == Black && Layout(notes)[j].keyType == White
    ensures Layout(notes)[i].x + Layout(notes)[i].width / 2 == Layout(notes)[j].x
  {
    PrefixSplit(notes, i, j);
    WhiteCountOfSharps(notes[i..j]);
  }

  /** Every white ordinal `m` below the white count is the cursor of some white key. */
  lemma {:induction false} WhiteKeyAtOrdinal(notes: seq<NoteSpec>, m: nat) returns (i: nat)
    requires m < WhiteCount(notes)
    ensures i < |notes| && !IsSharp(notes[i].note)
    ensures WhiteCount(notes[..i]) == m
    ensures Layout(notes)[i].keyType == White && Layout(notes)[i].x == WHITE_KEY_WIDTH * m
  {
    if !IsSharp(notes[0].note) && m == 0 {
      i := 0;
    } else {
      var m' := if IsSharp(notes[0].note) then m else m - 1;
      var i' := WhiteKeyAtOrdinal(notes[1..], m');
      i := i' + 1;
      assert notes[..i] == [notes[0]] + notes[1..][..i'];
      WhiteCountAppend([notes[0]], notes[1..][..i']);
    }
  }

  /** When the table starts and ends on a white note, every key rectangle lies
      inside [0, width] x [0, KEYBOARD_HEIGHT]. */
  lemma LayoutInBounds(notes: seq<NoteSpec>, i: nat)
    requires i < |notes|
    requires !IsSharp(notes[0].note) && !IsSharp(notes[|notes| - 1].note)
    ensures 0 <= Layout(notes)[i].x
    ensures Layout(notes)[i].x + Layout(notes)[i].width <= KeyboardWidth(notes)
    ensures 0 <= Layout(notes)[i].y && Layout(notes)[i].y + Layout(notes)[i].height <= KEYBOARD_HEIGHT
  {
    PrefixSplit(notes, i, |notes|);
    assert notes[..|notes|] == notes;
    if IsSharp(notes[i].note) {
      assert i != 0 && i != |notes| - 1;
      WhiteCountPositive(notes[..i], 0);
      WhiteCountPositive(notes[i..], |notes| - 1 - i);
    } else {
      WhiteCountPositive(notes[i..], 0);
    }
  }

  // ---------------------------------------------------------------------------
  // Facts about the concrete note table

  predicate DistinctNotes(s: seq<NoteSpec>) {
    forall i, j :: 0 <= i < j < |s| ==> s[i].note != s[j].note
  }

  /** Every note of `s` ends in the octave digit `c`. */
  predicate InOctave(s: seq<NoteSpec>, c: char) {
    forall i :: 0 <= i < |s| ==> |s[i].note| > 0 && s[i].note[|s[i].note| - 1] == c
  }

  lemma Octave4Whites() ensures WhiteCount(OCTAVE_4) == 7 {}
  lemma Octave5Whites() ensures WhiteCount(OCTAVE_5) == 7 {}
  lemma Octave6Whites() ensures WhiteCount(OCTAVE_6) == 7 {}
  lemma Octave4Names() ensures DistinctNotes(OCTAVE_4) && InOctave(OCTAVE_4, '4') {}
  lemma Octave5Names() ensures DistinctNotes(OCTAVE_5) && InOctave(OCTAVE_5, '5') {}
  lemma Octave6Names() ensures DistinctNotes(OCTAVE_6) && InOctave(OCTAVE_6, '6') {}

  /** The table has 21 white notes, so the keyboard is 840 units wide and 150 high. */
  lemma KeyboardDimensions()
    ensures WhiteCount(NOTES) == 21
    ensures KeyboardWidth(NOTES) == KEYBOARD_WIDTH == 840 && KEYBOARD_HEIGHT == 150
  {
    Octave4Whites(); Octave5Whites(); Octave6Whites();
    WhiteCountAppend(OCTAVE_4, OCTAVE_5);
    WhiteCountAppend(OCTAVE_4 + OCTAVE_5, OCTAVE_6);
  }

  /** One key per note, in table order, with unique note ids. */
  lemma PianoKeysUnique()
    ensures |PIANO_KEYS| == |NOTES| == 36
    ensures forall i :: 0 <= i < |NOTES| ==> PIANO_KEYS[i].note == NOTES[i].note
    ensures forall i, j :: 0 <= i < j < |PIANO_KEYS| ==> PIANO_KEYS[i].note != PIANO_KEYS[j].note
  {
    Octave4Names(); Octave5Names(); Octave6Names();
    var a := OCTAVE_4 + OCTAVE_5;
    assert DistinctNotes(a) && forall i :: 0 <= i < |a| ==> a[i].note[|a[i].note| - 1] != '6';
    assert DistinctNotes(NOTES);
  }

  /** The table starts and ends on white notes, so the bounds lemma applies to it. */
  lemma NotesStartAndEndWhite()
    ensures |NOTES| == 36 && !IsSharp(NOTES[0].note) && !IsSharp(NOTES[35].note)
  {
  }
}
