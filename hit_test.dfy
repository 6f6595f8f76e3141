/** The hit test of the frame loop (VirtualPiano.tsx): flip a normalised
    fingertip, keep it only inside the keyboard's band on screen, map it to
    keyboard-local coordinates and find the key under it, black keys first. */
module HitTest {
  import opened Common
  import opened PianoTypes
  import opened Keyboard

  datatype Placement = Top | Bottom

  /** Canvas size (the video's pixel size) and the display settings the frame reads. */
  datatype View = View(
    canvasWidth: nat,
    canvasHeight: nat,
    showPiano: bool,
    position: Placement,
    flipHorizontal: bool,
    flipVertical: bool)

  /** Share of the canvas height taken by the keyboard band. */
  const PIANO_REGION_FRACTION: real := 0.3

  /** Inclusive point-in-rectangle test. */
  predicate ContainsPoint(k: PianoKey, px: real, py: real) {
    && px >= k.x as real && px <= (k.x + k.width) as real
    && py >= k.y as real && py <= (k.y + k.height) as real
  }

  predicate Covers(k: PianoKey, t: KeyType, px: real, py: real) {
    k.keyType == t && ContainsPoint(k, px, py)
  }

  /** `keys.find(...)` from index `from`: the first key of colour `t` that
      contains the point. */
  function FindKey(keys: seq<PianoKey>, t: KeyType, px: real, py: real, from: nat): (r: Option<nat>)
    requires from <= |keys|
    ensures r.Some? ==> from <= r.value < |keys| && Covers(keys[r.value], t, px, py)
    ensures r.Some? ==> forall i :: from <= i < r.value ==> !Covers(keys[i], t, px, py)
    ensures r.None? ==> forall i :: from <= i < |keys| ==> !Covers(keys[i], t, px, py)
    decreases |keys| - from
  {
    if from == |keys| then None
    else if Covers(keys[from], t, px, py) then Some(from)
    else FindKey(keys, t, px, py, from + 1)
  }

  /** The note under keyboard-local point (px, py): the first black key that
      contains it, otherwise the first white key, otherwise none. */
  function LocateKey(keys: seq<PianoKey>, px: real, py: real): (r: Option<string>)
    ensures r.Some? ==> exists i :: 0 <= i < |keys| && keys[i].note == r.value && ContainsPoint(keys[i], px, py)
    ensures r.None? <==> forall i :: 0 <= i < |keys| ==> !ContainsPoint(keys[i], px, py)
  {
    match FindKey(keys, Black, px, py, 0)
    case Some(b) => Some(keys[b].note)
    case None =>
      match FindKey(keys, White, px, py, 0)
      case Some(w) => Some(keys[w].note)
      case None => None
  }

  /** A black key that contains the point wins over every white key: the result
      is the first black key in layout order that contains it. */
  lemma BlackKeyWins(keys: seq<PianoKey>, px: real, py: real, b: nat) returns (first: nat)
    requires b < |keys| && Covers(keys[b], Black, px, py)
    ensures first <= b && Covers(keys[first], Black, px, py)
    ensures forall i :: 0 <= i < first ==> !Covers(keys[i], Black, px, py)
    ensures LocateKey(keys, px, py) == Some(keys[first].note)
  {
    first := FindKey(keys, Black, px, py, 0).value;
  }

  /** With no black key under the point, the result is the first white key
      that contains it. */
  lemma WhiteKeyWhenNoBlack(keys: seq<PianoKey>, px: real, py: real, w: nat) returns (first: nat)
    requires w < |keys| && Covers(keys[w], White, px, py)
    requires forall i :: 0 <= i < |keys| ==> !Covers(keys[i], Black, px, py)
    ensures first <= w && Covers(keys[first], White, px, py)
    ensures forall i :: 0 <= i < first ==> !Covers(keys[i], White, px, py)
    ensures LocateKey(keys, px, py) == Some(keys[first].note)
  {
    assert FindKey(keys, Black, px, py, 0).None?;
    first := FindKey(keys, White, px, py, 0).value;
  }

  // ---------------------------------------------------------------------------
  // Resolving points of the layout

  /** The cursor a key of the layout was placed with. */
  function Cursor(notes: seq<NoteSpec>, i: nat): int
    requires i <= |notes|
  {
    WHITE_KEY_WIDTH * WhiteCount(notes[..i])
  }

  /** Two white keys with the same cursor are the same key. */
  lemma WhiteCursorsDistinct(notes: seq<NoteSpec>, i: nat, j: nat)
    requires i < |notes| && j < |notes|
    requires !IsSharp(notes[i].note) && !IsSharp(notes[j].note)
    requires Cursor(notes, i) == Cursor(notes, j)
    ensures i == j
  {
    if i < j { WhiteKeysOrdered(notes, i, j); }
    if j < i { WhiteKeysOrdered(notes, j, i); }
  }

  /** Two cursors are equal or a whole white key apart. */
  lemma CursorsApart(notes: seq<NoteSpec>, i: nat, j: nat)
    requires i <= |notes| && j <= |notes|
    ensures var ci, cj := Cursor(notes, i), Cursor(notes, j);
      ci == cj || ci - cj >= WHITE_KEY_WIDTH || cj - ci >= WHITE_KEY_WIDTH
  {
    var m, n := WhiteCount(notes[..i]), WhiteCount(notes[..j]);
    if m > n {
      assert WHITE_KEY_WIDTH * m - WHITE_KEY_WIDTH * n == WHITE_KEY_WIDTH * (m - n);
    } else if n > m {
      assert WHITE_KEY_WIDTH * n - WHITE_KEY_WIDTH * m == WHITE_KEY_WIDTH * (n - m);
    }
  }

  /** No black key covers the centre line of a white key. */
  lemma NoBlackAtWhiteCentre(notes: seq<NoteSpec>, i: nat, py: real)
    requires i < |notes|
    ensures forall b :: 0 <= b < |notes| ==> !Covers(Layout(notes)[b], Black, (Cursor(notes, i) + 20) as real, py)
  {
    var c := Cursor(notes, i);
    forall b | 0 <= b < |notes| && Layout(notes)[b].keyType == Black
      ensures !ContainsPoint(Layout(notes)[b], (c + 20) as real, py)
    {
      var cb := Cursor(notes, b);
      assert Layout(notes)[b].x == cb - 12 && Layout(notes)[b].width == 24;
      CursorsApart(notes, b, i);
    }
  }

  /** Every point on the vertical centre line of a white key, from its top to
      its bottom, resolves to that key. */
  lemma WhiteCentreLineResolves(notes: seq<NoteSpec>, i: nat, py: real)
    requires i < |notes| && !IsSharp(notes[i].note)
    requires 0.0 <= py <= WHITE_KEY_HEIGHT as real
    ensures LocateKey(Layout(notes), (Cursor(notes, i) + 20) as real, py) == Some(notes[i].note)
  {
    var keys := Layout(notes);
    var c := Cursor(notes, i);
    var px := (c + 20) as real;
    NoBlackAtWhiteCentre(notes, i, py);
    var first := WhiteKeyWhenNoBlack(keys, px, py, i);
    var cf := Cursor(notes, first);
    assert keys[first].x == cf && !IsSharp(notes[first].note);
    assert cf <= c + 20 <= cf + 40;
    CursorsApart(notes, first, i);
    WhiteCursorsDistinct(notes, first, i);
  }

  /** The centre of every white key resolves to that key. */
  lemma WhiteCentreResolves(notes: seq<NoteSpec>, i: nat)
    requires i < |notes| && !IsSharp(notes[i].note)
    ensures var k := Layout(notes)[i];
      LocateKey(Layout(notes), (k.x + k.width / 2) as real, (k.height / 2) as real) == Some(k.note)
  {
    var k := Layout(notes)[i];
    assert k == KeyFor(notes[i], Cursor(notes, i));
    assert k.x + k.width / 2 == Cursor(notes, i) + 20 && k.height / 2 == 75;
    WhiteCentreLineResolves(notes, i, 75.0);
  }

  /** A point on the edge shared by two white keys, below the black keys,
      resolves to the left one of the two. */
  lemma SharedEdgeResolvesLeft(notes: seq<NoteSpec>, m: nat, py: real) returns (left: nat)
    requires 1 <= m < WhiteCount(notes)
    requires (BLACK_KEY_HEIGHT as real) < py <= (WHITE_KEY_HEIGHT as real)
    ensures left < |notes| && Layout(notes)[left].keyType == White
    ensures Layout(notes)[left].x + Layout(notes)[left].width == WHITE_KEY_WIDTH * m
    ensures LocateKey(Layout(notes), (WHITE_KEY_WIDTH * m) as real, py) == Some(notes[left].note)
  {
    var keys := Layout(notes);
    var px := (WHITE_KEY_WIDTH * m) as real;
    left := WhiteKeyAtOrdinal(notes, m - 1);
    assert forall b :: 0 <= b < |notes| ==> !Covers(keys[b], Black, px, py);
    var first := WhiteKeyWhenNoBlack(keys, px, py, left);
    var cf := Cursor(notes, first);
    assert keys[first].x == cf && !IsSharp(notes[first].note);
    if cf != WHITE_KEY_WIDTH * (m - 1) {
      assert cf == WHITE_KEY_WIDTH * m;
      WhiteKeysOrdered(notes, first, left);
      assert false;
    }
    WhiteCursorsDistinct(notes, first, left);
  }

  /** No two sharps follow each other, so black keys never share a cursor. */
  predicate NoAdjacentSharps(notes: seq<NoteSpec>) {
    forall k :: 0 < k < |notes| ==> !(IsSharp(notes[k - 1].note) && IsSharp(notes[k].note))
  }

  lemma {:induction false} NoWhitesMeansAllSharps(s: seq<NoteSpec>, k: nat)
    requires k < |s| && WhiteCount(s) == 0
    ensures IsSharp(s[k].note)
  {
    if !IsSharp(s[k].note) { WhiteCountPositive(s, k); }
  }

  /** Two black keys with the same cursor are the same key when no two sharps are adjacent. */
  lemma BlackCursorsDistinct(notes: seq<NoteSpec>, i: nat, j: nat)
    requires NoAdjacentSharps(notes)
    requires i <= j < |notes| && IsSharp(notes[i].note) && IsSharp(notes[j].note)
    requires Cursor(notes, i) == Cursor(notes, j)
    ensures i == j
  {
    if i < j {
      PrefixSplit(notes, i, j);
      NoWhitesMeansAllSharps(notes[i..j], 1);
    }
  }

  /** The centre of every black key resolves to that key, when no two sharps
      are adjacent in the note table. */
  lemma BlackCentreResolves(notes: seq<NoteSpec>, i: nat)
    requires NoAdjacentSharps(notes)
    requires i < |notes| && IsSharp(notes[i].note)
    ensures var k := Layout(notes)[i];
      LocateKey(Layout(notes), (k.x + k.width / 2) as real, (k.height / 2) as real) == Some(k.note)
  {
    var keys := Layout(notes);
    var c := Cursor(notes, i);
    var px, py := c as real, 45.0;
    var first := BlackKeyWins(keys, px, py, i);
    var cf := Cursor(notes, first);
    assert keys[first].x == cf - 12 && IsSharp(notes[first].note);
    assert cf - 12 <= c <= cf + 12;
    CursorsApart(notes, first, i);
    BlackCursorsDistinct(notes, first, i);
  }

  /** Two tables without adjacent sharps join into one when the second starts
      with a natural. */
  lemma NoAdjacentSharpsAppend(a: seq<NoteSpec>, b: seq<NoteSpec>)
    requires NoAdjacentSharps(a) && NoAdjacentSharps(b)
    requires b == [] || !IsSharp(b[0].note)
    ensures NoAdjacentSharps(a + b)
  {
    var s := a + b;
    forall k | 0 < k < |s| ensures !(IsSharp(s[k - 1].note) && IsSharp(s[k].note)) {
      if k > |a| {
        assert s[k - 1] == b[k - 1 - |a|] && s[k] == b[k - |a|];
      } else if k == |a| {
        assert s[k] == b[0];
      } else {
        assert s[k - 1] == a[k - 1] && s[k] == a[k];
      }
    }
  }

  lemma Octave4NoAdjacentSharps() ensures NoAdjacentSharps(OCTAVE_4) && !IsSharp(OCTAVE_4[0].note) {}
  lemma Octave5NoAdjacentSharps() ensures NoAdjacentSharps(OCTAVE_5) && !IsSharp(OCTAVE_5[0].note) {}
  lemma Octave6NoAdjacentSharps() ensures NoAdjacentSharps(OCTAVE_6) && !IsSharp(OCTAVE_6[0].note) {}

  lemma NotesHaveNoAdjacentSharps()
    ensures NoAdjacentSharps(NOTES)
  {
    Octave4NoAdjacentSharps(); Octave5NoAdjacentSharps(); Octave6NoAdjacentSharps();
    NoAdjacentSharpsAppend(OCTAVE_4, OCTAVE_5);
    NoAdjacentSharpsAppend(OCTAVE_4 + OCTAVE_5, OCTAVE_6);
  }

  /** Every key resolves to itself at the centre of its rectangle, when no two
      sharps are adjacent in the note table. */
  lemma KeyCentreResolves(notes: seq<NoteSpec>, i: nat)
    requires NoAdjacentSharps(notes) && i < |notes|
    ensures var k := Layout(notes)[i];
      LocateKey(Layout(notes), (k.x + k.width / 2) as real, (k.height / 2) as real) == Some(k.note)
  {
    if IsSharp(notes[i].note) {
      BlackCentreResolves(notes, i);
    } else {
      WhiteCentreResolves(notes, i);
    }
  }

  /** Every key of the piano resolves to itself at the centre of its rectangle. */
  lemma PianoKeyCentresResolve(i: nat)
    requires i < |PIANO_KEYS|
    ensures var k := PIANO_KEYS[i];
      LocateKey(PIANO_KEYS, (k.x + k.width / 2) as real, (k.height / 2) as real) == Some(k.note)
  {
    NotesHaveNoAdjacentSharps();
    KeyCentreResolves(NOTES, i);
  }

  /** The keyboard-local point (20, 75) is the centre of the first key, "C4". */
  lemma FirstKeyCentreIsC4()
    ensures LocateKey(PIANO_KEYS, 20.0, 75.0) == Some("C4")
  {
    NotesStartAndEndWhite();
    PianoKeysUnique();
    WhiteCentreResolves(NOTES, 0);
  }

  // ---------------------------------------------------------------------------
  // From the camera frame to keyboard-local coordinates

  /** The fingertip after the configured flips, still normalised. */
  function Flipped(tipX: real, tipY: real, view: View): (real, real) {
    (if view.flipHorizontal then 1.0 - tipX else tipX,
     if view.flipVertical then 1.0 - tipY else tipY)
  }

  function RegionHeight(view: View): real {
    view.canvasHeight as real * PIANO_REGION_FRACTION
  }

  /** First canvas row of the keyboard band. */
  function BandStart(view: View): real {
    if view.position == Top then 0.0 else view.canvasHeight as real - RegionHeight(view)
  }

  /** Screen y of the flipped fingertip lies in the inclusive keyboard band. */
  predicate InBand(tipY: real, view: View) {
    var y := Flipped(0.0, tipY, view).1 * view.canvasHeight as real;
    BandStart(view) <= y <= BandStart(view) + RegionHeight(view)
  }

  function ScaleX(view: View): real {
    view.canvasWidth as real / KEYBOARD_WIDTH as real
  }

  function ScaleY(view: View): real {
    RegionHeight(view) / KEYBOARD_HEIGHT as real
  }

  /** Keyboard-local x of an on-screen fingertip. */
  function LocalXOf(tipX: real, view: View): real
    requires view.canvasWidth > 0
  {
    (Flipped(tipX, 0.0, view).0 * view.canvasWidth as real) / ScaleX(view)
  }

  /** How far below the top of the band the fingertip is, in keyboard units. */
  function BandOffset(tipY: real, view: View): real
    requires view.canvasHeight > 0
  {
    (Flipped(0.0, tipY, view).1 * view.canvasHeight as real - BandStart(view)) / ScaleY(view)
  }

  /** Keyboard-local coordinates of an on-screen fingertip. At the bottom the
      band offset is subtracted from the band's height in canvas pixels. */
  function KeyboardLocal(tipX: real, tipY: real, view: View): (real, real)
    requires view.canvasWidth > 0 && view.canvasHeight > 0
  {
    (LocalXOf(tipX, view),
     if view.position == Bottom then RegionHeight(view) - BandOffset(tipY, view)
     else BandOffset(tipY, view))
  }

  /** The canvas point where the keyboard is drawn at keyboard-local (px, py):
      scaled into the band, and mirrored vertically at the bottom. */
  function Drawn(px: real, py: real, view: View): (real, real) {
    (px * ScaleX(view),
     if view.position == Bottom then BandStart(view) + RegionHeight(view) - py * ScaleY(view)
     else BandStart(view) + py * ScaleY(view))
  }

  /** The note under a normalised fingertip, or none. A zero-sized canvas
      yields none, as the NaN coordinates of the source compare false. */
  function HitTestTip(tipX: real, tipY: real, view: View): (r: Option<string>)
    ensures !view.showPiano || !InBand(tipY, view) ==> r.None?
    ensures r.Some? ==> exists i :: 0 <= i < |PIANO_KEYS| && PIANO_KEYS[i].note == r.value
  {
    if view.showPiano && InBand(tipY, view) then
      if view.canvasWidth == 0 || view.canvasHeight == 0 then None
      else
        var (px, py) := KeyboardLocal(tipX, tipY, view);
        LocateKey(PIANO_KEYS, px, py)
    else None
  }

  lemma ScaleCancels(f: real, w: real, width: real)
    requires w > 0.0 && width > 0.0
    ensures (f * w) / (w / width) == f * width
  {
  }

  lemma BandMapsToKeyRange(y: real, region: real, height: real)
    requires region > 0.0 && height > 0.0 && 0.0 <= y <= region
    ensures 0.0 <= y / (region / height) <= height
  {
    assert y / (region / height) == y * height / region;
    assert y * height <= region * height;
  }

  /** Horizontal scaling cancels out: the local x is the flipped normalised x
      times the keyboard width, whatever the canvas width. */
  lemma LocalX(tipX: real, tipY: real, view: View)
    requires view.canvasWidth > 0 && view.canvasHeight > 0
    ensures KeyboardLocal(tipX, tipY, view).0 == Flipped(tipX, tipY, view).0 * 840.0
  {
    KeyboardDimensions();
    var fx := Flipped(tipX, tipY, view).0;
    ScaleCancels(fx, view.canvasWidth as real, 840.0);
  }

  /** Inside the band the offset runs from 0 to the keyboard height. */
  lemma BandOffsetInRange(tipY: real, view: View)
    requires view.canvasHeight > 0 && InBand(tipY, view)
    ensures 0.0 <= BandOffset(tipY, view) <= KEYBOARD_HEIGHT as real
  {
    var y := Flipped(0.0, tipY, view).1 * view.canvasHeight as real;
    assert RegionHeight(view) > 0.0 && 0.0 <= y - BandStart(view) <= RegionHeight(view);
    assert BandOffset(tipY, view) == (y - BandStart(view)) / (RegionHeight(view) / 150.0);
    BandMapsToKeyRange(y - BandStart(view), RegionHeight(view), 150.0);
  }

  /** With the keyboard at the top, a fingertip inside the band has a local
      y between the top and the bottom of the keys. */
  lemma LocalYAtTop(tipX: real, tipY: real, view: View)
    requires view.canvasWidth > 0 && view.canvasHeight > 0 && InBand(tipY, view)
    requires view.position == Top
    ensures 0.0 <= KeyboardLocal(tipX, tipY, view).1 <= KEYBOARD_HEIGHT as real
  {
    BandOffsetInRange(tipY, view);
  }

  lemma DivideThenScale(a: real, s: real)
    requires s > 0.0
    ensures (a / s) * s == a
  {
  }

  /** The flips act on each axis separately. */
  lemma FlippedAxes(tipX: real, tipY: real, view: View)
    ensures Flipped(tipX, 0.0, view).0 == Flipped(tipX, tipY, view).0
    ensures Flipped(0.0, tipY, view).1 == Flipped(tipX, tipY, view).1
  {
  }

  /** With the keyboard at the top, the hit test inverts the drawing: the
      keyboard point a fingertip maps to is drawn exactly under it. */
  lemma TopHitInvertsDrawing(tipX: real, tipY: real, view: View)
    requires view.canvasWidth > 0 && view.canvasHeight > 0 && view.position == Top
    ensures var d := Drawn(KeyboardLocal(tipX, tipY, view).0, KeyboardLocal(tipX, tipY, view).1, view);
      && d.0 == Flipped(tipX, tipY, view).0 * view.canvasWidth as real
      && d.1 == Flipped(tipX, tipY, view).1 * view.canvasHeight as real
  {
    FlippedAxes(tipX, tipY, view);
    var x := Flipped(tipX, tipY, view).0 * view.canvasWidth as real;
    var y := Flipped(tipX, tipY, view).1 * view.canvasHeight as real;
    var sx, sy := ScaleX(view), ScaleY(view);
    assert BandStart(view) == 0.0;
    var p := KeyboardLocal(tipX, tipY, view);
    assert p.0 == x / sx && p.1 == y / sy;
    DivideThenScale(x, sx);
    DivideThenScale(y, sy);
    assert p.0 * sx == x && p.1 * sy == y;
  }

  /** Mirroring a row inside a band of height `r` drawn at scale `r / 150`
      lands back on the row exactly when `r` is 150. */
  lemma MirrorRow(y: real, bs: real, r: real, oy: real, sy: real)
    requires r > 0.0 && sy == r / 150.0 && oy * sy == y - bs
    ensures bs + r - (r - oy) * sy == y <==> r == 150.0
  {
    assert bs + r - (r - oy) * sy == y + r - r * sy;
    assert r * sy == r * r / 150.0;
    if r - r * sy == 0.0 {
      assert r * (150.0 - r) == 0.0;
    }
  }

  /** With the keyboard at the bottom, the row a fingertip maps to is drawn
      under it exactly when the band is as tall in canvas pixels as the
      keyboard is in keyboard units. */
  lemma BottomHitInvertsDrawingOnlyAtKeyboardHeight(tipX: real, tipY: real, view: View)
    requires view.canvasWidth > 0 && view.canvasHeight > 0 && view.position == Bottom
    ensures Drawn(KeyboardLocal(tipX, tipY, view).0, KeyboardLocal(tipX, tipY, view).1, view).1
         == Flipped(tipX, tipY, view).1 * view.canvasHeight as real
        <==> RegionHeight(view) == KEYBOARD_HEIGHT as real
  {
    FlippedAxes(tipX, tipY, view);
    var y := Flipped(tipX, tipY, view).1 * view.canvasHeight as real;
    var bs, r, sy := BandStart(view), RegionHeight(view), ScaleY(view);
    var oy := BandOffset(tipY, view);
    assert oy == (y - bs) / sy;
    DivideThenScale(y - bs, sy);
    MirrorRow(y, bs, r, oy, sy);
  }

  /** The 640 x 480 camera view with the keyboard at the bottom. */
  const WEBCAM_BOTTOM: View := View(640, 480, true, Bottom, false, false)

  /** On that view, the fingertip at (1/42, 0.996) lies in the band, 148
      keyboard units below its top edge. */
  lemma WebcamTipOffsets()
    ensures InBand(0.996, WEBCAM_BOTTOM)
    ensures LocalXOf(1.0 / 42.0, WEBCAM_BOTTOM) == 20.0
    ensures BandOffset(0.996, WEBCAM_BOTTOM) == 148.0
  {
    KeyboardDimensions();
    var v := WEBCAM_BOTTOM;
    assert RegionHeight(v) == 144.0 && BandStart(v) == 336.0;
    assert ScaleX(v) == 640.0 / 840.0 && ScaleY(v) == 144.0 / 150.0;
  }

  /** No key reaches above the keyboard's top edge. */
  lemma NothingAboveKeyboard(px: real, py: real)
    requires py < 0.0
    ensures LocateKey(PIANO_KEYS, px, py) == None
  {
    assert forall i :: 0 <= i < |PIANO_KEYS| ==> PIANO_KEYS[i].y == 0;
  }

  /** On that view a fingertip just above the lower edge of the canvas, where
      the C4 key is drawn, maps 4 units above the keyboard and hits nothing. */
  lemma BottomTipMissesDrawnKey()
    ensures KeyboardLocal(1.0 / 42.0, 0.996, WEBCAM_BOTTOM) == (20.0, -4.0)
    ensures HitTestTip(1.0 / 42.0, 0.996, WEBCAM_BOTTOM) == None
    ensures Drawn(20.0, 2.0, WEBCAM_BOTTOM).0 == 1.0 / 42.0 * 640.0
    ensures Drawn(20.0, 2.0, WEBCAM_BOTTOM).1 == 0.996 * 480.0
    ensures LocateKey(PIANO_KEYS, 20.0, 2.0) == Some("C4")
  {
    WebcamTipOffsets();
    KeyboardDimensions();
    assert RegionHeight(WEBCAM_BOTTOM) == 144.0;
    NothingAboveKeyboard(20.0, -4.0);
    NotesStartAndEndWhite();
    PianoKeysUnique();
    WhiteCentreLineResolves(NOTES, 0, 2.0);
    assert Cursor(NOTES, 0) == 0;
  }

  /** Flipping horizontally maps a fingertip where the unflipped view maps
      its mirror image. */
  lemma LocalMirrors(tipX: real, tipY: real, view: View)
    requires view.flipHorizontal && view.canvasWidth > 0 && view.canvasHeight > 0
    ensures KeyboardLocal(tipX, tipY, view) == KeyboardLocal(1.0 - tipX, tipY, view.(flipHorizontal := false))
  {
    var other := view.(flipHorizontal := false);
    assert Flipped(tipX, tipY, view) == Flipped(1.0 - tipX, tipY, other);
    assert RegionHeight(view) == RegionHeight(other) && BandStart(view) == BandStart(other);
    assert LocalXOf(tipX, view) == LocalXOf(1.0 - tipX, other);
    assert BandOffset(tipY, view) == BandOffset(tipY, other);
  }

  /** Flipping horizontally is the same as hit-testing the mirrored x. */
  lemma FlipHorizontalMirrors(tipX: real, tipY: real, view: View)
    requires view.flipHorizontal
    ensures HitTestTip(tipX, tipY, view) == HitTestTip(1.0 - tipX, tipY, view.(flipHorizontal := false))
  {
    var other := view.(flipHorizontal := false);
    assert InBand(tipY, view) == InBand(tipY, other);
    if view.canvasWidth > 0 && view.canvasHeight > 0 {
      LocalMirrors(tipX, tipY, view);
    }
  }
}
