/** The instrument-switching player (services/instrumentPlayer.ts): three
    sampled instruments, each either struck (`attack`, a note re-strikes) or
    held (`sustain`, a note loops until stopped), one voice per note. Sources
    are numbered in creation order; the sources told to stop are recorded in a ghost
    log. Sample URLs are opaque: an instrument carries the notes it has
    samples for, and a load is given the buffers that fetched and decoded. */
module InstrumentPlayerModel {
  import opened Common

  datatype InstrumentType = Attack | Sustain

  datatype Instrument = Instrument(name: string, kind: InstrumentType, samples: seq<string>)

  /** The twelve note names of octave `o`. */
  function OctaveNames(o: char): (names: seq<string>)
    ensures |names| == 12
  {
    [['C', o], ['C', '#', o], ['D', o], ['D', '#', o], ['E', o], ['F', o],
     ['F', '#', o], ['G', o], ['G', '#', o], ['A', o], ['A', '#', o], ['B', o]]
  }

  /** Every instrument has a sample for C4 through B6. */
  const SAMPLE_NOTES: seq<string> := OctaveNames('4') + OctaveNames('5') + OctaveNames('6')

  const PIANO: Instrument := Instrument("Piano Acústico", Attack, SAMPLE_NOTES)
  const MELLOTRON: Instrument := Instrument("Órgão Mellotron", Sustain, SAMPLE_NOTES)
  const SYNTH: Instrument := Instrument("Sintetizador Doce", Sustain, SAMPLE_NOTES)

  const INSTRUMENTS: map<string, Instrument> := map["piano" := PIANO, "mellotron" := MELLOTRON, "synth" := SYNTH]

  const DEFAULT_VOLUME: real := 0.5

  /** `INSTRUMENTS[key] || INSTRUMENTS.piano`: an unknown key falls back to
      the piano, so the choice is always one of the three instruments, and
      it sustains exactly for the mellotron and the synth. */
  function SelectInstrument(key: string): (r: Instrument)
    ensures r in INSTRUMENTS.Values
    ensures r.kind == Sustain <==> key == "mellotron" || key == "synth"
    ensures key !in INSTRUMENTS ==> r == PIANO
  {
    assert INSTRUMENTS["piano"] == PIANO;
    if key in INSTRUMENTS then INSTRUMENTS[key] else PIANO
  }

  /** A playing buffer source: its id, whether it loops and its buffer. */
  datatype Source = Source(id: nat, looping: bool, buffer: nat)

  /** The voice table after `playNote`: no buffer, or a held note already
      sounding, changes nothing; otherwise the note gets a fresh source that
      loops iff the instrument sustains. */
  function PlayedSources(active: map<string, Source>, note: string, kind: InstrumentType, buffer: Option<nat>, newId: nat): map<string, Source> {
    if buffer.None? then active
    else if note in active && kind == Sustain then active
    else active[note := Source(newId, kind == Sustain, buffer.value)]
  }

  /** The buffer loaded for `note`, if any. */
  function BufferOf(buffers: map<string, nat>, note: string): Option<nat> {
    if note in buffers then Some(buffers[note]) else None
  }

  /** The source a `playNote` stops: the sounding one, when a loaded note of
      an attack instrument is struck again. */
  function Retriggered(active: map<string, Source>, note: string, kind: InstrumentType, buffer: Option<nat>): seq<nat> {
    if buffer.Some? && note in active && kind == Attack then [active[note].id] else []
  }

  /** The voice table after `stopNote`: only a sustained, sounding note is
      removed. */
  function StoppedSources(active: map<string, Source>, note: string, kind: InstrumentType): map<string, Source> {
    if note in active && kind == Sustain then active - {note} else active
  }

  /** The voice table after a source's natural end: the entry goes only if
      it still holds that source. */
  function EndedSources(active: map<string, Source>, note: string, id: nat): map<string, Source> {
    if note in active && active[note].id == id then active - {note} else active
  }

  /** Playing a held note again never creates a second voice. */
  lemma SustainPlayIdempotent(active: map<string, Source>, note: string, buffer: Option<nat>, id1: nat, id2: nat)
    ensures var once := PlayedSources(active, note, Sustain, buffer, id1);
      PlayedSources(once, note, Sustain, buffer, id2) == once
  {
  }

  /** With a buffer, a struck note always gets the fresh, non-looping source,
      replacing any sounding one; every other note keeps its entry. */
  lemma AttackPlayReplaces(active: map<string, Source>, note: string, buffer: nat, newId: nat)
    ensures var r := PlayedSources(active, note, Attack, Some(buffer), newId);
      && note in r && r[note] == Source(newId, false, buffer)
      && forall n :: n != note ==> (n in r <==> n in active) && (n in r ==> r[n] == active[n])
  {
  }

  /** A held note that was silent starts a looping source, and stopping it
      restores the table it started from. */
  lemma SustainPlayThenStop(active: map<string, Source>, note: string, buffer: nat, newId: nat)
    requires note !in active
    ensures var r := PlayedSources(active, note, Sustain, Some(buffer), newId);
      && r[note].looping
      && StoppedSources(r, note, Sustain) == active
  {
    var r := PlayedSources(active, note, Sustain, Some(buffer), newId);
    assert StoppedSources(r, note, Sustain) == active;
  }

  /** Stopping a struck note does nothing: it rings out on its own. */
  lemma StopIgnoresAttack(active: map<string, Source>, note: string)
    ensures StoppedSources(active, note, Attack) == active
  {
  }

  /** A stale end callback, from a source since replaced, leaves the
      replacement alone. */
  lemma StaleEndKeepsReplacement(active: map<string, Source>, note: string, previous: nat, replacement: Source)
    requires previous != replacement.id
    ensures EndedSources(active[note := replacement], note, previous) == active[note := replacement]
  {
  }

  /** The buffers a load of `samples` leaves: the notes whose sample
      fetched and decoded, and only those. */
  function LoadedBuffers(samples: seq<string>, decoded: map<string, nat>): (r: map<string, nat>)
    ensures forall n :: n in r <==> n in samples && n in decoded
    ensures forall n :: n in r ==> r[n] == decoded[n]
  {
    map n | n in samples && n in decoded :: decoded[n]
  }

  /** Loading one more sample adds its buffer when it decoded. */
  lemma LoadedBuffersStep(samples: seq<string>, note: string, decoded: map<string, nat>)
    ensures LoadedBuffers(samples + [note], decoded) ==
      if note in decoded then LoadedBuffers(samples, decoded)[note := decoded[note]] else LoadedBuffers(samples, decoded)
  {
    var a, b := LoadedBuffers(samples + [note], decoded), LoadedBuffers(samples, decoded);
    if note in decoded {
      assert a.Keys == b.Keys + {note};
    } else {
      assert a.Keys == b.Keys;
    }
  }

  /** Every source id is below `next` and no two notes share a source. */
  predicate SourcesValid(active: map<string, Source>, next: nat) {
    && (forall n :: n in active ==> active[n].id < next)
    && (forall n, m :: n in active && m in active && n != m ==> active[n].id != active[m].id)
  }

  /** A source with the next id keeps the table valid. */
  lemma AddNextSource(active: map<string, Source>, note: string, s: Source, next: nat)
    requires SourcesValid(active, next) && s.id == next
    ensures SourcesValid(active[note := s], next + 1)
  {
  }

  class InstrumentPlayer {
    var suspended: bool
    var volume: real
    var activeSources: map<string, Source>
    var audioBuffers: map<string, nat>
    var currentInstrument: Instrument
    var nextSource: nat
    ghost var stopped: seq<nat>

    /** The volume is clamped, every source id is already issued and no two
        notes share a source. */
    ghost predicate Valid()
      reads this
    {
      && 0.0 <= volume <= 1.0
      && SourcesValid(activeSources, nextSource)
    }

    /** A new player: piano selected, default volume, nothing loaded. The
        browser decides whether a new context starts suspended. */
    constructor(startsSuspended: bool)
      ensures Valid()
      ensures currentInstrument == PIANO && volume == DEFAULT_VOLUME && suspended == startsSuspended
      ensures activeSources == map[] && audioBuffers == map[] && stopped == []
    {
      suspended := startsSuspended;
      volume := Clamp01(DEFAULT_VOLUME);
      activeSources := map[];
      audioBuffers := map[];
      currentInstrument := PIANO;
      nextSource := 0;
      stopped := [];
    }

    /** `loadSamples`: selects the instrument (piano for an unknown key),
        drops every buffer, then keeps a buffer for each sample that fetched
        and decoded; a failed sample is skipped without affecting the rest. */
    method LoadSamples(instrumentKey: string, decoded: map<string, nat>)
      requires Valid()
      modifies this`currentInstrument, this`audioBuffers
      ensures Valid()
      ensures currentInstrument == SelectInstrument(instrumentKey)
      ensures audioBuffers == LoadedBuffers(currentInstrument.samples, decoded)
    {
      var instrument := SelectInstrument(instrumentKey);
      currentInstrument := instrument;
      audioBuffers := LoadBuffers(instrument.samples, decoded);
    }

    /** The loads of `loadSamples`, one sample after the other. */
    static method LoadBuffers(samples: seq<string>, decoded: map<string, nat>) returns (buffers: map<string, nat>)
      ensures buffers == LoadedBuffers(samples, decoded)
    {
      buffers := map[];
      for k := 0 to |samples|
        invariant buffers == LoadedBuffers(samples[..k], decoded)
      {
        var note := samples[k];
        assert samples[..k + 1] == samples[..k] + [note];
        LoadedBuffersStep(samples[..k], note, decoded);
        if note in decoded {
          buffers := buffers[note := decoded[note]];
        }
      }
      assert samples[..|samples|] == samples;
    }

    /** `playNote`: wakes a suspended context, then updates the voice table
        as `PlayedSources` says; a struck note that was sounding has its old
        source stopped first. */
    method PlayNote(note: string)
      requires Valid()
      modifies this`suspended, this`activeSources, this`nextSource, this`stopped
      ensures Valid()
      ensures !suspended
      ensures activeSources == PlayedSources(old(activeSources), note, currentInstrument.kind, BufferOf(audioBuffers, note), old(nextSource))
      ensures stopped == old(stopped) + Retriggered(old(activeSources), note, currentInstrument.kind, BufferOf(audioBuffers, note))
    {
      if suspended {
        suspended := false;
      }
      var halted;
      activeSources, nextSource, halted :=
        PlayOn(activeSources, nextSource, note, currentInstrument.kind, BufferOf(audioBuffers, note));
      stopped := stopped + halted;
    }

    /** The voice-table part of `playNote`, on the table and the next source
        id. */
    static method PlayOn(active: map<string, Source>, next: nat, note: string, kind: InstrumentType, buffer: Option<nat>)
      returns (active': map<string, Source>, next': nat, halted: seq<nat>)
      requires SourcesValid(active, next)
      ensures SourcesValid(active', next')
      ensures active' == PlayedSources(active, note, kind, buffer, next)
      ensures halted == Retriggered(active, note, kind, buffer)
    {
      active', next', halted := active, next, [];
      if buffer.None? {
        return;
      }
      if note in active && kind == Sustain {
        return;
      }
      if note in active && kind == Attack {
        halted := [active[note].id];
      }
      var source := Source(next, kind == Sustain, buffer.value);
      AddNextSource(active, note, source, next);
      active', next' := active[note := source], next + 1;
    }

    /** `stopNote`: a sounding note of a sustained instrument is stopped and
        removed; otherwise nothing happens. */
    method StopNote(note: string)
      requires Valid()
      modifies this`activeSources, this`stopped
      ensures Valid()
      ensures activeSources == StoppedSources(old(activeSources), note, currentInstrument.kind)
      ensures stopped == old(stopped) +
        (if note in old(activeSources) && currentInstrument.kind == Sustain then [old(activeSources)[note].id] else [])
    {
      if note in activeSources && currentInstrument.kind == Sustain {
        var source := activeSources[note];
        stopped := stopped + [source.id];
        activeSources := activeSources - {note};
      }
    }

    /** A source's `onended` callback. */
    method OnEnded(note: string, id: nat)
      requires Valid()
      modifies this`activeSources
      ensures Valid()
      ensures activeSources == EndedSources(old(activeSources), note, id)
    {
      if note in activeSources && activeSources[note].id == id {
        activeSources := activeSources - {note};
      }
    }

    /** `setVolume`: the master gain takes the volume clamped to [0, 1]. */
    method SetVolume(v: real)
      requires Valid()
      modifies this`volume
      ensures Valid()
      ensures volume == Clamp01(v)
    {
      volume := Clamp01(v);
    }
  }
}
