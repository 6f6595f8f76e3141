/** The sampled piano voice manager (services/audioPlayer.ts): a lazily
    created audio context with a master gain, a sample cache with in-flight
    load deduplication, and a table of sounding voices keyed by note.
    Web Audio nodes are fresh numeric ids; gain automation and scheduled stops
    are recorded in a ghost log. The clock is a parameter, and whether the
    browser can create a context is a parameter of the calls that may try. */
module AudioPlayerModel {
  import opened Common

  const SAMPLES_BASE_URL: string := "https://gleitz.github.io/midi-js-soundfonts/MusyngKite/acoustic_grand_piano-mp3/"
  const DEFAULT_VOLUME: real := 0.5
  const VOLUME_RAMP_TIME: real := 0.02
  const ATTACK_TIME: real := 0.01
  const RETRIGGER_RELEASE_TIME: real := 0.015
  const DEFAULT_RELEASE_TIME: real := 0.3

  // ---------------------------------------------------------------------------
  // Sample file names

  /** `s.replace(c, r)` with a character pattern: only the first occurrence
      is replaced. */
  function ReplaceFirst(s: string, c: char, r: string): (t: string)
    ensures c !in s ==> t == s
    ensures c in s ==> |t| == |s| - 1 + |r|
  {
    if s == [] then []
    else if s[0] == c then r + s[1..]
    else [s[0]] + ReplaceFirst(s[1..], c, r)
  }

  /** The replacement lands on the first occurrence and nowhere else. */
  lemma {:induction false} ReplaceFirstAt(s: string, c: char, r: string, k: nat)
    requires k < |s| && s[k] == c && c !in s[..k]
    ensures ReplaceFirst(s, c, r) == s[..k] + r + s[k + 1..]
  {
    if k > 0 {
      assert s[0] == s[..k][0];
      assert s[1..][..k - 1] == s[1..k];
      ReplaceFirstAt(s[1..], c, r, k - 1);
      assert s[..k] == [s[0]] + s[1..k];
    }
  }

  /** The sample file for a note: its first `#` spelled `sharp`. */
  function FileName(note: string): string {
    ReplaceFirst(note, '#', "sharp")
  }

  /** `noteToUrl`: base URL, file name, `.mp3`. */
  function NoteToUrl(note: string): (url: string)
    ensures |url| == |SAMPLES_BASE_URL| + |FileName(note)| + 4
    ensures url[..|SAMPLES_BASE_URL|] == SAMPLES_BASE_URL && url[|url| - 4..] == ".mp3"
  {
    SAMPLES_BASE_URL + FileName(note) + ".mp3"
  }

  /** Reads a file name back: the first `sharp` becomes `#`. */
  function UnSharp(t: string): string {
    if |t| >= 5 && t[..5] == "sharp" then "#" + t[5..]
    else if t == [] then []
    else [t[0]] + UnSharp(t[1..])
  }

  /** A note spelled without the letter `s` (every keyboard note) is
      recovered from its file name. */
  lemma {:induction false} FileNameRoundTrip(note: string)
    requires 's' !in note
    ensures UnSharp(FileName(note)) == note
  {
    if note != [] {
      if note[0] == '#' {
        assert FileName(note) == "sharp" + note[1..];
        assert FileName(note)[..5] == "sharp";
        assert FileName(note)[5..] == note[1..];
      } else {
        var rest := FileName(note[1..]);
        assert FileName(note) == [note[0]] + rest;
        FileNameRoundTrip(note[1..]);
        assert ([note[0]] + rest)[1..] == rest;
        if |[note[0]] + rest| >= 5 {
          assert ([note[0]] + rest)[..5][0] == note[0];
        }
      }
    }
  }

  /** Two notes spelled without `s` never share a sample URL. */
  lemma NoteToUrlInjective(a: string, b: string)
    requires 's' !in a && 's' !in b
    requires NoteToUrl(a) == NoteToUrl(b)
    ensures a == b
  {
    var n := |SAMPLES_BASE_URL|;
    var ua, ub := NoteToUrl(a), NoteToUrl(b);
    assert FileName(a) == ua[n..|ua| - 4];
    assert FileName(b) == ub[n..|ub| - 4];
    FileNameRoundTrip(a);
    FileNameRoundTrip(b);
  }

  /** A natural note keeps its name; a sharp gets `sharp` in its place. */
  lemma FileNameExamples()
    ensures FileName("F4") == "F4"
    ensures FileName("C#4") == "Csharp4"
  {
    assert "F4"[0] != '#' && "F4"[1..][0] != '#';
    assert "C#4"[0] != '#' && "C#4"[1..][0] == '#';
  }

  // ---------------------------------------------------------------------------
  // Voices

  /** A sounding note: its buffer source node, its own gain node and the
      sample buffer it plays. */
  datatype Voice = Voice(source: nat, gain: nat, buffer: nat)

  /** A gain or stop command scheduled on the audio clock. */
  datatype Automation =
    | MasterRamp(target: real, at: real)
    | AttackRamp(gain: nat, start: real, peakAt: real)
    | ReleaseRamp(gain: nat, source: nat, start: real, silentAt: real, stopAt: real)

  /** What `loadSample` hands back: the cached buffer, a load already in
      flight, a load just started, or `null` for want of an audio context. */
  datatype LoadResult = Cached(buffer: nat) | Joined | Started | NoAudio

  /** What `playNote` did by the time it awaits or returns. */
  datatype PlayResult = Silent | Sounding(voice: Voice) | Awaiting

  /** The voice table after a source's natural end: the entry goes only if
      it still holds that very source. */
  function EndedVoices(active: map<string, Voice>, note: string, source: nat): map<string, Voice> {
    if note in active && active[note].source == source then active - {note} else active
  }

  /** The end of the voice a note is playing removes it; every other note's
      entry stays. */
  lemma EndRemovesOwnVoice(active: map<string, Voice>, note: string)
    requires note in active
    ensures var r := EndedVoices(active, note, active[note].source);
      note !in r && forall n :: n != note ==> (n in r <==> n in active) && (n in r ==> r[n] == active[n])
  {
  }

  /** A stale end callback, from a voice since replaced by a retrigger,
      leaves the replacement alone. */
  lemma StaleEndKeepsReplacement(active: map<string, Voice>, note: string, previous: Voice, replacement: Voice)
    requires previous.source != replacement.source
    ensures EndedVoices(active[note := replacement], note, previous.source) == active[note := replacement]
  {
  }

  /** The gain commands `playNote` schedules once its buffer is in hand:
      the short fade of the voice the note already had, if any, then the
      attack of the new voice. */
  function StartLog(active: map<string, Voice>, note: string, v: Voice, now: real): seq<Automation> {
    (if note in active then
       [ReleaseRamp(active[note].gain, active[note].source, now, now + RETRIGGER_RELEASE_TIME, now + RETRIGGER_RELEASE_TIME)]
     else [])
    + [AttackRamp(v.gain, now, now + ATTACK_TIME)]
  }

  /** The release of `stopNote`: the custom time when one is given, else the
      default. */
  function ReleaseTime(customReleaseTime: Option<real>): (t: real)
    ensures customReleaseTime.None? ==> t == DEFAULT_RELEASE_TIME
    ensures customReleaseTime.Some? ==> t == customReleaseTime.value
  {
    customReleaseTime.GetOr(DEFAULT_RELEASE_TIME)
  }

  class AudioPlayer {
    var hasContext: bool
    var hasMasterGain: bool
    var suspended: bool
    /** Value the master gain holds or ramps to. */
    var masterVolume: real
    var activeSources: map<string, Voice>
    var audioBuffers: map<string, nat>
    /** Notes whose sample load is in flight. */
    var loadingPromises: set<string>
    /** Audio nodes created so far; the next node gets this id. */
    var nextNode: nat
    ghost var automation: seq<Automation>

    /** The master gain exists exactly with the context; a note is never
        both cached and loading; every voice is made of nodes already
        created, and no two notes share a source. */
    ghost predicate Valid()
      reads this
    {
      && (hasMasterGain <==> hasContext)
      && (suspended ==> hasContext)
      && 0.0 <= masterVolume <= 1.0
      && loadingPromises !! audioBuffers.Keys
      && (forall n :: n in activeSources ==> activeSources[n].source < nextNode && activeSources[n].gain < nextNode)
      && (forall n, m :: n in activeSources && m in activeSources && n != m ==>
            activeSources[n].source != activeSources[m].source)
    }

    constructor()
      ensures Valid()
      ensures !hasContext && !hasMasterGain && activeSources == map[] && audioBuffers == map[]
      ensures loadingPromises == {} && automation == []
    {
      hasContext := false;
      hasMasterGain := false;
      suspended := false;
      masterVolume := DEFAULT_VOLUME;
      activeSources := map[];
      audioBuffers := map[];
      loadingPromises := {};
      nextNode := 0;
      automation := [];
    }

    /** `initContext`: creates the context and master gain (default volume)
        once, when the browser allows; a failure leaves both absent. */
    method InitContext(contextAvailable: bool, startsSuspended: bool)
      requires Valid()
      modifies this
      ensures Valid()
      ensures old(hasContext) ==> hasContext && hasMasterGain
      ensures old(hasContext) || !contextAvailable ==> suspended == old(suspended) && masterVolume == old(masterVolume)
      ensures !old(hasContext) ==> hasContext == contextAvailable
      ensures !old(hasContext) && contextAvailable ==> masterVolume == DEFAULT_VOLUME && suspended == startsSuspended
      ensures activeSources == old(activeSources) && audioBuffers == old(audioBuffers)
      ensures loadingPromises == old(loadingPromises) && automation == old(automation)
      ensures nextNode == old(nextNode) + (if !old(hasContext) && contextAvailable then 1 else 0)
    {
      if !hasContext && contextAvailable {
        hasContext := true;
        suspended := startsSuspended;
        hasMasterGain := true;
        masterVolume := DEFAULT_VOLUME;
        nextNode := nextNode + 1;
      }
    }

    /** `setVolume`: ramps the master gain to the clamped volume over 20 ms;
        nothing before the context exists. */
    method SetVolume(volume: real, now: real)
      requires Valid()
      modifies this`masterVolume, this`automation
      ensures Valid()
      ensures hasMasterGain ==>
        masterVolume == Clamp01(volume) && automation == old(automation) + [MasterRamp(Clamp01(volume), now + VOLUME_RAMP_TIME)]
      ensures !hasMasterGain ==> masterVolume == old(masterVolume) && automation == old(automation)
    {
      if hasMasterGain && hasContext {
        masterVolume := Clamp01(volume);
        automation := automation + [MasterRamp(masterVolume, now + VOLUME_RAMP_TIME)];
      }
    }

    /** `loadSample`: a cached buffer is returned at once and a note already
        loading joins that load; otherwise a new load starts, once a context
        exists. */
    method LoadSample(note: string, contextAvailable: bool, startsSuspended: bool) returns (r: LoadResult)
      requires Valid()
      modifies this
      ensures Valid()
      ensures note in old(audioBuffers) ==> r == Cached(old(audioBuffers)[note]) && loadingPromises == old(loadingPromises)
      ensures note !in old(audioBuffers) && note in old(loadingPromises) ==> r == Joined && loadingPromises == old(loadingPromises)
      ensures note !in old(audioBuffers) && note !in old(loadingPromises) ==>
        (r == Started <==> hasContext) && (r == NoAudio <==> !hasContext)
        && loadingPromises == old(loadingPromises) + (if hasContext then {note} else {})
      ensures var creates := !old(hasContext) && note !in old(audioBuffers) && note !in old(loadingPromises) && contextAvailable;
        && hasContext == (old(hasContext) || creates)
        && nextNode == old(nextNode) + (if creates then 1 else 0)
        && (creates ==> masterVolume == DEFAULT_VOLUME && suspended == startsSuspended)
        && (!creates ==> masterVolume == old(masterVolume) && suspended == old(suspended))
      ensures activeSources == old(activeSources) && audioBuffers == old(audioBuffers) && automation == old(automation)
    {
      if note in audioBuffers {
        return Cached(audioBuffers[note]);
      }
      if note in loadingPromises {
        return Joined;
      }
      if !hasContext {
        InitContext(contextAvailable, startsSuspended);
        if !hasContext {
          return NoAudio;
        }
      }
      loadingPromises := loadingPromises + {note};
      r := Started;
    }

    /** The end of a load started by `loadSample`: a decoded buffer is
        cached, a failure caches nothing; either way the note stops loading.
        The promise resolves to the buffer or `null`. */
    method CompleteLoad(note: string, decoded: Option<nat>) returns (r: Option<nat>)
      requires Valid()
      modifies this`audioBuffers, this`loadingPromises
      ensures Valid()
      ensures r == decoded
      ensures loadingPromises == old(loadingPromises) - {note}
      ensures decoded.Some? ==> audioBuffers == old(audioBuffers)[note := decoded.value]
      ensures decoded.None? ==> audioBuffers == old(audioBuffers)
    {
      if decoded.Some? {
        audioBuffers := audioBuffers[note := decoded.value];
      }
      loadingPromises := loadingPromises - {note};
      r := decoded;
    }

    /** `stopNote`: an active note loses its entry first, then its gain
        falls from its current value to 0 over the release time, and its
        source stops exactly when the gain reaches 0. Inactive notes and a
        missing context change nothing. */
    method StopNote(note: string, customReleaseTime: Option<real>, now: real)
      requires Valid()
      modifies this`activeSources, this`automation
      ensures Valid()
      ensures hasContext && note in old(activeSources) ==>
        var v := old(activeSources)[note];
        var release := ReleaseTime(customReleaseTime);
        && activeSources == old(activeSources) - {note}
        && automation == old(automation) + [ReleaseRamp(v.gain, v.source, now, now + release, now + release)]
      ensures !(hasContext && note in old(activeSources)) ==>
        activeSources == old(activeSources) && automation == old(automation)
    {
      if !hasContext || note !in activeSources {
        return;
      }
      var active := activeSources[note];
      activeSources := activeSources - {note};
      var releaseTime := ReleaseTime(customReleaseTime);
      automation := automation + [ReleaseRamp(active.gain, active.source, now, now + releaseTime, now + releaseTime)];
    }

    /** The part of `playNote` after the buffer is in hand: a note already
        sounding is stopped with the short retrigger release, then a fresh
        source with its own gain starts with a 10 ms attack and becomes the
        note's voice. */
    method StartVoice(note: string, buffer: nat, now: real) returns (v: Voice)
      requires Valid() && hasContext
      modifies this`activeSources, this`automation, this`nextNode
      ensures Valid()
      ensures v == Voice(old(nextNode), old(nextNode) + 1, buffer) && nextNode == old(nextNode) + 2
      ensures activeSources == old(activeSources)[note := v]
      ensures automation == old(automation) + StartLog(old(activeSources), note, v, now)
    {
      if note in activeSources {
        StopNote(note, Some(RETRIGGER_RELEASE_TIME), now);
      }
      v := Voice(nextNode, nextNode + 1, buffer);
      nextNode := nextNode + 2;
      automation := automation + [AttackRamp(v.gain, now, now + ATTACK_TIME)];
      activeSources := activeSources[note := v];
    }

    /** `playNote` up to its await: without a context nothing sounds; a
        cached sample starts a voice; otherwise the call waits for the load
        and goes on in `ResumePlay`. */
    method PlayNote(note: string, contextAvailable: bool, startsSuspended: bool, now: real) returns (r: PlayResult)
      requires Valid()
      modifies this
      ensures Valid()
      ensures hasContext == (old(hasContext) || contextAvailable)
      ensures hasContext && !old(hasContext) ==> masterVolume == DEFAULT_VOLUME && suspended == startsSuspended
      ensures old(hasContext) || !hasContext ==> masterVolume == old(masterVolume) && suspended == old(suspended)
      ensures audioBuffers == old(audioBuffers)
      ensures !hasContext ==>
        && r == Silent && activeSources == old(activeSources) && automation == old(automation)
        && loadingPromises == old(loadingPromises) && nextNode == old(nextNode)
      ensures hasContext && note in old(audioBuffers) ==>
        var base := old(nextNode) + (if old(hasContext) then 0 else 1);
        && r == Sounding(Voice(base, base + 1, old(audioBuffers)[note])) && nextNode == base + 2
        && activeSources == old(activeSources)[note := r.voice]
        && automation == old(automation) + StartLog(old(activeSources), note, r.voice, now)
        && loadingPromises == old(loadingPromises)
      ensures hasContext && note !in old(audioBuffers) ==>
        && r == Awaiting && activeSources == old(activeSources) && automation == old(automation)
        && loadingPromises == old(loadingPromises) + {note}
        && nextNode == old(nextNode) + (if old(hasContext) then 0 else 1)
    {
      InitContext(contextAvailable, startsSuspended);
      if !hasContext || !hasMasterGain {
        return Silent;
      }
      var load := LoadSample(note, contextAvailable, startsSuspended);
      match load
      case Cached(b) =>
        var v := StartVoice(note, b, now);
        r := Sounding(v);
      case Joined =>
        r := Awaiting;
      case Started =>
        r := Awaiting;
      case NoAudio =>
        r := Silent;
    }

    /** `playNote` after its await: a `null` sample ends the call, a buffer
        starts the voice. */
    method ResumePlay(note: string, buffer: Option<nat>, now: real) returns (r: PlayResult)
      requires Valid() && hasContext
      modifies this`activeSources, this`automation, this`nextNode
      ensures Valid()
      ensures buffer.None? ==>
        r == Silent && activeSources == old(activeSources) && automation == old(automation) && nextNode == old(nextNode)
      ensures buffer.Some? ==>
        && r == Sounding(Voice(old(nextNode), old(nextNode) + 1, buffer.value)) && nextNode == old(nextNode) + 2
        && activeSources == old(activeSources)[note := r.voice]
        && automation == old(automation) + StartLog(old(activeSources), note, r.voice, now)
    {
      if buffer.None? {
        return Silent;
      }
      var v := StartVoice(note, buffer.value, now);
      r := Sounding(v);
    }

    /** A source's `onended` callback. */
    method OnEnded(note: string, source: nat)
      requires Valid()
      modifies this`activeSources
      ensures Valid()
      ensures activeSources == EndedVoices(old(activeSources), note, source)
    {
      if note in activeSources && activeSources[note].source == source {
        activeSources := activeSources - {note};
      }
    }

    /** `resumeContext`: creates the context if needed and wakes a suspended
        one. */
    method ResumeContext(contextAvailable: bool, startsSuspended: bool)
      requires Valid()
      modifies this
      ensures Valid()
      ensures hasContext == (old(hasContext) || contextAvailable) && !suspended
      ensures hasContext && !old(hasContext) ==> masterVolume == DEFAULT_VOLUME
      ensures old(hasContext) || !hasContext ==> masterVolume == old(masterVolume)
      ensures nextNode == old(nextNode) + (if !old(hasContext) && contextAvailable then 1 else 0)
      ensures activeSources == old(activeSources) && audioBuffers == old(audioBuffers)
      ensures loadingPromises == old(loadingPromises) && automation == old(automation)
    {
      InitContext(contextAvailable, startsSuspended);
      if hasContext && suspended {
        suspended := false;
      }
    }
  }
}
