/** The tone synthesiser of team1.py: the note table, the beat-to-milliseconds
    rule and `play_note_firmata`, which packs a tone command into a 5-byte
    sysex payload and then waits for the note unless it is a rest. */
module Synth {
  import opened ToneFirmata
  import opened Hardware

  const BuzzerPin: byte := 10
  /** The custom sysex command byte; the sketch's handler is registered for it. */
  const ToneCmd: byte := 0x7E
  const Bpm: nat := 120
  /** `int(60 / BPM * 1000)`: 500 ms per beat. */
  const WholeNoteMs: nat := 60 * 1000 / Bpm

  const LedPins: seq<nat> := [2, 3, 4, 5]
  const ButtonPins: seq<nat> := [6, 7, 8, 9]

  /** The `NOTES` dictionary. */
  const Notes: map<string, nat> := map[
    "C4" := 261, "D4" := 294, "E4" := 330, "F4" := 349,
    "G4" := 392, "A4" := 440, "B4" := 494, "C5" := 523, "REST" := 0
  ]

  /** `list(NOTES.keys())`: the keys in the dictionary's insertion order. */
  const NoteNames: seq<string> := ["C4", "D4", "E4", "F4", "G4", "A4", "B4", "C5", "REST"]

  /** Durations are kept in tenths of a beat: 0.1 beat is 1, one beat is 10. */
  type Tenths = nat

  /** `list(NOTES.keys())[i]`. */
  function NoteKey(i: nat): string
    requires i < |NoteNames|
  {
    NoteNames[i]
  }

  /** `NOTES.get(note, 0)`. */
  function Frequency(note: string): nat
  {
    if note in Notes then Notes[note] else 0
  }

  /** The key list holds every key of the dictionary exactly once. */
  lemma NoteNamesAreKeys()
    ensures forall i :: 0 <= i < |NoteNames| ==> NoteNames[i] in Notes
    ensures forall k :: k in Notes ==> k in NoteNames
    ensures forall i, j :: 0 <= i < j < |NoteNames| ==> NoteNames[i] != NoteNames[j]
  {
  }

  /** `int(duration * WHOLE_NOTE_MS)` for a duration in tenths of a beat:
      the truncation never bites, a tenth of a beat is exactly 50 ms. */
  function DurationMs(beats: Tenths): (ms: nat)
    ensures ms == 50 * beats
  {
    beats * WholeNoteMs / 10
  }

  /** The data of the tone sysex: the buzzer pin, then frequency and duration,
      each as two 7-bit bytes, low byte first (`x & 0x7F`, `(x >> 7) & 0x7F`). */
  function Payload(freq: nat, durationMs: nat): (data: seq<byte>)
  {
    [BuzzerPin,
     (freq % 128) as byte, (freq / 128 % 128) as byte,
     (durationMs % 128) as byte, (durationMs / 128 % 128) as byte]
  }

  /** The payload is five 7-bit data bytes after the pin; its two pairs
      hold the frequency and the duration modulo 2^14. */
  lemma PayloadFacts(freq: nat, durationMs: nat)
    ensures var data := Payload(freq, durationMs);
            && |data| == 5 && data[0] == BuzzerPin && SevenBit(data)
            && data[1] as int + 128 * data[2] as int == freq % 16384
            && data[3] as int + 128 * data[4] as int == durationMs % 16384
  {
    SplitSevenBit(freq);
    SplitSevenBit(durationMs);
  }

  /** The low and the next seven bits of `x` make up `x` modulo 2^14. */
  lemma SplitSevenBit(x: nat)
    ensures x % 128 + 128 * (x / 128 % 128) == x % 16384
  {
    var q := x / 128;
    assert x == 128 * q + x % 128;
    assert q == 128 * (q / 128) + q % 128;
    assert x == 16384 * (q / 128) + (128 * (q % 128) + x % 128);
  }

  /** What `play_note_firmata(note, duration)` does to the board: one tone
      sysex, then a sleep of the note's length only if the note sounds. */
  function NoteTrace(note: string, beats: Tenths): seq<Event>
  {
    var freq := Frequency(note);
    var ms := DurationMs(beats);
    [Sysex(ToneCmd, Payload(freq, ms))] + (if freq > 0 then [Sleep(ms)] else [])
  }

  /** Decoding the payload that `play_note_firmata` builds gives back the
      buzzer pin and both values modulo 2^14; `tone` is chosen exactly when
      that frequency is positive. */
  lemma {:induction false} RoundTrip(freq: nat, durationMs: nat)
    ensures HandleSysex(Payload(freq, durationMs)) ==
              if freq % 16384 > 0 then Some(Tone(BuzzerPin, freq % 16384, durationMs % 16384))
              else Some(NoTone(BuzzerPin))
  {
    PayloadFacts(freq, durationMs);
    HandleSevenBit(Payload(freq, durationMs));
  }

  /** For values below 16384 the round trip is exact. */
  lemma RoundTripExact(freq: nat, durationMs: nat)
    requires freq < 16384 && durationMs < 16384
    ensures HandleSysex(Payload(freq, durationMs)) ==
              if freq > 0 then Some(Tone(BuzzerPin, freq, durationMs)) else Some(NoTone(BuzzerPin))
  {
    RoundTrip(freq, durationMs);
  }

  /** The frequency table: each listed note gives its entry and every
      other name gives 0, so only a listed note other than 'REST' sounds. */
  lemma FrequencyTable(note: string)
    ensures note == "C4" ==> Frequency(note) == 261
    ensures note == "D4" ==> Frequency(note) == 294
    ensures note == "E4" ==> Frequency(note) == 330
    ensures note == "F4" ==> Frequency(note) == 349
    ensures note == "G4" ==> Frequency(note) == 392
    ensures note == "A4" ==> Frequency(note) == 440
    ensures note == "B4" ==> Frequency(note) == 494
    ensures note == "C5" ==> Frequency(note) == 523
    ensures note == "REST" ==> Frequency(note) == 0
    ensures note !in NoteNames ==> Frequency(note) == 0
    ensures Frequency(note) > 0 <==> note in NoteNames && note != "REST"
  {
  }

  /** A note sends exactly one tone command, under `TONE_CMD` and first,
      and sleeps only when it sounds: the rest costs no time at all. */
  lemma {:induction false} NoteTiming(note: string, beats: Tenths)
    ensures NoteTrace(note, beats)[0] == Sysex(ToneCmd, Payload(Frequency(note), DurationMs(beats)))
    ensures Payloads(NoteTrace(note, beats)) == [Payload(Frequency(note), DurationMs(beats))]
    ensures TotalSleep(NoteTrace(note, beats)) == if Frequency(note) > 0 then DurationMs(beats) else 0
  {
    var t := NoteTrace(note, beats);
    assert t[1..] == if Frequency(note) > 0 then [Sleep(DurationMs(beats))] else [];
    assert Payloads(t[1..]) == [] by {
      if Frequency(note) > 0 { assert t[1..][1..] == []; }
    }
    assert TotalSleep(t[1..]) == if Frequency(note) > 0 then DurationMs(beats) else 0 by {
      if Frequency(note) > 0 { assert t[1..][1..] == []; }
    }
  }

  /** One beat of C4 waits 500 ms and asks for `tone(10, 261, 500)`; a beat
      of rest waits nothing and asks for `noTone(10)`. */
  lemma OneBeat()
    ensures TotalSleep(NoteTrace("C4", 10)) == 500
    ensures HandleSysex(Payloads(NoteTrace("C4", 10))[0]) == Some(Tone(10, 261, 500))
    ensures TotalSleep(NoteTrace("REST", 10)) == 0
    ensures HandleSysex(Payloads(NoteTrace("REST", 10))[0]) == Some(NoTone(10))
  {
    assert DurationMs(10) == 500;
    FrequencyTable("C4");
    NoteTiming("C4", 10);
    RoundTripExact(261, 500);
    FrequencyTable("REST");
    NoteTiming("REST", 10);
    RoundTripExact(0, 500);
  }
}
