/** The cue animations of team1.py as the traces they leave on the board:
    `ready_effect`, `intro_sequence`, the melody of `success_effect`, the
    blinking of `failure_effect`, and the challenge playback of `main`.
    The methods that produce them are in the Play module. */
module Cues {
  import opened ToneFirmata
  import opened Hardware
  import opened Synth

  const FailBlinkCount: nat := 3
  /** `intro_notes`: do, mi, sol, si. */
  const IntroNotes: seq<string> := ["C4", "E4", "G4", "B4"]

  /** `TWINKLE_STAR`, with its beat counts in tenths. */
  const TwinkleStar: seq<(string, Tenths)> := [
    ("C4", 10), ("C4", 10), ("G4", 10), ("G4", 10), ("A4", 10), ("A4", 10), ("G4", 20),
    ("F4", 10), ("F4", 10), ("E4", 10), ("E4", 10), ("D4", 10), ("D4", 10), ("C4", 20),
    ("G4", 10), ("G4", 10), ("F4", 10), ("F4", 10), ("E4", 10), ("E4", 10), ("D4", 20),
    ("G4", 10), ("G4", 10), ("F4", 10), ("F4", 10), ("E4", 10), ("E4", 10), ("D4", 20),
    ("C4", 10), ("C4", 10), ("G4", 10), ("G4", 10), ("A4", 10), ("A4", 10), ("G4", 20),
    ("F4", 10), ("F4", 10), ("E4", 10), ("E4", 10), ("D4", 10), ("D4", 10), ("C4", 20)
  ]

  /** The pins of LED_PINS as a set. */
  const LedSet: set<nat> := {2, 3, 4, 5}

  /** `for pin in pins: board.digital[pin].write(high)`. */
  function Writes(pins: seq<nat>, high: bool): seq<Event>
  {
    seq(|pins|, i requires 0 <= i < |pins| => Write(pins[i], high))
  }

  /** Writing one more pin appends one more write. */
  lemma WritesSnoc(pins: seq<nat>, k: nat, high: bool)
    requires k < |pins|
    ensures Writes(pins[..k + 1], high) == Writes(pins[..k], high) + [Write(pins[k], high)]
  {
  }

  /** Every LED of LED_PINS switched on (or off), in pin order. */
  function AllLeds(high: bool): seq<Event>
  {
    Writes(LedPins, high)
  }

  /** `ready_effect`. */
  function ReadyTrace(): seq<Event>
  {
    AllLeds(true) + [Sleep(1000)] + AllLeds(false)
  }

  /** One LED-and-tone pulse: the LED on, the note, the LED off, then a pause.
      Both the intro and the challenge playback are made of these. */
  function Pulse(pin: nat, note: string, beats: Tenths, pause: nat): seq<Event>
  {
    [Write(pin, true)] + NoteTrace(note, beats) + [Write(pin, false), Sleep(pause)]
  }

  /** Step `i` of `intro_sequence`: LED i on, note i for half a beat, LED i off, 200 ms. */
  function IntroStep(i: nat): seq<Event>
    requires i < 4
  {
    Pulse(LedPins[i], IntroNotes[i], 5, 200)
  }

  /** The first `n` steps of `intro_sequence`; the whole of it is `IntroTrace(4)`. */
  function IntroTrace(n: nat): seq<Event>
    requires n <= 4
  {
    if n == 0 then [] else IntroTrace(n - 1) + IntroStep(n - 1)
  }

  /** One note of `success_effect`: all LEDs on, the note, all LEDs off. */
  function MelodyStep(note: (string, Tenths)): seq<Event>
  {
    AllLeds(true) + NoteTrace(note.0, note.1) + AllLeds(false)
  }

  /** The loop of `success_effect` over a melody. */
  function MelodyTrace(melody: seq<(string, Tenths)>): seq<Event>
  {
    if melody == [] then []
    else MelodyTrace(melody[..|melody| - 1]) + MelodyStep(melody[|melody| - 1])
  }

  /** One more note of a melody appends one more step. */
  lemma MelodySnoc(melody: seq<(string, Tenths)>, k: nat)
    requires k < |melody|
    ensures MelodyTrace(melody[..k + 1]) == MelodyTrace(melody[..k]) + MelodyStep(melody[k])
  {
    assert melody[..k + 1][..k] == melody[..k];
  }

  /** One iteration of `failure_effect`: all on, 500 ms, all off, 500 ms. */
  function BlinkCycle(): seq<Event>
  {
    AllLeds(true) + [Sleep(500)] + AllLeds(false) + [Sleep(500)]
  }

  /** `n` iterations of the loop of `failure_effect`. */
  function FailureTrace(n: nat): seq<Event>
  {
    if n == 0 then [] else FailureTrace(n - 1) + BlinkCycle()
  }

  /** A channel number, an index into LED_PINS and BUTTON_PINS. */
  predicate Channels(s: seq<nat>)
  {
    forall i :: 0 <= i < |s| ==> s[i] < 4
  }

  /** One cue of the challenge playback in `main`: LED c on, note
      `list(NOTES.keys())[c]` for 0.3 beat, LED c off, then the pause. */
  function CueStep(c: nat, pause: nat): seq<Event>
    requires c < 4
  {
    Pulse(LedPins[c], NoteKey(c), 3, pause)
  }

  /** The playback loop of `main` over a challenge, with the pause drawn after each cue. */
  function PlaybackTrace(challenge: seq<nat>, pauses: seq<nat>): seq<Event>
    requires Channels(challenge) && |pauses| == |challenge|
  {
    if challenge == [] then []
    else
      var n := |challenge| - 1;
      PlaybackTrace(challenge[..n], pauses[..n]) + CueStep(challenge[n], pauses[n])
  }

  /** One more cue of the playback appends one more step. */
  lemma PlaybackSnoc(challenge: seq<nat>, pauses: seq<nat>, k: nat)
    requires Channels(challenge) && |pauses| == |challenge| && k < |challenge|
    ensures PlaybackTrace(challenge[..k + 1], pauses[..k + 1])
              == PlaybackTrace(challenge[..k], pauses[..k]) + CueStep(challenge[k], pauses[k])
  {
    assert challenge[..k + 1][..k] == challenge[..k] && pauses[..k + 1][..k] == pauses[..k];
  }

  // ---------------------------------------------------------------------
  // LED state

  /** Writing a list of pins lights (or darkens) exactly those pins. */
  lemma {:induction false} LitWrites(lit: set<nat>, pins: seq<nat>, high: bool)
    ensures Lit(lit, Writes(pins, high)) == if high then lit + set p | p in pins else lit - set p | p in pins
  {
    if pins == [] {
    } else {
      var n := |pins| - 1;
      LitWrites(lit, pins[..n], high);
      assert pins[..n + 1] == pins;
      WritesSnoc(pins, n, high);
      LitAppend(lit, Writes(pins[..n], high), [Write(pins[n], high)]);
      assert pins == pins[..n] + [pins[n]];
      assert (set p | p in pins) == (set p | p in pins[..n]) + {pins[n]};
    }
  }

  lemma LitAllLeds(lit: set<nat>, high: bool)
    ensures Lit(lit, AllLeds(high)) == if high then lit + LedSet else lit - LedSet
  {
    LitWrites(lit, LedPins, high);
    assert (set p | p in LedPins) == LedSet;
  }

  /** Neither sysex messages nor sleeps touch the LEDs. */
  lemma LitNoWrites(lit: set<nat>, t: seq<Event>)
    requires forall i :: 0 <= i < |t| ==> !t[i].Write?
    ensures Lit(lit, t) == lit
    decreases |t|
  {
    if t != [] {
      LitNoWrites(lit, t[1..]);
    }
  }

  lemma LitNote(lit: set<nat>, note: string, beats: Tenths)
    ensures Lit(lit, NoteTrace(note, beats)) == lit
  {
    LitNoWrites(lit, NoteTrace(note, beats));
  }

  /** A blink cycle, a melody note and the ready pulse all end with every LED off. */
  lemma LitBlink(lit: set<nat>)
    ensures Lit(lit, BlinkCycle()) == lit - LedSet
  {
    var on := AllLeds(true) + [Sleep(500)];
    LitAppend(lit, AllLeds(true), [Sleep(500)]);
    LitAllLeds(lit, true);
    LitAppend(lit, on, AllLeds(false));
    LitAllLeds(Lit(lit, on), false);
    LitAppend(lit, on + AllLeds(false), [Sleep(500)]);
  }

  lemma LitMelodyStep(lit: set<nat>, note: (string, Tenths))
    ensures Lit(lit, MelodyStep(note)) == lit - LedSet
  {
    var on := AllLeds(true) + NoteTrace(note.0, note.1);
    LitAppend(lit, AllLeds(true), NoteTrace(note.0, note.1));
    LitAllLeds(lit, true);
    LitNote(lit + LedSet, note.0, note.1);
    LitAppend(lit, on, AllLeds(false));
    LitAllLeds(Lit(lit, on), false);
  }

  // ---------------------------------------------------------------------
  // ready_effect

  /** The ready pulse keeps all four LEDs lit for one second, sends no tone
      and leaves them all off. */
  lemma ReadyShape(lit: set<nat>)
    ensures Lit(lit, AllLeds(true)) == lit + LedSet
    ensures Lit(lit, AllLeds(true) + [Sleep(1000)]) == lit + LedSet
    ensures Lit(lit, ReadyTrace()) == lit - LedSet
    ensures TotalSleep(ReadyTrace()) == 1000
    ensures Payloads(ReadyTrace()) == []
  {
    LitAllLeds(lit, true);
    var on := AllLeds(true) + [Sleep(1000)];
    LitAppend(lit, AllLeds(true), [Sleep(1000)]);
    LitAppend(lit, on, AllLeds(false));
    LitAllLeds(Lit(lit, on), false);
    NoEffectsOfWrites(LedPins, true);
    NoEffectsOfWrites(LedPins, false);
    TotalSleepAppend(AllLeds(true), [Sleep(1000)]);
    TotalSleepAppend(on, AllLeds(false));
    PayloadsAppend(AllLeds(true), [Sleep(1000)]);
    PayloadsAppend(on, AllLeds(false));
  }

  /** LED writes send no sysex and take no time. */
  lemma NoEffectsOfWrites(pins: seq<nat>, high: bool)
    ensures Payloads(Writes(pins, high)) == [] && TotalSleep(Writes(pins, high)) == 0
    decreases |pins|
  {
    if pins != [] {
      var t := Writes(pins, high);
      assert t[1..] == Writes(pins[1..], high);
      NoEffectsOfWrites(pins[1..], high);
    }
  }

  // ---------------------------------------------------------------------
  // intro_sequence

  /** A pulse sends the note's one tone command, waits for the note (if it
      sounds) and then for the pause, and leaves its LED off. */
  lemma PulseFacts(lit: set<nat>, pin: nat, note: string, beats: Tenths, pause: nat)
    ensures Payloads(Pulse(pin, note, beats, pause)) == [Payload(Frequency(note), DurationMs(beats))]
    ensures TotalSleep(Pulse(pin, note, beats, pause)) ==
              (if Frequency(note) > 0 then DurationMs(beats) else 0) + pause
    ensures Lit(lit, Pulse(pin, note, beats, pause)) == lit - {pin}
  {
    var tone := NoteTrace(note, beats);
    assert Pulse(pin, note, beats, pause) == [Write(pin, true)] + (tone + [Write(pin, false), Sleep(pause)]);
    NoteTiming(note, beats);
    PulsePayloads(pin, tone, pause);
    PulseSleep(pin, tone, pause);
    PulseLit(lit, pin, tone, pause);
    LitNote(lit + {pin}, note, beats);
  }

  lemma PulsePayloads(pin: nat, tone: seq<Event>, pause: nat)
    ensures Payloads([Write(pin, true)] + (tone + [Write(pin, false), Sleep(pause)])) == Payloads(tone)
  {
    var post := [Write(pin, false), Sleep(pause)];
    PayloadsAppend(tone, post);
    PayloadsAppend([Write(pin, true)], tone + post);
    assert post[1..][1..] == [];
  }

  lemma PulseSleep(pin: nat, tone: seq<Event>, pause: nat)
    ensures TotalSleep([Write(pin, true)] + (tone + [Write(pin, false), Sleep(pause)])) == TotalSleep(tone) + pause
  {
    var post := [Write(pin, false), Sleep(pause)];
    TotalSleepAppend(tone, post);
    TotalSleepAppend([Write(pin, true)], tone + post);
    assert post[1..][1..] == [];
  }

  lemma PulseLit(lit: set<nat>, pin: nat, tone: seq<Event>, pause: nat)
    ensures Lit(lit, [Write(pin, true)] + (tone + [Write(pin, false), Sleep(pause)]))
         == Lit(lit + {pin}, tone) - {pin}
  {
    var post := [Write(pin, false), Sleep(pause)];
    LitAppend(lit, [Write(pin, true)], tone + post);
    LitAppend(lit + {pin}, tone, post);
    var m := Lit(lit + {pin}, tone);
    assert post[1..] == [Sleep(pause)] && post[1..][1..] == [];
    assert Lit(m, post) == Lit(m - {pin}, post[1..]);
    assert Lit(m - {pin}, post[1..]) == Lit(m - {pin}, post[1..][1..]);
    assert [Write(pin, true)][1..] == [];
    assert Lit(lit, [Write(pin, true)]) == Lit(lit + {pin}, []);
  }

  /** `intro_sequence`, step by step: after n of its four steps it has sent n
      tone commands, C4, E4, G4 and B4 for half a beat (250 ms) each, and
      waited 450 ms per step (1800 ms for the whole intro). */
  lemma {:induction false} IntroPayloads(n: nat)
    requires n <= 4
    ensures |Payloads(IntroTrace(n))| == n
    ensures forall i :: 0 <= i < n ==> Payloads(IntroTrace(n))[i] == Payload(Frequency(IntroNotes[i]), 250)
    ensures TotalSleep(IntroTrace(n)) == 450 * n
  {
    if n > 0 {
      IntroPayloads(n - 1);
      IntroNoteFrequency(n - 1);
      PulseFacts({}, LedPins[n - 1], IntroNotes[n - 1], 5, 200);
      PayloadsAppend(IntroTrace(n - 1), IntroStep(n - 1));
      TotalSleepAppend(IntroTrace(n - 1), IntroStep(n - 1));
    }
  }

  /** The intro's notes are 261, 330, 392 and 494 Hz. */
  lemma IntroNoteFrequency(i: nat)
    requires i < 4
    ensures Frequency(IntroNotes[i]) == [261, 330, 392, 494][i]
  {
    FrequencyTable(IntroNotes[i]);
  }

  /** The intro lights each LED in turn and leaves every one of them off. */
  lemma IntroLeds(lit: set<nat>)
    ensures Lit(lit, IntroTrace(4)) == lit - LedSet
  {
    LitIntro(lit, 4);
    ElementsSnoc(LedPins, 3);
    ElementsSnoc(LedPins, 2);
    ElementsSnoc(LedPins, 1);
    ElementsSnoc(LedPins, 0);
  }

  /** The tone commands of the first n intro steps decode to
      `tone(10, f, 250)` for f = 261, 330, 392 and 494 Hz in turn. */
  lemma IntroTones(n: nat)
    requires n <= 4
    ensures |Payloads(IntroTrace(n))| == n
    ensures forall i :: 0 <= i < n ==>
              HandleSysex(Payloads(IntroTrace(n))[i]) == Some(Tone(BuzzerPin, [261, 330, 392, 494][i], 250))
  {
    IntroPayloads(n);
    var p := Payloads(IntroTrace(n));
    forall i | 0 <= i < n
      ensures HandleSysex(p[i]) == Some(Tone(BuzzerPin, [261, 330, 392, 494][i], 250))
    {
      IntroNoteFrequency(i);
      RoundTripExact(Frequency(IntroNotes[i]), 250);
    }
  }

  /** The first n + 1 elements of a sequence are the first n and one more. */
  lemma ElementsSnoc(s: seq<nat>, n: nat)
    requires n < |s|
    ensures (set i | 0 <= i < n + 1 :: s[i]) == (set i | 0 <= i < n :: s[i]) + {s[n]}
  {
  }

  lemma {:induction false} LitIntro(lit: set<nat>, n: nat)
    requires n <= 4
    ensures Lit(lit, IntroTrace(n)) == lit - set i | 0 <= i < n :: LedPins[i]
  {
    if n > 0 {
      LitIntro(lit, n - 1);
      LitAppend(lit, IntroTrace(n - 1), IntroStep(n - 1));
      PulseFacts(Lit(lit, IntroTrace(n - 1)), LedPins[n - 1], IntroNotes[n - 1], 5, 200);
      ElementsSnoc(LedPins, n - 1);
    }
  }

  // ---------------------------------------------------------------------
  // success_effect

  /** The melody loop sends one tone command per note, in order, each for
      that note's frequency and length. */
  lemma {:induction false} MelodyPayloads(melody: seq<(string, Tenths)>)
    ensures Payloads(MelodyTrace(melody)) ==
              seq(|melody|, i requires 0 <= i < |melody| => Payload(Frequency(melody[i].0), DurationMs(melody[i].1)))
  {
    if melody != [] {
      var n := |melody| - 1;
      MelodyPayloads(melody[..n]);
      PayloadsAppend(MelodyTrace(melody[..n]), MelodyStep(melody[n]));
      MelodyStepPayloads(melody[n]);
    }
  }

  /** One melody note sends exactly that note's tone command. */
  lemma MelodyStepPayloads(note: (string, Tenths))
    ensures Payloads(MelodyStep(note)) == [Payload(Frequency(note.0), DurationMs(note.1))]
  {
    PayloadsAppend(AllLeds(true), NoteTrace(note.0, note.1));
    PayloadsAppend(AllLeds(true) + NoteTrace(note.0, note.1), AllLeds(false));
    NoEffectsOfWrites(LedPins, true);
    NoEffectsOfWrites(LedPins, false);
    NoteTiming(note.0, note.1);
  }

  /** Every note of the melody: the success effect waits one beat (500 ms) per
      beat of the tune. */
  lemma {:induction false} MelodySleep(melody: seq<(string, Tenths)>)
    requires forall i :: 0 <= i < |melody| ==> Frequency(melody[i].0) > 0
    ensures TotalSleep(MelodyTrace(melody)) == 50 * TenthsOf(melody)
  {
    if melody != [] {
      var n := |melody| - 1;
      var note := melody[n];
      MelodySleep(melody[..n]);
      TotalSleepAppend(MelodyTrace(melody[..n]), MelodyStep(note));
      TotalSleepAppend(AllLeds(true), NoteTrace(note.0, note.1));
      TotalSleepAppend(AllLeds(true) + NoteTrace(note.0, note.1), AllLeds(false));
      NoEffectsOfWrites(LedPins, true);
      NoEffectsOfWrites(LedPins, false);
      NoteTiming(note.0, note.1);
    }
  }

  /** The length of a melody in tenths of a beat. */
  function TenthsOf(melody: seq<(string, Tenths)>): nat
  {
    if melody == [] then 0 else TenthsOf(melody[..|melody| - 1]) + melody[|melody| - 1].1
  }

  /** One more note lengthens a melody by that note. */
  lemma TenthsOfSnoc(melody: seq<(string, Tenths)>, k: nat)
    requires k < |melody|
    ensures TenthsOf(melody[..k + 1]) == TenthsOf(melody[..k]) + melody[k].1
  {
    assert melody[..k + 1][..k] == melody[..k];
  }

  /** The rhythm of `TWINKLE_STAR`: six phrases of six one-beat notes
      closed by a two-beat note. */
  lemma TwinkleRhythm(i: nat)
    requires i < |TwinkleStar|
    ensures TwinkleStar[i].1 == if i % 7 == 6 then 20 else 10
  {
  }

  /** A melody in phrases of six one-beat notes and a two-beat note: its
      first k notes last k beats plus one more per completed phrase. */
  lemma {:induction false} PhrasedPrefix(melody: seq<(string, Tenths)>, k: nat)
    requires forall i :: 0 <= i < |melody| ==> melody[i].1 == if i % 7 == 6 then 20 else 10
    requires k <= |melody|
    ensures TenthsOf(melody[..k]) == 10 * k + 10 * (k / 7)
  {
    if k == 0 {
      assert melody[..0] == [];
    } else {
      PhrasedPrefix(melody, k - 1);
      TenthsOfSnoc(melody, k - 1);
      PhraseStep(k - 1);
    }
  }

  /** A note completes a phrase exactly when its index is 6 modulo 7. */
  lemma PhraseStep(j: nat)
    ensures (j + 1) / 7 == j / 7 + (if j % 7 == 6 then 1 else 0)
  {
  }

  /** `TWINKLE_STAR` lasts 48 beats. */
  lemma TwinkleBeats()
    ensures TenthsOf(TwinkleStar) == 480
  {
    forall i | 0 <= i < |TwinkleStar|
      ensures TwinkleStar[i].1 == if i % 7 == 6 then 20 else 10
    {
      TwinkleRhythm(i);
    }
    PhrasedPrefix(TwinkleStar, 42);
    assert TwinkleStar[..42] == TwinkleStar;
  }

  lemma {:induction false} LitMelody(lit: set<nat>, melody: seq<(string, Tenths)>)
    requires melody != []
    ensures Lit(lit, MelodyTrace(melody)) == lit - LedSet
  {
    var n := |melody| - 1;
    LitAppend(lit, MelodyTrace(melody[..n]), MelodyStep(melody[n]));
    LitMelodyStep(Lit(lit, MelodyTrace(melody[..n])), melody[n]);
    if n > 0 {
      LitMelody(lit, melody[..n]);
    }
  }

  /** The notes of `TWINKLE_STAR` are all in the table and all sound. */
  lemma TwinkleSounds(i: nat)
    requires i < |TwinkleStar|
    ensures 261 <= Frequency(TwinkleStar[i].0) <= 440
    ensures TwinkleStar[i].1 == 10 || TwinkleStar[i].1 == 20
  {
    var name := TwinkleStar[i].0;
    assert name in {"C4", "D4", "E4", "F4", "G4", "A4"};
    FrequencyTable(name);
  }

  /** `success_effect` plays the 42 notes of the tune: the i-th tone command
      is `tone(10, f, d)` for the i-th note's frequency f and length d, and
      every LED is off at the end. */
  lemma SuccessShape(lit: set<nat>)
    ensures |Payloads(MelodyTrace(TwinkleStar))| == 42
    ensures forall i :: 0 <= i < 42 ==>
              HandleSysex(Payloads(MelodyTrace(TwinkleStar))[i])
                == Some(Tone(BuzzerPin, Frequency(TwinkleStar[i].0), DurationMs(TwinkleStar[i].1)))
    ensures TotalSleep(MelodyTrace(TwinkleStar)) == 24000
    ensures Lit(lit, MelodyTrace(TwinkleStar)) == lit - LedSet
  {
    forall i | 0 <= i < |TwinkleStar|
      ensures Frequency(TwinkleStar[i].0) > 0
    {
      TwinkleSounds(i);
    }
    MelodySleep(TwinkleStar);
    TwinkleBeats();
    MelodyPayloads(TwinkleStar);
    forall i | 0 <= i < 42
      ensures HandleSysex(Payloads(MelodyTrace(TwinkleStar))[i])
                == Some(Tone(BuzzerPin, Frequency(TwinkleStar[i].0), DurationMs(TwinkleStar[i].1)))
    {
      TwinkleSounds(i);
      RoundTripExact(Frequency(TwinkleStar[i].0), DurationMs(TwinkleStar[i].1));
    }
    LitMelody(lit, TwinkleStar);
  }

  // ---------------------------------------------------------------------
  // failure_effect

  /** `n` blink cycles: no tone, exactly 10 events and one second per cycle,
      every LED off at the end. */
  lemma {:induction false} FailureShape(lit: set<nat>, n: nat)
    ensures |FailureTrace(n)| == 10 * n
    ensures Payloads(FailureTrace(n)) == []
    ensures TotalSleep(FailureTrace(n)) == 1000 * n
    ensures n > 0 ==> Lit(lit, FailureTrace(n)) == lit - LedSet
  {
    if n > 0 {
      FailureShape(lit, n - 1);
      var on := AllLeds(true) + [Sleep(500)];
      var off := AllLeds(false) + [Sleep(500)];
      assert BlinkCycle() == on + off;
      NoEffectsOfWrites(LedPins, true);
      NoEffectsOfWrites(LedPins, false);
      PayloadsAppend(AllLeds(true), [Sleep(500)]);
      PayloadsAppend(AllLeds(false), [Sleep(500)]);
      PayloadsAppend(on, off);
      PayloadsAppend(FailureTrace(n - 1), BlinkCycle());
      TotalSleepAppend(AllLeds(true), [Sleep(500)]);
      TotalSleepAppend(AllLeds(false), [Sleep(500)]);
      TotalSleepAppend(on, off);
      TotalSleepAppend(FailureTrace(n - 1), BlinkCycle());
      LitAppend(lit, FailureTrace(n - 1), BlinkCycle());
      LitBlink(Lit(lit, FailureTrace(n - 1)));
    }
  }

  // ---------------------------------------------------------------------
  // challenge playback in main

  /** The note a channel's cue plays, and a press of its button confirms:
      C4, D4, E4 and F4 for channels 0 to 3. */
  lemma ChannelNote(c: nat)
    requires c < 4
    ensures Frequency(NoteKey(c)) == [261, 294, 330, 349][c]
  {
    FrequencyTable(NoteKey(c));
  }

  /** The playback sends one tone command per challenge entry, in order:
      `tone(10, f, 150)` with f the frequency of that entry's channel. */
  lemma {:induction false} PlaybackPayloads(challenge: seq<nat>, pauses: seq<nat>)
    requires Channels(challenge) && |pauses| == |challenge|
    ensures |Payloads(PlaybackTrace(challenge, pauses))| == |challenge|
    ensures forall i :: 0 <= i < |challenge| ==>
              Payloads(PlaybackTrace(challenge, pauses))[i] == Payload(Frequency(NoteKey(challenge[i])), 150)
  {
    if challenge != [] {
      var n := |challenge| - 1;
      var c := challenge[n];
      PlaybackPayloads(challenge[..n], pauses[..n]);
      PulseFacts({}, LedPins[c], NoteKey(c), 3, pauses[n]);
      PayloadsAppend(PlaybackTrace(challenge[..n], pauses[..n]), CueStep(c, pauses[n]));
      var p := Payloads(PlaybackTrace(challenge, pauses));
      forall i | 0 <= i < n
        ensures p[i] == Payload(Frequency(NoteKey(challenge[i])), 150)
      {
        assert challenge[..n][i] == challenge[i];
      }
    }
  }

  /** Decoded, the playback's commands are `tone(10, f, 150)` with f the
      frequency of the entry's channel: 261, 294, 330 or 349 Hz. */
  lemma PlaybackTones(challenge: seq<nat>, pauses: seq<nat>)
    requires Channels(challenge) && |pauses| == |challenge|
    ensures |Payloads(PlaybackTrace(challenge, pauses))| == |challenge|
    ensures forall i :: 0 <= i < |challenge| ==>
              HandleSysex(Payloads(PlaybackTrace(challenge, pauses))[i])
                == Some(Tone(BuzzerPin, [261, 294, 330, 349][challenge[i]], 150))
  {
    PlaybackPayloads(challenge, pauses);
    var p := Payloads(PlaybackTrace(challenge, pauses));
    forall i | 0 <= i < |challenge|
      ensures HandleSysex(p[i]) == Some(Tone(BuzzerPin, [261, 294, 330, 349][challenge[i]], 150))
    {
      ChannelNote(challenge[i]);
      RoundTripExact(Frequency(NoteKey(challenge[i])), 150);
    }
  }

  /** The playback waits 150 ms per cue plus every pause drawn. */
  lemma {:induction false} PlaybackSleep(challenge: seq<nat>, pauses: seq<nat>)
    requires Channels(challenge) && |pauses| == |challenge|
    ensures TotalSleep(PlaybackTrace(challenge, pauses)) == 150 * |challenge| + Sum(pauses)
  {
    if challenge != [] {
      var n := |challenge| - 1;
      var c := challenge[n];
      PlaybackSleep(challenge[..n], pauses[..n]);
      PulseFacts({}, LedPins[c], NoteKey(c), 3, pauses[n]);
      ChannelNote(c);
      TotalSleepAppend(PlaybackTrace(challenge[..n], pauses[..n]), CueStep(c, pauses[n]));
    }
  }

  /** The sum of the pauses, in milliseconds. */
  function Sum(s: seq<nat>): nat
  {
    if s == [] then 0 else Sum(s[..|s| - 1]) + s[|s| - 1]
  }

  /** Pauses drawn from [1500, 2500] ms. */
  predicate PausesInRange(pauses: seq<nat>)
  {
    forall i :: 0 <= i < |pauses| ==> 1500 <= pauses[i] <= 2500
  }

  lemma {:induction false} SumBounds(pauses: seq<nat>)
    requires PausesInRange(pauses)
    ensures 1500 * |pauses| <= Sum(pauses) <= 2500 * |pauses|
  {
    if pauses != [] {
      SumBounds(pauses[..|pauses| - 1]);
    }
  }

  /** A three-cue playback takes between 4.95 and 7.95 seconds. */
  lemma PlaybackDuration(challenge: seq<nat>, pauses: seq<nat>)
    requires Channels(challenge) && |challenge| == 3 && |pauses| == 3 && PausesInRange(pauses)
    ensures 4950 <= TotalSleep(PlaybackTrace(challenge, pauses)) <= 7950
  {
    PlaybackSleep(challenge, pauses);
    SumBounds(pauses);
  }

  /** The LEDs of the channels a challenge names. */
  function ChannelLeds(challenge: seq<nat>): set<nat>
    requires Channels(challenge)
  {
    set i | 0 <= i < |challenge| :: LedPins[challenge[i]]
  }

  lemma ChannelLedsSnoc(challenge: seq<nat>)
    requires Channels(challenge) && challenge != []
    ensures var n := |challenge| - 1;
            ChannelLeds(challenge) == ChannelLeds(challenge[..n]) + {LedPins[challenge[n]]}
  {
    var n := |challenge| - 1;
    forall p | p in ChannelLeds(challenge)
      ensures p in ChannelLeds(challenge[..n]) + {LedPins[challenge[n]]}
    {
      var i :| 0 <= i < |challenge| && p == LedPins[challenge[i]];
      if i < n { assert challenge[..n][i] == challenge[i]; }
    }
    forall p | p in ChannelLeds(challenge[..n])
      ensures p in ChannelLeds(challenge)
    {
      var i :| 0 <= i < n && p == LedPins[challenge[..n][i]];
      assert challenge[..n][i] == challenge[i];
    }
  }

  /** After the playback the LEDs of the challenge's channels are off, and
      no other LED has changed. */
  lemma {:induction false} LitPlayback(lit: set<nat>, challenge: seq<nat>, pauses: seq<nat>)
    requires Channels(challenge) && |pauses| == |challenge|
    ensures Lit(lit, PlaybackTrace(challenge, pauses)) == lit - ChannelLeds(challenge)
  {
    if challenge != [] {
      var n := |challenge| - 1;
      var c := challenge[n];
      LitPlayback(lit, challenge[..n], pauses[..n]);
      LitAppend(lit, PlaybackTrace(challenge[..n], pauses[..n]), CueStep(c, pauses[n]));
      PulseFacts(Lit(lit, PlaybackTrace(challenge[..n], pauses[..n])), LedPins[c], NoteKey(c), 3, pauses[n]);
      ChannelLedsSnoc(challenge);
    }
  }
}
