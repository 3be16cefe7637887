# Tone-Firmata memory game

A model of a small Arduino memory game. The Python host (`team1.py`) shows a
random three-entry challenge on four LEDs with a buzzer tone per LED. It then
checks the player's button presses against the challenge and answers with a
melody on success or with blinking LEDs on failure. Tones go to the board as
a custom Firmata sysex message (command `0x7E`). The Arduino sketch
(`toneFirmata.cpp`) decodes that message into a call of `tone` or `noTone`.

Modules:

- `ToneFirmata` (tone_firmata.dfy) is the sketch's sysex handler, a pure
  function from the payload bytes to an optional `Tone`/`NoTone` command.
  C's `|` and `<<` on 16-bit `int` are written out.
- `Hardware` (hardware.dfy) is the board: a `Board` class whose methods
  append `Write`, `Sysex` and `Sleep` events to a trace. Three measures of a
  trace are defined on it: the sysex payloads, the total sleep and the set
  of lit LEDs.
- `Synth` (synth.dfy) holds the note table, the beat-to-milliseconds rule
  and the payload encoder of `play_note_firmata`, with the encode/decode
  round trip.
- `Cues` (cues.dfy) holds the traces of `ready_effect`, `intro_sequence`,
  `success_effect`, `failure_effect` and the challenge playback of `main`,
  with lemmas giving their tones, timing and LED state.
- `Play` (play.dfy) holds two things:
  - the button callback as a pure transition on the three globals
    (`Session`, `Press`, `Run`), with lemmas for ignoring, advancing,
    winning and losing;
  - the class `Game`, whose fields are the globals and whose methods
    perform the same steps on a `Board`, proved against those functions.

Durations are integers. Beat counts are tenths of a beat (0.1 beat is 1,
two beats are 20), and `WHOLE_NOTE_MS` is 500, so every duration the program
uses is a whole number of milliseconds. Sleeps are in milliseconds. The
random draws of `main` are parameters of `Game.Start`: the challenge, three
entries in 0..3, and the three pauses, in milliseconds.

`game_end` is set only after the animation has finished (team1.py:85-86,
97-98); `Game.SuccessEffect` and `Game.FailureEffect` do the same.

## Model

| member | source | states |
|---|---|---|
| ToneFirmata.BitOr | toneFirmata.cpp:8-9 | definition of C's bitwise or on non-negative values, bit by bit; its properties are in ToneFirmata.BitOrDisjoint and ToneFirmata.BitOrBound |
| ToneFirmata.BitOrBound | toneFirmata.cpp:8-9 | or-ing two values below 2^n stays below 2^n |
| ToneFirmata.Join7 | toneFirmata.cpp:8-9 | `lo` or-ed with `hi` shifted left by 7, in 16-bit `int`, stays below 2^15, and equals `lo + 128*hi` when `lo` has 7 bits |
| ToneFirmata.BitOrDisjoint | toneFirmata.cpp:8-9 | or-ing a value below 2^k into a multiple of 2^k adds the two |
| ToneFirmata.HandleSysex | toneFirmata.cpp:4-16 | no command exactly when fewer than 5 bytes arrive; otherwise the pin is `argv[0]`, and `tone` is chosen only with a positive frequency below 2^15 |
| ToneFirmata.HandleSevenBit | toneFirmata.cpp:7-15 | with 7-bit data the frequency is `argv[1] + 128*argv[2]` and the duration is `argv[3] + 128*argv[4]`, both below 16384; `tone(pin, f, d)` when f > 0, else `noTone(pin)` |
| Hardware.Board.constructor | team1.py:7 | a fresh board has recorded nothing |
| Hardware.Board.DigitalWrite | team1.py:62 | appends exactly one LED write to the trace |
| Hardware.Board.SendSysex | team1.py:54 | appends exactly one sysex message to the trace |
| Hardware.Board.TimeSleep | team1.py:57 | appends exactly one sleep to the trace |
| Hardware.PayloadsAppend | team1.py:54 | the sysex messages of two traces back to back are those of the first, then those of the second |
| Hardware.TotalSleepAppend | team1.py:57 | sleeping time adds up over concatenated traces |
| Hardware.LitAppend | team1.py:62 | the LED state after two traces is the second applied to the state after the first |
| Synth.Frequency | team1.py:46 | definition of `NOTES.get(note, 0)`; its properties are in Synth.FrequencyTable |
| Synth.NoteKey | team1.py:109 | definition of `list(NOTES.keys())[i]` (also team1.py:141); its properties are in Synth.NoteNamesAreKeys and Cues.ChannelNote |
| Synth.Payload | team1.py:49-53 | definition of the 5-byte tone payload; its properties are in Synth.PayloadFacts and Synth.RoundTrip |
| Synth.NoteTrace | team1.py:45-57 | definition of what `play_note_firmata` leaves on the board; its properties are in Synth.NoteTiming and Cues.LitNote |
| Synth.NoteNamesAreKeys | team1.py:19-22 | the key list holds every key of `NOTES` exactly once; its order is the constant's, the insertion order of team1.py:20-21 |
| Synth.FrequencyTable | team1.py:19-22 | each of the nine names gives its table value, 'REST' and every unknown name give 0, and a note sounds exactly when it is a listed name other than 'REST' |
| Synth.DurationMs | team1.py:47 | `int(duration * WHOLE_NOTE_MS)` is exactly 50 ms per tenth of a beat |
| Synth.PayloadFacts | team1.py:49-53 | the payload is five bytes: pin 10, then frequency and duration as 7-bit low/high pairs, each pair giving its value modulo 16384 |
| Synth.SplitSevenBit | team1.py:51-52 | the low seven bits and the next seven bits rebuild a value modulo 2^14 |
| Synth.RoundTrip | toneFirmata.cpp:7-15 | decoding the payload that `play_note_firmata` builds gives pin 10 with frequency and duration modulo 16384: `tone` when that frequency is positive, `noTone` otherwise |
| Synth.RoundTripExact | team1.py:49-53 | for a frequency and a duration below 16384 the decoded command carries exactly those values |
| Synth.NoteTiming | team1.py:54-57 | a note first sends the `TONE_CMD` (0x7E) sysex with its payload, sends exactly one tone payload, and sleeps its duration only when its frequency is positive; a rest costs no time |
| Synth.OneBeat | team1.py:45-57 | one beat of C4 is `tone(10, 261, 500)` and 500 ms of sleep; one beat of rest is `noTone(10)` and no sleep |
| Cues.Channels | team1.py:137 | definition of a challenge whose entries come from `range(4)`; it is the precondition of Cues.PlaybackTrace and Play.Game.Start |
| Cues.Writes | team1.py:61-62 | definition of a loop of writes over a pin list; its properties are in Cues.WritesSnoc, Cues.LitWrites and Cues.NoEffectsOfWrites |
| Cues.AllLeds | team1.py:61-62 | definition of the loop over LED_PINS; its properties are in Cues.LitAllLeds |
| Cues.ReadyTrace | team1.py:59-65 | definition of the trace of `ready_effect`; its properties are in Cues.ReadyShape |
| Cues.Pulse | team1.py:71-74 | definition of one LED-and-tone pulse; its properties are in Cues.PulseFacts |
| Cues.IntroStep | team1.py:70-74 | definition of one step of `intro_sequence`; its properties are in Cues.IntroPayloads and Cues.LitIntro |
| Cues.IntroTrace | team1.py:67-74 | definition of the trace of `intro_sequence`; its properties are in Cues.IntroPayloads, Cues.IntroTones and Cues.IntroLeds |
| Cues.MelodyStep | team1.py:79-83 | definition of one note of `success_effect`; its properties are in Cues.LitMelodyStep and Cues.MelodyPayloads |
| Cues.MelodyTrace | team1.py:78-83 | definition of the melody loop; its properties are in Cues.MelodyPayloads, Cues.MelodySleep, Cues.LitMelody and Cues.SuccessShape |
| Cues.BlinkCycle | team1.py:90-96 | definition of one blink cycle; its properties are in Cues.LitBlink and Cues.FailureShape |
| Cues.FailureTrace | team1.py:90-96 | definition of the blink loop of `failure_effect`; its properties are in Cues.FailureShape |
| Cues.CueStep | team1.py:139-143 | definition of one cue of the playback; its properties are in Cues.PlaybackPayloads and Cues.LitPlayback |
| Cues.PlaybackTrace | team1.py:139-143 | definition of the playback loop; its properties are in Cues.PlaybackPayloads, Cues.PlaybackTones, Cues.PlaybackSleep and Cues.LitPlayback |
| Cues.WritesSnoc | team1.py:61-62 | each iteration of a loop over pins appends one write |
| Cues.LitWrites | team1.py:61-65 | writing a list of pins high (low) lights (darkens) exactly those pins |
| Cues.LitAllLeds | team1.py:61-65 | the LED loops light or darken exactly LED_PINS |
| Cues.LitNote | team1.py:45-57 | playing a note touches no LED |
| Cues.LitBlink | team1.py:91-96 | a blink cycle leaves every LED off and no other pin changed |
| Cues.LitMelodyStep | team1.py:79-83 | a melody note leaves every LED off |
| Cues.ReadyShape | team1.py:59-65 | `ready_effect` lights all four LEDs, which are still lit after its 1000 ms sleep, sleeps 1000 ms in all, sends no tone and leaves them all off |
| Cues.NoEffectsOfWrites | team1.py:61-65 | LED writes send no sysex and take no time |
| Cues.PulseFacts | team1.py:71-74 | one LED pulse sends the note's one tone payload, waits for the note (if it sounds) plus the pause, and leaves its LED off |
| Cues.IntroPayloads | team1.py:67-74 | after n intro steps, n tone payloads for C4, E4, G4, B4 at 250 ms each and 450 ms of sleep per step |
| Cues.IntroNoteFrequency | team1.py:69 | the intro notes are 261, 330, 392 and 494 Hz |
| Cues.IntroLeds | team1.py:70-74 | the intro leaves every LED off |
| Cues.LitIntro | team1.py:70-74 | after n intro steps the first n LEDs are off and no other pin has changed |
| Cues.IntroTones | team1.py:70-72 | the first n intro steps send n tone commands, decoding to `tone(10, f, 250)` for f = 261, 330, 392, 494 Hz in turn |
| Cues.MelodyPayloads | team1.py:78-83 | the melody loop sends one payload per note, in order, for that note's frequency and length |
| Cues.MelodyStepPayloads | team1.py:79-83 | one melody note sends exactly that note's tone command |
| Cues.MelodySleep | team1.py:78-83 | a melody of sounding notes sleeps 50 ms per tenth of a beat of the tune |
| Cues.TenthsOfSnoc | team1.py:78 | one more note lengthens a melody by that note's beats |
| Cues.TwinkleRhythm | team1.py:25-32 | each phrase of TWINKLE_STAR is six one-beat notes and a closing two-beat note |
| Cues.PhrasedPrefix | team1.py:25-32 | in such a melody the first k notes last k beats plus one per completed phrase |
| Cues.PhraseStep | team1.py:25-32 | a note completes a phrase exactly when its index is 6 modulo 7 |
| Cues.TwinkleBeats | team1.py:25-32 | TWINKLE_STAR lasts 48 beats |
| Cues.LitMelody | team1.py:78-83 | a non-empty melody leaves every LED off |
| Cues.TwinkleSounds | team1.py:25-32 | every note of TWINKLE_STAR is in the table at 261 to 440 Hz and lasts one or two beats |
| Cues.SuccessShape | team1.py:76-86 | `success_effect` sends 42 tone commands, the i-th decoding to the i-th note's frequency and length, sleeps 24000 ms (48 beats) in all, and leaves every LED off |
| Cues.FailureShape | team1.py:88-98 | n blink cycles are 10n events with no tone, take 1000n ms, and leave every LED off |
| Cues.ChannelNote | team1.py:141 | channel c plays `list(NOTES.keys())[c]`: 261, 294, 330 or 349 Hz |
| Cues.MelodySnoc | team1.py:78-83 | one more note of the melody appends one more step |
| Cues.PlaybackSnoc | team1.py:139-143 | one more challenge entry appends one more cue |
| Cues.PlaybackPayloads | team1.py:139-143 | the playback sends one tone payload per challenge entry, in order, for that entry's channel note at 150 ms |
| Cues.PlaybackTones | team1.py:139-143 | the playback payloads decode to `tone(10, f, 150)` with f the frequency of the entry's channel |
| Cues.PlaybackSleep | team1.py:139-143 | the playback sleeps 150 ms per cue plus every drawn pause |
| Cues.SumBounds | team1.py:143 | pauses drawn from [1500, 2500] ms sum to between 1500 and 2500 ms per pause |
| Cues.PlaybackDuration | team1.py:137-143 | a three-entry playback takes between 4950 and 7950 ms |
| Cues.ChannelLedsSnoc | team1.py:139-142 | the LEDs named by one more entry are those named so far plus that entry's LED |
| Cues.LitPlayback | team1.py:139-143 | after the playback the LEDs of the challenge's channels are off and no other pin has changed |
| Play.ButtonSetIsPins | team1.py:15 | the button set and BUTTON_PINS hold the same pins |
| Play.Echo | team1.py:109 | definition of a button's confirmation note; its properties are in Play.EchoTone |
| Play.Render | team1.py:109-119 | definition of the board events of one effect (the note, `success_effect` or `failure_effect`); its properties are in Play.EchoTone, Cues.SuccessShape and Cues.FailureShape |
| Play.Rendered | team1.py:109-119 | definition of the board events of a series of effects; its properties are in Play.RenderedOne, Play.RenderedTwo and Play.RenderedAppend |
| Play.Raises | team1.py:112 | definition of when `random_sequence[user_sequence_index]` raises `IndexError`; its properties are in Play.PressRaises |
| Play.Advance | team1.py:104-119 | definition of the globals after a press that returns; its properties are in Play.PressRight, Play.PressWrong and Play.PressValid |
| Play.Effects | team1.py:104-119 | definition of what a press plays; its properties are in Play.PressEnded, Play.PressRight, Play.PressWrong and Play.EchoTone |
| Play.Press | team1.py:100-119 | definition of `on_button_press` as a transition; its properties are in Play.PressEnded, Play.PressRaises, Play.PressRight, Play.PressWrong and Play.PressValid |
| Play.Run | team1.py:100-119 | definition of a series of callbacks; its properties are in Play.RunEnded, Play.RunValid, Play.Winning and Play.Losing |
| Play.Final | team1.py:100-119 | definition of the globals after a series of presses; its properties are in Play.RunValid and Play.WonByMatching |
| Play.ChannelOf | team1.py:106 | `BUTTON_PINS.index(pin)`: the first position of the pin in BUTTON_PINS |
| Play.Pressed | team1.py:106 | one channel per press |
| Play.Beeps | team1.py:109 | one confirmation note per press |
| Play.MatchesTail | team1.py:112-113 | matching n + 1 presses is matching the first and then n more from the next index |
| Play.RenderedOne | team1.py:109 | a single effect renders to its own events |
| Play.RenderedTwo | team1.py:109-119 | two effects render to the first's events, then the second's |
| Play.RenderedAppend | team1.py:100-119 | rendering effects respects concatenation |
| Play.PressEnded | team1.py:104 | once `game_end` is set a press changes nothing and plays nothing |
| Play.PressRaises | team1.py:112 | a press raises `IndexError` exactly when the game runs and the index is at the end of the challenge; that press has played its note; in a valid session it happens only before the challenge is drawn |
| Play.PressRight | team1.py:112-116 | a right press keeps the challenge and advances the index by one; the game ends, after the note and the tune, exactly on the last entry |
| Play.PressWrong | team1.py:117-119 | a wrong press keeps the index, ends the game, and plays the note then the blinks |
| Play.PressValid | team1.py:100-119 | with the challenge drawn, a press never raises, keeps the index within the challenge with a finished challenge meaning an ended game, keeps the challenge, and moves the index forward by at most one |
| Play.EchoTone | team1.py:109 | a button's note is `tone(10, f, 50)` for its channel's frequency, with 50 ms of sleep |
| Play.RunEnded | team1.py:104 | an ended game ignores any series of presses |
| Play.RunValid | team1.py:100-119 | with the challenge drawn, no series of presses raises, breaks the invariant or changes the challenge |
| Play.Winning | team1.py:112-116 | pressing the rest of the challenge in order ends the game with the index at the end, after each press's note and then the tune |
| Play.Losing | team1.py:117-119 | the first press that departs from the challenge ends the game at that index, after the notes so far and the blinks; later presses are ignored |
| Play.WonByMatching | team1.py:112-116 | conversely, presses that win a running game name the rest of the challenge in order |
| Play.EarlyPress | team1.py:112 | before the challenge is drawn a press plays its note and raises `IndexError` |
| Play.Scenarios | team1.py:100-119 | challenge [2, 0, 1]: buttons 8, 6, 7 win with the tune; buttons 8, 9, 6 lose at the second entry with the blinks, and the final press is ignored |
| Play.StartTrace | team1.py:121-143 | definition of what `main` leaves on the board before the player's turn; its properties are in Play.StartTones, Play.StartLeds and Play.StartSleep |
| Play.StartTones | team1.py:121-143 | before the player's turn the board has received the four intro tones, then one tone per challenge entry, and no other tone |
| Play.StartLeds | team1.py:121-143 | every LED is off when the player's turn begins |
| Play.StartSleep | team1.py:121-143 | before the player's turn `main` has slept 3800 ms plus the playback, 8750 to 11750 ms in all |
| Play.PreludePayloads | team1.py:123-133 | the startup wait and the ready pulse send no tone |
| Play.PreludeLeds | team1.py:123-133 | the startup sequence ends with every LED off |
| Play.PreludeSleep | team1.py:123-133 | the startup wait and the two animations take 3800 ms before the playback |
| Play.Game.constructor | team1.py:41-43 | the globals start as an empty challenge, index 0 and `game_end` false |
| Play.Game.PlayNote | team1.py:45-57 | `play_note_firmata` leaves exactly the note's trace on the board |
| Play.Game.SetAllLeds | team1.py:61-62 | the loop over LED_PINS leaves one write per LED, in order |
| Play.Game.ReadyEffect | team1.py:59-65 | `ready_effect` leaves exactly the ready trace |
| Play.Game.Pulse | team1.py:71-74 | one intro or playback step leaves exactly one pulse |
| Play.Game.IntroSequence | team1.py:67-74 | `intro_sequence` leaves exactly its four pulses |
| Play.Game.SuccessEffect | team1.py:76-86 | `success_effect` leaves exactly the 42-note melody trace, then sets `game_end`, changing no other global |
| Play.Game.FailureEffect | team1.py:88-98 | `failure_effect` leaves exactly three blink cycles, then sets `game_end`, changing no other global |
| Play.Game.OnButtonPress | team1.py:100-119 | the callback reports `IndexError` exactly when `Press` raises; it leaves exactly the rendered effects of `Press` on the board and the globals of `Press`, unchanged when it raises |
| Play.Game.Start | team1.py:121-143 | `main` up to the player's turn leaves exactly the startup trace and sets the challenge, changing no other global |
| Play.Game.PlayChallenge | team1.py:139-143 | the playback loop leaves exactly one cue per challenge entry, with its drawn pause |

## Left out

- The serial connection, the board object's creation and `board.exit()`
  (team1.py:6-11, 150) are I/O plumbing. The board is the recording `Board`.
- Pin modes, callback registration and reporting (team1.py:125-130) are
  calls into pyfirmata2. The model assumes callbacks arrive only for
  BUTTON_PINS, so `ChannelOf` requires a button pin. The `ValueError` of
  `BUTTON_PINS.index` for any other pin is not modelled.
- The Iterator thread (team1.py:10-11) is concurrency. Callbacks are
  treated as serialized, one after another, and never interleaved with
  `main`. Presses before the challenge is drawn are modelled on the initial
  globals (`EarlyPress`).
- The busy-wait loop `while not game_end` (team1.py:147-148) only waits.
- The randomness (team1.py:137, 143). The challenge and the pauses are
  parameters of `Game.Start`. The pauses are whole milliseconds, and
  `PausesInRange` is the [1500, 2500] ms range of `random.uniform(1.5, 2.5)`.
- Floating point. Beat multipliers are integer tenths of a beat, and
  `time.sleep` seconds are integer milliseconds. For every beat value in
  the program, `int(duration * WHOLE_NOTE_MS)` is the exact product.
- `print` output.
- The hardware behaviour of `tone` and `noTone`. The sketch's handler
  returns the call it would make as a `Command`.
- ToneFirmata.HandleSysex: `argc` is the length of the payload sequence.
  A caller passing an `argc` that differs from the buffer's length is not
  modelled.
- Play.Run: an `IndexError` ends the series of presses. What later
  presses do after an `IndexError` depends on the board library and is not
  modelled.
- Play.Game.OnButtonPress: on `IndexError` the method returns
  `raised = true` with the globals unchanged rather than propagating an
  exception.
- Play.ChannelOf: computed as `pin - 6`. Its contract states that this is
  the first index of the pin in BUTTON_PINS.
