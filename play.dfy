/** The game of team1.py: the three module globals `random_sequence`,
    `user_sequence_index` and `game_end`, the button callback
    `on_button_press`, and `main` up to the point where the player's turn
    begins. `Session` and `Press` are the game as values; the class `Game`
    holds the same globals as fields and drives a `Board`. */
module Play {
  import opened ToneFirmata
  import opened Hardware
  import opened Synth
  import opened Cues

  /** The three globals: the challenge, how many entries of it the player
      has matched, and whether the game is over. */
  datatype Session = Session(sequence: seq<nat>, index: nat, ended: bool)

  /** A channel: an index into LED_PINS and BUTTON_PINS. */
  type Channel = c: nat | c < 4

  /** What a callback plays on the board: a button's short note,
      `success_effect` or `failure_effect`. */
  datatype Effect = Beep(channel: Channel) | Tune | Blinks

  /** What one callback does: it returns normally with the new globals, or
      it raises `IndexError` at `random_sequence[user_sequence_index]`,
      globals untouched. Either way it has played `effects`. */
  datatype Outcome =
    | Handled(session: Session, effects: seq<Effect>)
    | Raised(effects: seq<Effect>)

  /** The pins of BUTTON_PINS as a set. */
  const ButtonSet: set<nat> := {6, 7, 8, 9}

  /** The globals as the module starts. */
  const Initial: Session := Session([], 0, false)

  /** The invariant the callback keeps once the challenge exists: the index
      never passes the challenge, and a fully matched challenge has ended
      the game. */
  ghost predicate Valid(s: Session)
  {
    s.index <= |s.sequence| && (|s.sequence| > 0 && s.index == |s.sequence| ==> s.ended)
  }

  /** The player matched the whole challenge. */
  predicate Won(s: Session)
  {
    s.ended && |s.sequence| > 0 && s.index == |s.sequence|
  }

  /** The set and the list hold the same pins. */
  lemma ButtonSetIsPins(pin: nat)
    ensures pin in ButtonSet <==> pin in ButtonPins
  {
  }

  /** `BUTTON_PINS.index(pin)`: the channel of a button pin. */
  function ChannelOf(pin: nat): (c: Channel)
    requires pin in ButtonSet
    ensures ButtonPins[c] == pin
    ensures forall j :: 0 <= j < c ==> ButtonPins[j] != pin
  {
    pin - 6
  }

  /** The short confirmation note of a button: `list(NOTES.keys())[c]` for 0.1 beat. */
  function Echo(c: Channel): seq<Event>
  {
    NoteTrace(NoteKey(c), 1)
  }

  /** The board events of an effect. */
  function Render(e: Effect): seq<Event>
  {
    match e
    case Beep(c) => Echo(c)
    case Tune => MelodyTrace(TwinkleStar)
    case Blinks => FailureTrace(FailBlinkCount)
  }

  /** The board events of a series of effects, in order. */
  function Rendered(es: seq<Effect>): seq<Event>
  {
    if es == [] then [] else Render(es[0]) + Rendered(es[1..])
  }

  /** Whether `on_button_press` raises `IndexError`: the game runs but the
      index is past the end of the challenge. */
  predicate Raises(s: Session)
  {
    !s.ended && s.index >= |s.sequence|
  }

  /** The globals after `on_button_press` returns normally. An ended game
      ignores the press; a press that matches the next entry advances the
      index and, on the last entry, `success_effect` ends the game; any
      other press ends it through `failure_effect`. */
  function Advance(s: Session, pin: nat): Session
    requires pin in ButtonSet
  {
    if s.ended || s.index >= |s.sequence| then s
    else if ChannelOf(pin) == s.sequence[s.index] then
      Session(s.sequence, s.index + 1, s.index + 1 == |s.sequence|)
    else Session(s.sequence, s.index, true)
  }

  /** What `on_button_press` plays: nothing once the game has ended;
      otherwise the button's note, then the tune after the last right press
      or the blinks after a wrong one. */
  function Effects(s: Session, pin: nat): seq<Effect>
    requires pin in ButtonSet
  {
    if s.ended then []
    else
      var c := ChannelOf(pin);
      if s.index >= |s.sequence| then [Beep(c)]
      else if c != s.sequence[s.index] then [Beep(c), Blinks]
      else if s.index + 1 == |s.sequence| then [Beep(c), Tune]
      else [Beep(c)]
  }

  /** `on_button_press` for a press of `pin`. */
  function Press(s: Session, pin: nat): Outcome
    requires pin in ButtonSet
  {
    if Raises(s) then Raised(Effects(s, pin)) else Handled(Advance(s, pin), Effects(s, pin))
  }

  /** Every pin is a button pin: the callback is registered on those only. */
  predicate Buttons(pins: seq<nat>)
  {
    forall i :: 0 <= i < |pins| ==> pins[i] in ButtonSet
  }

  /** `effects` were played before `o`. */
  function After(effects: seq<Effect>, o: Outcome): Outcome
  {
    match o
    case Handled(s, e) => Handled(s, effects + e)
    case Raised(e) => Raised(effects + e)
  }

  /** The callbacks for a series of presses, one after the other; an
      exception ends the series. */
  function Run(s: Session, pins: seq<nat>): Outcome
    requires Buttons(pins)
    decreases |pins|
  {
    if pins == [] then Handled(s, [])
    else
      match Press(s, pins[0])
      case Raised(e) => Raised(e)
      case Handled(next, e) => After(e, Run(next, pins[1..]))
  }

  /** The globals after a series of presses none of which raises. */
  function Final(s: Session, pins: seq<nat>): Session
    requires Buttons(pins)
    decreases |pins|
  {
    if pins == [] then s else Final(Advance(s, pins[0]), pins[1..])
  }

  /** The channels a series of presses names. */
  function Pressed(pins: seq<nat>): (cs: seq<nat>)
    requires Buttons(pins)
    ensures |cs| == |pins|
  {
    if pins == [] then [] else [ChannelOf(pins[0]) as nat] + Pressed(pins[1..])
  }

  /** The buttons' notes for a series of presses. */
  function Beeps(pins: seq<nat>): (es: seq<Effect>)
    requires Buttons(pins)
    ensures |es| == |pins|
  {
    if pins == [] then [] else [Beep(ChannelOf(pins[0]))] + Beeps(pins[1..])
  }

  /** The first `n` presses name the next `n` entries of the challenge. */
  predicate Matches(s: Session, pins: seq<nat>, n: nat)
    requires Buttons(pins)
  {
    n <= |pins| && s.index + n <= |s.sequence|
    && Pressed(pins)[..n] == s.sequence[s.index..s.index + n]
  }

  /** Matching `n + 1` presses is matching the first and then `n` more. */
  lemma MatchesTail(s: Session, pins: seq<nat>, n: nat)
    requires Buttons(pins) && pins != [] && s.index < |s.sequence|
    requires ChannelOf(pins[0]) == s.sequence[s.index]
    ensures Matches(s, pins, n + 1) <==> Matches(s.(index := s.index + 1), pins[1..], n)
  {
    if n + 1 <= |pins| && s.index + n + 1 <= |s.sequence| {
      var c := s.sequence[s.index];
      var p := Pressed(pins[1..]);
      assert Pressed(pins) == [c] + p;
      ConsPrefix(c, p, n);
      SliceCons(s.sequence, s.index, n);
      ConsEqual(c, p[..n], s.sequence[s.index + 1..s.index + 1 + n]);
    }
  }

  lemma ConsPrefix(c: nat, p: seq<nat>, n: nat)
    requires n <= |p|
    ensures ([c] + p)[..n + 1] == [c] + p[..n]
  {
  }

  lemma SliceCons(q: seq<nat>, i: nat, n: nat)
    requires i + n + 1 <= |q|
    ensures q[i..i + n + 1] == [q[i]] + q[i + 1..i + 1 + n]
  {
  }

  lemma ConsEqual(c: nat, x: seq<nat>, y: seq<nat>)
    ensures [c] + x == [c] + y <==> x == y
  {
    if [c] + x == [c] + y {
      assert ([c] + x)[1..] == x && ([c] + y)[1..] == y;
    }
  }

  lemma RenderedOne(e: Effect)
    ensures Rendered([e]) == Render(e)
  {
    assert [e][1..] == [];
    assert Render(e) + [] == Render(e);
  }

  lemma RenderedTwo(e: Effect, f: Effect)
    ensures Rendered([e, f]) == Render(e) + Render(f)
  {
    assert [e, f][1..] == [f];
    RenderedOne(f);
  }

  /** Rendering respects concatenation. */
  lemma {:induction false} RenderedAppend(a: seq<Effect>, b: seq<Effect>)
    ensures Rendered(a + b) == Rendered(a) + Rendered(b)
  {
    if a == [] {
      assert a + b == b;
    } else {
      assert (a + b)[0] == a[0] && (a + b)[1..] == a[1..] + b;
      RenderedAppend(a[1..], b);
      Assoc(Render(a[0]), Rendered(a[1..]), Rendered(b));
    }
  }

  // ---------------------------------------------------------------------
  // One press

  /** Once the game has ended every press is ignored: nothing changes and
      nothing is played. */
  lemma PressEnded(s: Session, pin: nat)
    requires pin in ButtonSet && s.ended
    ensures Press(s, pin) == Handled(s, [])
  {
  }

  /** The only press that raises is one made while the game runs but the
      index has reached the end of the challenge, which a valid session only
      allows before the challenge has been drawn; it has played the
      button's note. */
  lemma PressRaises(s: Session, pin: nat)
    requires pin in ButtonSet
    ensures Press(s, pin).Raised? <==> !s.ended && s.index >= |s.sequence|
    ensures Press(s, pin).Raised? ==> Press(s, pin).effects == [Beep(ChannelOf(pin))]
    ensures Valid(s) && Press(s, pin).Raised? ==> s.sequence == []
  {
  }

  /** A right press advances the index by one and keeps the challenge; the
      game ends, with the tune, exactly when that was the last entry. */
  lemma PressRight(s: Session, pin: nat)
    requires pin in ButtonSet && !s.ended && s.index < |s.sequence|
    requires ChannelOf(pin) == s.sequence[s.index]
    ensures Press(s, pin).Handled?
    ensures Press(s, pin).session.sequence == s.sequence
    ensures Press(s, pin).session.index == s.index + 1
    ensures Press(s, pin).session.ended <==> s.index + 1 == |s.sequence|
    ensures Press(s, pin).effects ==
              if s.index + 1 == |s.sequence| then [Beep(ChannelOf(pin)), Tune] else [Beep(ChannelOf(pin))]
  {
  }

  /** A wrong press ends the game with the index where it was, after the
      button's note and the blinks. */
  lemma PressWrong(s: Session, pin: nat)
    requires pin in ButtonSet && !s.ended && s.index < |s.sequence|
    requires ChannelOf(pin) != s.sequence[s.index]
    ensures Press(s, pin) == Handled(Session(s.sequence, s.index, true), [Beep(ChannelOf(pin)), Blinks])
  {
  }

  /** The callback keeps the invariant, never changes the challenge and
      never moves the index back; with the challenge drawn it never raises. */
  lemma PressValid(s: Session, pin: nat)
    requires pin in ButtonSet && Valid(s) && |s.sequence| > 0
    ensures Press(s, pin).Handled?
    ensures Valid(Advance(s, pin))
    ensures Advance(s, pin).sequence == s.sequence
    ensures s.index <= Advance(s, pin).index <= s.index + 1
    ensures s.ended ==> Advance(s, pin) == s
  {
  }

  /** The button's note is the note its LED's cue plays, for 50 ms:
      `tone(10, f, 50)` with f = 261, 294, 330 or 349 Hz for channels 0 to 3. */
  lemma EchoTone(c: Channel)
    ensures Payloads(Render(Beep(c))) == [Payload(Frequency(NoteKey(c)), 50)]
    ensures HandleSysex(Payloads(Render(Beep(c)))[0]) == Some(Tone(BuzzerPin, [261, 294, 330, 349][c], 50))
    ensures TotalSleep(Render(Beep(c))) == 50
  {
    ChannelNote(c);
    NoteTiming(NoteKey(c), 1);
    RoundTripExact(Frequency(NoteKey(c)), 50);
  }

  // ---------------------------------------------------------------------
  // A series of presses

  /** An ended game stays ended and silent whatever is pressed. */
  lemma {:induction false} RunEnded(s: Session, pins: seq<nat>)
    requires Buttons(pins) && s.ended
    ensures Run(s, pins) == Handled(s, [])
    ensures Final(s, pins) == s
    decreases |pins|
  {
    if pins != [] {
      PressEnded(s, pins[0]);
      RunEnded(s, pins[1..]);
    }
  }

  /** Once the challenge is drawn, no series of presses raises, breaks the
      invariant or changes the challenge, and the callbacks leave the
      globals at `Final`. */
  lemma {:induction false} RunValid(s: Session, pins: seq<nat>)
    requires Buttons(pins) && Valid(s) && |s.sequence| > 0
    ensures Run(s, pins).Handled? && Run(s, pins).session == Final(s, pins)
    ensures Valid(Final(s, pins)) && Final(s, pins).sequence == s.sequence
    decreases |pins|
  {
    if pins != [] {
      PressValid(s, pins[0]);
      RunValid(Advance(s, pins[0]), pins[1..]);
    }
  }

  /** Pressing the rest of the challenge in order wins: the game is over
      with everything matched, after each button's note and the tune. */
  lemma {:induction false} Winning(s: Session, pins: seq<nat>)
    requires Buttons(pins) && !s.ended
    requires |pins| == |s.sequence| - s.index > 0
    requires Matches(s, pins, |pins|)
    ensures Run(s, pins) == Handled(Session(s.sequence, |s.sequence|, true), Beeps(pins) + [Tune])
    decreases |pins|
  {
    var b := Beep(ChannelOf(pins[0]));
    assert Pressed(pins)[0] == s.sequence[s.index];
    if |pins| > 1 {
      MatchesTail(s, pins, |pins| - 1);
      Winning(Advance(s, pins[0]), pins[1..]);
      assert [b] + (Beeps(pins[1..]) + [Tune]) == Beeps(pins) + [Tune];
    } else {
      assert pins[1..] == [];
      assert Beeps(pins) == [b];
    }
  }

  /** The first press that departs from the challenge loses: the game ends
      at that index after the notes of the presses so far and the blinks,
      and later presses change nothing. */
  lemma {:induction false} Losing(s: Session, pins: seq<nat>, n: nat)
    requires Buttons(pins) && !s.ended
    requires n < |pins| && s.index + n < |s.sequence|
    requires Matches(s, pins, n)
    requires ChannelOf(pins[n]) != s.sequence[s.index + n]
    ensures Run(s, pins) == Handled(Session(s.sequence, s.index + n, true), Beeps(pins[..n + 1]) + [Blinks])
    decreases n
  {
    var b := Beep(ChannelOf(pins[0]));
    if n == 0 {
      RunEnded(Advance(s, pins[0]), pins[1..]);
      assert pins[..1][1..] == [];
      assert Beeps(pins[..1]) == [b];
    } else {
      assert Pressed(pins)[0] == s.sequence[s.index];
      MatchesTail(s, pins, n - 1);
      assert pins[1..][n - 1] == pins[n];
      Losing(Advance(s, pins[0]), pins[1..], n - 1);
      assert pins[..n + 1][1..] == pins[1..][..n];
      assert [b] + (Beeps(pins[1..][..n]) + [Blinks]) == Beeps(pins[..n + 1]) + [Blinks];
    }
  }

  /** Conversely, a series of presses that wins a running game is the rest
      of the challenge, in order, possibly followed by ignored presses. */
  lemma {:induction false} WonByMatching(s: Session, pins: seq<nat>)
    requires Buttons(pins) && Valid(s) && !s.ended && |s.sequence| > 0
    requires Won(Final(s, pins))
    ensures Matches(s, pins, |s.sequence| - s.index)
    decreases |pins|
  {
    if pins == [] {
      assert false;
    } else {
      var next := Advance(s, pins[0]);
      if ChannelOf(pins[0]) != s.sequence[s.index] {
        RunEnded(next, pins[1..]);
        assert false;
      } else if s.index + 1 < |s.sequence| {
        WonByMatching(next, pins[1..]);
        MatchesTail(s, pins, |s.sequence| - s.index - 1);
      } else {
        assert Pressed(pins)[..1] == [ChannelOf(pins[0]) as nat];
      }
    }
  }

  /** Before the challenge is drawn a press of a running game sounds its
      note and then raises `IndexError`. */
  lemma EarlyPress(pin: nat)
    requires pin in ButtonSet
    ensures Press(Initial, pin) == Raised([Beep(ChannelOf(pin))])
  {
  }

  /** The challenge [2, 0, 1]: buttons 8, 6, 7 win with the notes of
      channels 2, 0 and 1 and the tune; 8 then 9 loses at the second entry
      and the final 6 is ignored. */
  lemma Scenarios()
    ensures Run(Session([2, 0, 1], 0, false), [8, 6, 7]) ==
              Handled(Session([2, 0, 1], 3, true), [Beep(2), Beep(0), Beep(1), Tune])
    ensures Run(Session([2, 0, 1], 0, false), [8, 9, 6]) ==
              Handled(Session([2, 0, 1], 1, true), [Beep(2), Beep(3), Blinks])
  {
    var s := Session([2, 0, 1], 0, false);
    assert Pressed([8, 6, 7]) == [2, 0, 1];
    Winning(s, [8, 6, 7]);
    assert [8, 9, 6][..1] == [8];
    Losing(s, [8, 9, 6], 1);
    assert [8, 9, 6][..2] == [8, 9];
  }

  // ---------------------------------------------------------------------
  // main

  /** What `main` does to the board before the player's turn: the one
      second wait, `ready_effect`, `intro_sequence` and the playback. */
  function StartTrace(challenge: seq<nat>, pauses: seq<nat>): seq<Event>
    requires Channels(challenge) && |pauses| == |challenge|
  {
    [Sleep(1000)] + ReadyTrace() + IntroTrace(4) + PlaybackTrace(challenge, pauses)
  }

  /** Before the player's turn the board has heard the four intro tones
      and then one tone per cue. */
  lemma StartTones(challenge: seq<nat>, pauses: seq<nat>)
    requires Channels(challenge) && |pauses| == |challenge|
    ensures Payloads(StartTrace(challenge, pauses)) == Payloads(IntroTrace(4)) + Payloads(PlaybackTrace(challenge, pauses))
  {
    ReadyShape({});
    PreludePayloads(ReadyTrace(), IntroTrace(4), PlaybackTrace(challenge, pauses));
  }

  lemma PreludePayloads(ready: seq<Event>, intro: seq<Event>, cues: seq<Event>)
    requires Payloads(ready) == []
    ensures Payloads([Sleep(1000)] + ready + intro + cues) == Payloads(intro) + Payloads(cues)
  {
    PayloadsAppend4([Sleep(1000)], ready, intro, cues);
    assert Payloads([Sleep(1000)]) == [];
  }

  /** Every LED is off when the player's turn begins. */
  lemma StartLeds(lit: set<nat>, challenge: seq<nat>, pauses: seq<nat>)
    requires Channels(challenge) && |pauses| == |challenge|
    ensures Lit(lit, StartTrace(challenge, pauses)) == lit - LedSet
  {
    ReadyShape(lit);
    IntroLeds(lit - LedSet);
    LitPlayback(lit - LedSet, challenge, pauses);
    PreludeLeds(lit, ReadyTrace(), IntroTrace(4), PlaybackTrace(challenge, pauses), ChannelLeds(challenge));
  }

  lemma PreludeLeds(lit: set<nat>, ready: seq<Event>, intro: seq<Event>, cues: seq<Event>, cueLeds: set<nat>)
    requires Lit(lit, ready) == lit - LedSet
    requires Lit(lit - LedSet, intro) == lit - LedSet
    requires Lit(lit - LedSet, cues) == (lit - LedSet) - cueLeds && cueLeds <= LedSet
    ensures Lit(lit, [Sleep(1000)] + ready + intro + cues) == lit - LedSet
  {
    LitAppend4(lit, [Sleep(1000)], ready, intro, cues);
    assert Lit(lit, [Sleep(1000)]) == lit;
    assert (lit - LedSet) - cueLeds == lit - LedSet;
  }

  /** Before the player's turn, `main` waits 3.8 seconds plus the playback:
      between 8.75 and 11.75 seconds in all. */
  lemma StartSleep(challenge: seq<nat>, pauses: seq<nat>)
    requires Channels(challenge) && |challenge| == 3 && |pauses| == 3 && PausesInRange(pauses)
    ensures TotalSleep(StartTrace(challenge, pauses)) == 3800 + TotalSleep(PlaybackTrace(challenge, pauses))
    ensures 8750 <= TotalSleep(StartTrace(challenge, pauses)) <= 11750
  {
    ReadyShape({});
    IntroPayloads(4);
    PlaybackDuration(challenge, pauses);
    PreludeSleep(ReadyTrace(), IntroTrace(4), PlaybackTrace(challenge, pauses));
  }

  lemma PreludeSleep(ready: seq<Event>, intro: seq<Event>, cues: seq<Event>)
    requires TotalSleep(ready) == 1000 && TotalSleep(intro) == 1800
    ensures TotalSleep([Sleep(1000)] + ready + intro + cues) == 3800 + TotalSleep(cues)
  {
    TotalSleepAppend4([Sleep(1000)], ready, intro, cues);
    assert TotalSleep([Sleep(1000)]) == 1000;
  }

  // ---------------------------------------------------------------------
  // The program

  /** The program's globals and its board. */
  class Game {
    const board: Board
    var randomSequence: seq<nat>
    var userSequenceIndex: nat
    var gameEnd: bool

    ghost function State(): Session
      reads this
    {
      Session(randomSequence, userSequenceIndex, gameEnd)
    }

    constructor (board: Board)
      ensures this.board == board && State() == Initial
    {
      this.board := board;
      randomSequence := [];
      userSequenceIndex := 0;
      gameEnd := false;
    }

    /** `play_note_firmata(note, duration)`. */
    method PlayNote(note: string, beats: Tenths)
      modifies board
      ensures board.trace == old(board.trace) + NoteTrace(note, beats)
    {
      var freq := Frequency(note);
      var durationMs := DurationMs(beats);
      board.SendSysex(ToneCmd, Payload(freq, durationMs));
      if freq > 0 {
        board.TimeSleep(durationMs);
      }
    }

    /** `for pin in LED_PINS: board.digital[pin].write(high)`. */
    method SetAllLeds(high: bool)
      modifies board
      ensures board.trace == old(board.trace) + AllLeds(high)
    {
      for k := 0 to |LedPins|
        invariant board.trace == old(board.trace) + Writes(LedPins[..k], high)
      {
        board.DigitalWrite(LedPins[k], high);
        WritesSnoc(LedPins, k, high);
      }
      assert LedPins[..|LedPins|] == LedPins;
    }

    /** `ready_effect`. */
    method ReadyEffect()
      modifies board
      ensures board.trace == old(board.trace) + ReadyTrace()
    {
      SetAllLeds(true);
      board.TimeSleep(1000);
      SetAllLeds(false);
    }

    /** One LED-and-tone pulse: the LED on, the note, the LED off, the pause. */
    method Pulse(pin: nat, note: string, beats: Tenths, pause: nat)
      modifies board
      ensures board.trace == old(board.trace) + Cues.Pulse(pin, note, beats, pause)
    {
      ghost var before := board.trace;
      board.DigitalWrite(pin, true);
      ghost var lit := board.trace;
      PlayNote(note, beats);
      ghost var played := board.trace;
      board.DigitalWrite(pin, false);
      board.TimeSleep(pause);
      assert lit == before + [Write(pin, true)];
      assert played == lit + NoteTrace(note, beats);
      assert board.trace == played + [Write(pin, false), Sleep(pause)];
    }

    /** `intro_sequence`. */
    method IntroSequence()
      modifies board
      ensures board.trace == old(board.trace) + IntroTrace(4)
    {
      for i := 0 to 4
        invariant board.trace == old(board.trace) + IntroTrace(i)
      {
        Pulse(LedPins[i], IntroNotes[i], 5, 200);
      }
    }

    /** `success_effect`: the tune, then `game_end = True`. */
    method SuccessEffect()
      modifies this, board
      ensures board.trace == old(board.trace) + MelodyTrace(TwinkleStar)
      ensures State() == old(State()).(ended := true)
    {
      ghost var start := board.trace;
      for k := 0 to |TwinkleStar|
        invariant board.trace == start + MelodyTrace(TwinkleStar[..k])
        invariant State() == old(State())
      {
        ghost var before := board.trace;
        var (note, duration) := TwinkleStar[k];
        SetAllLeds(true);
        ghost var lit := board.trace;
        PlayNote(note, duration);
        ghost var played := board.trace;
        SetAllLeds(false);
        assert board.trace == before + MelodyStep(TwinkleStar[k]) by {
          Assoc(before, AllLeds(true), NoteTrace(note, duration));
          Assoc(before, AllLeds(true) + NoteTrace(note, duration), AllLeds(false));
        }
        MelodySnoc(TwinkleStar, k);
        Assoc(start, MelodyTrace(TwinkleStar[..k]), MelodyStep(TwinkleStar[k]));
      }
      assert TwinkleStar[..|TwinkleStar|] == TwinkleStar;
      gameEnd := true;
    }

    /** `failure_effect`: three blinks, then `game_end = True`. */
    method FailureEffect()
      modifies this, board
      ensures board.trace == old(board.trace) + FailureTrace(FailBlinkCount)
      ensures State() == old(State()).(ended := true)
    {
      ghost var start := board.trace;
      for k := 0 to FailBlinkCount
        invariant board.trace == start + FailureTrace(k)
        invariant State() == old(State())
      {
        ghost var before := board.trace;
        SetAllLeds(true);
        board.TimeSleep(500);
        SetAllLeds(false);
        board.TimeSleep(500);
        assert board.trace == before + BlinkCycle();
        Assoc(start, FailureTrace(k), BlinkCycle());
      }
      gameEnd := true;
    }

    /** `on_button_press` for a press of `pin`; `raised` reports the
        `IndexError` of a press made before the challenge is drawn. */
    method OnButtonPress(pin: nat) returns (raised: bool)
      requires pin in ButtonSet
      modifies this, board
      ensures raised == Press(old(State()), pin).Raised?
      ensures board.trace == old(board.trace) + Rendered(Press(old(State()), pin).effects)
      ensures State() == if raised then old(State()) else Press(old(State()), pin).session
    {
      raised := false;
      if gameEnd {
        return;
      }
      var pressedPin := ChannelOf(pin);
      PlayNote(NoteKey(pressedPin), 1);
      ghost var beeped := board.trace;
      RenderedOne(Beep(pressedPin));
      if userSequenceIndex >= |randomSequence| {
        raised := true;
        return;
      }
      if pressedPin == randomSequence[userSequenceIndex] {
        userSequenceIndex := userSequenceIndex + 1;
        if userSequenceIndex == |randomSequence| {
          SuccessEffect();
          RenderedTwo(Beep(pressedPin), Tune);
          Assoc(old(board.trace), Render(Beep(pressedPin)), Render(Tune));
        }
      } else {
        FailureEffect();
        RenderedTwo(Beep(pressedPin), Blinks);
        Assoc(old(board.trace), Render(Beep(pressedPin)), Render(Blinks));
      }
    }

    /** `main` up to the player's turn, with the random draws as parameters:
        `challenge` for `random.choice(range(4))` three times and `pauses`
        for the `random.uniform(1.5, 2.5)` waits, in milliseconds. */
    method Start(challenge: seq<nat>, pauses: seq<nat>)
      requires |challenge| == 3 && Channels(challenge) && |pauses| == 3
      modifies this, board
      ensures board.trace == old(board.trace) + StartTrace(challenge, pauses)
      ensures State() == old(State()).(sequence := challenge)
    {
      board.TimeSleep(1000);
      ReadyEffect();
      IntroSequence();
      ghost var prelude := [Sleep(1000)] + ReadyTrace() + IntroTrace(4);
      Assoc(old(board.trace), [Sleep(1000)], ReadyTrace());
      Assoc(old(board.trace), [Sleep(1000)] + ReadyTrace(), IntroTrace(4));
      randomSequence := challenge;
      PlayChallenge(pauses);
      Assoc(old(board.trace), prelude, PlaybackTrace(challenge, pauses));
    }

    /** The playback loop of `main`: each entry's LED and note, then the
        pause drawn for it. */
    method PlayChallenge(pauses: seq<nat>)
      requires Channels(randomSequence) && |pauses| == |randomSequence|
      modifies board
      ensures board.trace == old(board.trace) + PlaybackTrace(randomSequence, pauses)
    {
      ghost var start := board.trace;
      for k := 0 to |randomSequence|
        invariant board.trace == start + PlaybackTrace(randomSequence[..k], pauses[..k])
      {
        var i := randomSequence[k];
        Pulse(LedPins[i], NoteKey(i), 3, pauses[k]);
        PlaybackSnoc(randomSequence, pauses, k);
        Assoc(start, PlaybackTrace(randomSequence[..k], pauses[..k]), CueStep(i, pauses[k]));
      }
      assert randomSequence[..|randomSequence|] == randomSequence && pauses[..|pauses|] == pauses;
    }
  }
}
