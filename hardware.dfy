/** The board as the game drives it (team1.py): every digital write and
    every sysex message sent through the pyfirmata2 board object, and every
    `time.sleep`, recorded in order as an append-only trace. */
module Hardware {
  import opened ToneFirmata

  datatype Event =
    | Write(pin: nat, high: bool)            // board.digital[pin].write(1) or write(0)
    | Sysex(command: byte, data: seq<byte>)  // board.send_sysex(command, data)
    | Sleep(ms: nat)                         // time.sleep(ms / 1000)

  /** The board object together with the clock: it only records. */
  class Board {
    var trace: seq<Event>

    constructor ()
      ensures trace == []
    {
      trace := [];
    }

    method DigitalWrite(pin: nat, high: bool)
      modifies this
      ensures trace == old(trace) + [Write(pin, high)]
    {
      trace := trace + [Write(pin, high)];
    }

    method SendSysex(command: byte, data: seq<byte>)
      modifies this
      ensures trace == old(trace) + [Sysex(command, data)]
    {
      trace := trace + [Sysex(command, data)];
    }

    method TimeSleep(ms: nat)
      modifies this
      ensures trace == old(trace) + [Sleep(ms)]
    {
      trace := trace + [Sleep(ms)];
    }
  }

  /** The data of every sysex message in the trace, in order. */
  function Payloads(t: seq<Event>): (p: seq<seq<byte>>)
    ensures |p| <= |t|
  {
    if t == [] then []
    else (if t[0].Sysex? then [t[0].data] else []) + Payloads(t[1..])
  }

  /** Wall-clock time the trace spends sleeping, in milliseconds. */
  function TotalSleep(t: seq<Event>): nat
  {
    if t == [] then 0
    else (if t[0].Sleep? then t[0].ms else 0) + TotalSleep(t[1..])
  }

  /** The pins driven high after the writes of `t`, starting from `lit`. */
  function Lit(lit: set<nat>, t: seq<Event>): set<nat>
    decreases |t|
  {
    if t == [] then lit
    else
      var next := match t[0]
                  case Write(pin, high) => if high then lit + {pin} else lit - {pin}
                  case _ => lit;
      Lit(next, t[1..])
  }

  lemma Assoc(a: seq<Event>, b: seq<Event>, c: seq<Event>)
    ensures a + (b + c) == (a + b) + c
  {
  }

  lemma {:induction false} PayloadsAppend(a: seq<Event>, b: seq<Event>)
    ensures Payloads(a + b) == Payloads(a) + Payloads(b)
  {
    if a == [] {
      assert a + b == b;
    } else {
      assert (a + b)[0] == a[0] && (a + b)[1..] == a[1..] + b;
      PayloadsAppend(a[1..], b);
    }
  }

  lemma {:induction false} TotalSleepAppend(a: seq<Event>, b: seq<Event>)
    ensures TotalSleep(a + b) == TotalSleep(a) + TotalSleep(b)
  {
    if a == [] {
      assert a + b == b;
    } else {
      assert (a + b)[0] == a[0] && (a + b)[1..] == a[1..] + b;
      TotalSleepAppend(a[1..], b);
    }
  }

  /** The sysex data, the sleeping and the LEDs of a trace made of four
      parts, part by part. */
  lemma PayloadsAppend4(a: seq<Event>, b: seq<Event>, c: seq<Event>, d: seq<Event>)
    ensures Payloads(a + b + c + d) == Payloads(a) + Payloads(b) + Payloads(c) + Payloads(d)
  {
    PayloadsAppend(a, b); PayloadsAppend(a + b, c); PayloadsAppend(a + b + c, d);
  }

  lemma TotalSleepAppend4(a: seq<Event>, b: seq<Event>, c: seq<Event>, d: seq<Event>)
    ensures TotalSleep(a + b + c + d) == TotalSleep(a) + TotalSleep(b) + TotalSleep(c) + TotalSleep(d)
  {
    TotalSleepAppend(a, b); TotalSleepAppend(a + b, c); TotalSleepAppend(a + b + c, d);
  }

  lemma LitAppend4(lit: set<nat>, a: seq<Event>, b: seq<Event>, c: seq<Event>, d: seq<Event>)
    ensures Lit(lit, a + b + c + d) == Lit(Lit(Lit(Lit(lit, a), b), c), d)
  {
    LitAppend(lit, a, b); LitAppend(lit, a + b, c); LitAppend(lit, a + b + c, d);
  }

  lemma {:induction false} LitAppend(lit: set<nat>, a: seq<Event>, b: seq<Event>)
    ensures Lit(lit, a + b) == Lit(Lit(lit, a), b)
    decreases |a|
  {
    if a == [] {
      assert a + b == b;
    } else {
      assert (a + b)[0] == a[0] && (a + b)[1..] == a[1..] + b;
      var next := match a[0]
                  case Write(pin, high) => if high then lit + {pin} else lit - {pin}
                  case _ => lit;
      LitAppend(next, a[1..], b);
    }
  }
}
