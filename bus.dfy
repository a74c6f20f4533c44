/** The I2C bus and the shutdown pin the driver talks to, reduced to what
    the driver can observe: every bus transaction is appended to a log and
    answered by the next reply of a fixed script (an acknowledged transfer
    with the bytes read back, or a bus error). Pin requests are logged the
    same way and succeed or fail by a script of their own.

    Each driver operation is specified by an `Exchange`: the transactions
    it sends and the result it returns, as a pure function of the device
    address, the configuration and the replies from position `i` on. */
module I2cBus {
  import opened Bytes
  import opened Errors
  import opened Framing

  /** The device's answer to one transaction. */
  datatype Reply = Ack(data: seq<byte>) | Nack

  /** The reply to the `i`-th transaction; past the end of the script the
      bus fails. */
  function Nth(rs: seq<Reply>, i: nat): Reply
  {
    if i < |rs| then rs[i] else Nack
  }

  /** The `n`-byte receive buffer after a read: the bytes the device sent,
      zero-filled (the driver initialises its buffers to zero). */
  function Fill(d: seq<byte>, n: nat): (b: seq<byte>)
    ensures |b| == n
    ensures forall j :: 0 <= j < n && j < |d| ==> b[j] == d[j]
  {
    seq(n, j requires 0 <= j < n => if j < |d| then d[j] else 0)
  }

  /** `data[0]` of a one-byte read. */
  function Byte0(d: seq<byte>): byte
  {
    Fill(d, 1)[0]
  }

  /** What an operation does on the bus: the transactions it sends, in
      order, and what it returns. */
  datatype Exchange<+T> = Exchange(trace: seq<Transaction>, result: Result<T>)

  /** `first?; next`: run `next` only if `first` succeeded. `next` must be
      evaluated on the replies after `first`'s transactions. */
  function Then<T>(first: Exchange<()>, next: Exchange<T>): Exchange<T>
  {
    if first.result.Err? then Exchange(first.trace, Err(first.result.error))
    else Exchange(first.trace + next.trace, next.result)
  }

  /** One transaction, then `rest`. */
  function Prepend<T>(t: Transaction, rest: Exchange<T>): Exchange<T>
  {
    Exchange([t] + rest.trace, rest.result)
  }

  /** A single register write as sent by `write_register` or
      `write_register_16bit`: it succeeds iff the device acknowledges. */
  function WriteOne(t: Transaction, rs: seq<Reply>, i: nat): Exchange<()>
  {
    Exchange([t], if Nth(rs, i).Ack? then Ok(()) else Err(BusError))
  }

  /** A planned register write: 8-bit or 16-bit value. */
  datatype RegWrite = Write8(reg: u16, value: byte) | Write16(reg: u16, value16: u16)

  function Frame(device: byte, w: RegWrite): Transaction
  {
    match w
    case Write8(reg, v) => Write8Frame(device, reg, v)
    case Write16(reg, v) => Write16Frame(device, reg, v)
  }

  function Frames(device: byte, ws: seq<RegWrite>): (ts: seq<Transaction>)
    ensures |ts| == |ws|
  {
    seq(|ws|, j requires 0 <= j < |ws| => Frame(device, ws[j]))
  }

  lemma FramesAppend(device: byte, ws1: seq<RegWrite>, ws2: seq<RegWrite>)
    ensures Frames(device, ws1 + ws2) == Frames(device, ws1) + Frames(device, ws2)
  {
  }

  /** The `n` transactions from position `i` on are all acknowledged. */
  predicate AllAcked(rs: seq<Reply>, i: nat, n: nat)
  {
    forall j :: i <= j < i + n ==> Nth(rs, j).Ack?
  }

  lemma AllAckedSplit(rs: seq<Reply>, i: nat, m: nat, n: nat)
    ensures AllAcked(rs, i, m + n) <==> AllAcked(rs, i, m) && AllAcked(rs, i + m, n)
  {
  }

  /** `a?; b?; c` in either grouping. */
  lemma ThenAssoc<T>(a: Exchange<()>, b: Exchange<()>, c: Exchange<T>)
    ensures Then(Then(a, b), c) == Then(a, Then(b, c))
  {
    if a.result.Ok? && b.result.Ok? {
      assert (a.trace + b.trace) + c.trace == a.trace + (b.trace + c.trace);
    }
  }

  /** A log that grew by `first`'s transactions and then by `next`'s
      has grown by those of `first?; next`, when `first` succeeded. */
  lemma LogThen<T>(log0: seq<Transaction>, log1: seq<Transaction>, log2: seq<Transaction>, first: Exchange<()>, next: Exchange<T>)
    requires first.result.Ok?
    requires log1 == log0 + first.trace && log2 == log1 + next.trace
    ensures log2 == log0 + Then(first, next).trace && Then(first, next).result == next.result
  {
    assert log0 + (first.trace + next.trace) == (log0 + first.trace) + next.trace;
  }

  /** A log that grew by `ts` and then by `next`'s transactions has grown
      by those of `Splice(ts, next)`. */
  lemma LogSplice<T>(log0: seq<Transaction>, log1: seq<Transaction>, log2: seq<Transaction>, ts: seq<Transaction>, next: Exchange<T>)
    requires log1 == log0 + ts && log2 == log1 + next.trace
    ensures log2 == log0 + (ts + next.trace)
  {
  }

  /** Two exchanges in sequence, each of which succeeds iff its
      transactions are acknowledged, sends all of them when it does and can
      only fail with a bus error: the sequence behaves the same way over the
      transactions of both, and its trace is the first's, then the second's. */
  lemma ThenOutcome<T>(first: Exchange<()>, next: Exchange<T>, rs: seq<Reply>, i: nat, m: nat, n: nat)
    requires first.result.Ok? <==> AllAcked(rs, i, m)
    requires first.result.Ok? ==> |first.trace| == m
    requires first.result.Err? ==> first.result.error == BusError
    requires next.result.Ok? <==> AllAcked(rs, i + m, n)
    requires next.result.Ok? ==> |next.trace| == n
    requires next.result.Err? ==> next.result.error == BusError
    ensures var e := Then(first, next);
      && (e.result.Ok? <==> AllAcked(rs, i, m + n))
      && (e.result.Err? ==> e.result.error == BusError)
      && (e.result.Ok? ==> |e.trace| == m + n && e.trace == first.trace + next.trace)
  {
    AllAckedSplit(rs, i, m, n);
  }

  /** A chain of writes each followed by `?`: the writes are sent in order
      and the chain stops at the first one the bus rejects. */
  function RunWrites(device: byte, ws: seq<RegWrite>, rs: seq<Reply>, i: nat): Exchange<()>
    decreases |ws|
  {
    if ws == [] then Exchange([], Ok(()))
    else if Nth(rs, i).Nack? then Exchange([Frame(device, ws[0])], Err(BusError))
    else Prepend(Frame(device, ws[0]), RunWrites(device, ws[1..], rs, i + 1))
  }

  /** A write chain sends a prefix of its frames. It succeeds iff every
      write is acknowledged, and then it has sent all of them; otherwise it
      stops right after the first rejected write with a bus error. */
  lemma {:induction false} RunWritesOutcome(device: byte, ws: seq<RegWrite>, rs: seq<Reply>, i: nat)
    ensures var e := RunWrites(device, ws, rs, i);
      && |e.trace| <= |ws|
      && e.trace == Frames(device, ws[..|e.trace|])
      && (e.result.Ok? <==> AllAcked(rs, i, |ws|))
      && (e.result.Ok? ==> |e.trace| == |ws|)
      && (e.result.Err? ==>
            && e.result.error == BusError && |e.trace| >= 1 && Nth(rs, i + |e.trace| - 1).Nack?
            && forall j :: i <= j < i + |e.trace| - 1 ==> Nth(rs, j).Ack?)
    decreases |ws|
  {
    if ws != [] && Nth(rs, i).Ack? {
      RunWritesOutcome(device, ws[1..], rs, i + 1);
      var e := RunWrites(device, ws, rs, i);
      var e' := RunWrites(device, ws[1..], rs, i + 1);
      assert e.trace == [Frame(device, ws[0])] + e'.trace;
      assert ws[1..][..|e'.trace|] == ws[1..|e.trace|];
      assert e.trace == Frames(device, ws[..|e.trace|]);
    }
  }

  /** Splitting a write chain in two: the whole chain is the first part
      followed, if that succeeded, by the second part on the remaining
      replies. */
  lemma {:induction false} RunWritesAppend(device: byte, ws1: seq<RegWrite>, ws2: seq<RegWrite>, rs: seq<Reply>, i: nat)
    ensures RunWrites(device, ws1 + ws2, rs, i)
         == Then(RunWrites(device, ws1, rs, i), RunWrites(device, ws2, rs, i + |ws1|))
    decreases |ws1|
  {
    if ws1 == [] {
      assert ws1 + ws2 == ws2;
    } else {
      assert (ws1 + ws2)[0] == ws1[0];
      assert (ws1 + ws2)[1..] == ws1[1..] + ws2;
      RunWritesAppend(device, ws1[1..], ws2, rs, i + 1);
    }
  }

  /** A write chain followed by an exchange that succeeds iff its `n`
      transactions are acknowledged: the whole succeeds iff all the writes
      and those `n` transactions are acknowledged, and then sends every
      write's frame followed by the exchange's transactions. */
  lemma WritesThenOutcome<T>(device: byte, ws: seq<RegWrite>, next: Exchange<T>, rs: seq<Reply>, i: nat, n: nat)
    requires next.result.Ok? <==> AllAcked(rs, i + |ws|, n)
    requires next.result.Ok? ==> |next.trace| == n
    requires next.result.Err? ==> next.result.error == BusError
    ensures var e := Then(RunWrites(device, ws, rs, i), next);
      && (e.result.Ok? <==> AllAcked(rs, i, |ws| + n))
      && (e.result.Err? ==> e.result.error == BusError)
      && (e.result.Ok? ==> |e.trace| == |ws| + n && e.trace == Frames(device, ws) + next.trace)
  {
    var first := RunWrites(device, ws, rs, i);
    RunWritesOutcome(device, ws, rs, i);
    ThenOutcome(first, next, rs, i, |ws|, n);
    if first.result.Ok? {
      assert ws[..|ws|] == ws;
    }
  }

  /** The I2C bus as the driver sees it. `script` is what the device
      answers, in order; the position in it is the number of transactions
      sent so far. */
  class Bus {
    const script: seq<Reply>
    var log: seq<Transaction>

    constructor(script: seq<Reply>)
      ensures this.script == script && log == []
    {
      this.script := script;
      log := [];
    }

    /** `write_read` / `write`: sends `t` and returns the device's answer. */
    method Transact(t: Transaction) returns (reply: Reply)
      modifies this
      ensures log == old(log) + [t]
      ensures reply == Nth(script, |old(log)|)
    {
      reply := Nth(script, |log|);
      log := log + [t];
    }
  }

  /** Whether the `i`-th request to a pin succeeds. */
  function PinOk(outcomes: seq<bool>, i: nat): bool
  {
    i < |outcomes| && outcomes[i]
  }

  /** The x-shutdown output pin: the level it drives, the levels requested
      so far and whether each request succeeds. */
  class Pin {
    const outcomes: seq<bool>
    var requests: seq<bool>
    var high: bool

    constructor(high: bool, outcomes: seq<bool>)
      ensures this.high == high && this.outcomes == outcomes && requests == []
    {
      this.high := high;
      this.outcomes := outcomes;
      requests := [];
    }

    /** `set_low`: on success the pin drives low. */
    method SetLow() returns (ok: bool)
      modifies this
      ensures requests == old(requests) + [false]
      ensures ok == PinOk(outcomes, |old(requests)|)
      ensures high == (old(high) && !ok)
    {
      ok := PinOk(outcomes, |requests|);
      requests := requests + [false];
      if ok {
        high := false;
      }
    }

    /** `set_high`: on success the pin drives high. */
    method SetHigh() returns (ok: bool)
      modifies this
      ensures requests == old(requests) + [true]
      ensures ok == PinOk(outcomes, |old(requests)|)
      ensures high == (old(high) || ok)
    {
      ok := PinOk(outcomes, |requests|);
      requests := requests + [true];
      if ok {
        high := true;
      }
    }
  }
}
