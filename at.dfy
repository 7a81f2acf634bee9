/** The AT transaction driver of `src/sim/at.c`: a write loop that pushes a
    whole command to the modem's serial port, and a read loop that collects the
    response until the buffer is full, or a verbose result code has been seen
    and the line has been quiet for 80 ms, or the timeout expires.

    The serial port is an injected trace: every `write` call consumes one
    `WriteEvent`, every `read` call one `ReadEvent`, and each read event carries
    the monotonic clock reading the loop takes after it. */
module At {
  import opened Text

  /** Silence after a result code that ends a read (`QUIET_MS`). */
  const QUIET_MS: nat := 80
  /** Size of the response buffers the SIM layer hands to `at_send_wait`. */
  const RESP_FRAME: nat := 256
  /** The verbose final result codes of ITU-T V.250 section 5.7. */
  const OK_MARK: string := "\r\nOK\r\n"
  const ERROR_MARK: string := "\r\nERROR\r\n"

  predicate HasMarker(s: string) {
    Contains(s, OK_MARK) || Contains(s, ERROR_MARK)
  }

  datatype Errno = EAgain | EWouldBlock | EIntr | EOther(code: int)

  /** The errors a non-blocking read reports when no byte is waiting. */
  predicate Transient(e: Errno) {
    e.EAgain? || e.EWouldBlock?
  }

  // ---------------------------------------------------------------------------
  // at_send
  // ---------------------------------------------------------------------------

  type Pos = n: nat | n >= 1 witness 1

  /** One `write` call: the kernel takes up to `room` bytes (a positive return,
      never more than it was offered), or the call returns <= 0 with `errno`. */
  datatype WriteEvent = Accepts(room: Pos) | WriteError(err: Errno)

  datatype SendOutcome = SendUndecided | Sent(total: nat, used: nat) | SendFailed(used: nat)

  function Min(a: nat, b: nat): nat {
    if a <= b then a else b
  }

  /** The write loop from event `k` on, with `total` bytes already written:
      the outcome and how many events it consumed. `SendUndecided` when the
      trace ends while bytes are still unwritten. */
  function SendLoop(ev: seq<WriteEvent>, k: nat, len: nat, total: nat): SendOutcome
    requires k <= |ev|
    decreases |ev| - k
  {
    if total >= len then Sent(total, k)
    else if k == |ev| then SendUndecided
    else
      match ev[k]
      case Accepts(room) => SendLoop(ev, k + 1, len, total + Min(room, len - total))
      case WriteError(e) => if e == EIntr then SendLoop(ev, k + 1, len, total) else SendFailed(k + 1)
  }

  /** What an `at_send(cmd, len)` call on this trace returns. */
  function SendResult(fd: int, len: nat, ev: seq<WriteEvent>): int {
    if fd < 0 then -1
    else
      match SendLoop(ev, 0, len, 0)
      case Sent(total, _) => total
      case _ => -1
  }

  /** `at_send`: write all `len` bytes, retrying on EINTR. */
  method Send(fd: int, len: nat, ev: seq<WriteEvent>) returns (r: int)
    requires fd < 0 || SendLoop(ev, 0, len, 0) != SendUndecided
    ensures r == SendResult(fd, len, ev)
    ensures r == -1 || r == len
  {
    if fd < 0 {
      return -1;
    }
    SentAll(ev, 0, len, 0);
    var total: nat := 0;
    var k: nat := 0;
    while total < len
      invariant k <= |ev| && total <= len
      invariant SendLoop(ev, k, len, total) == SendLoop(ev, 0, len, 0)
      decreases |ev| - k
    {
      if k == |ev| {
        assert false;
      }
      if ev[k].Accepts? {
        total := total + Min(ev[k].room, len - total);
      } else if ev[k].err != EIntr {
        return -1;
      }
      k := k + 1;
    }
    return total;
  }

  /** A decided write loop that started within the command writes exactly the
      command's length. */
  lemma {:induction false} SentAll(ev: seq<WriteEvent>, k: nat, len: nat, total: nat)
    requires k <= |ev| && total <= len
    ensures SendLoop(ev, k, len, total).Sent? ==> SendLoop(ev, k, len, total).total == len
    decreases |ev| - k
  {
    if total < len && k < |ev| {
      match ev[k]
      case Accepts(room) => SentAll(ev, k + 1, len, total + Min(room, len - total));
      case WriteError(e) => if e == EIntr { SentAll(ev, k + 1, len, total); }
    }
  }

  /** `at_send` either fails or reports the whole length written. */
  lemma SendAllOrNothing(fd: int, len: nat, ev: seq<WriteEvent>)
    ensures SendResult(fd, len, ev) == -1 || SendResult(fd, len, ev) == len
  {
    SentAll(ev, 0, len, 0);
  }

  function ShiftSend(o: SendOutcome, d: nat): SendOutcome {
    match o
    case SendUndecided => SendUndecided
    case Sent(t, u) => Sent(t, u + d)
    case SendFailed(u) => SendFailed(u + d)
  }

  lemma {:induction false} SendLoopShift(p: seq<WriteEvent>, ev: seq<WriteEvent>, k: nat, len: nat, total: nat)
    requires k <= |ev|
    ensures SendLoop(p + ev, |p| + k, len, total) == ShiftSend(SendLoop(ev, k, len, total), |p|)
    decreases |ev| - k
  {
    if total < len && k < |ev| {
      assert (p + ev)[|p| + k] == ev[k];
      match ev[k]
      case Accepts(room) => SendLoopShift(p, ev, k + 1, len, total + Min(room, len - total));
      case WriteError(e) => if e == EIntr { SendLoopShift(p, ev, k + 1, len, total); }
    }
  }

  /** An interrupted write is retried: an EINTR in front of the trace changes
      what `at_send` returns in no case. */
  lemma InterruptRetried(fd: int, len: nat, ev: seq<WriteEvent>)
    ensures SendResult(fd, len, [WriteError(EIntr)] + ev) == SendResult(fd, len, ev)
  {
    var p := [WriteError(EIntr)];
    SendLoopShift(p, ev, 0, len, 0);
    if len > 0 {
      assert SendLoop(p + ev, 0, len, 0) == SendLoop(p + ev, 1, len, 0);
    }
  }

  /** The bytes written after the events of `p` from `k` on, starting with
      `total` written. */
  function Written(p: seq<WriteEvent>, k: nat, len: nat, total: nat): nat
    requires k <= |p|
    decreases |p| - k
  {
    if total >= len || k == |p| then total
    else
      match p[k]
      case Accepts(room) => Written(p, k + 1, len, total + Min(room, len - total))
      case WriteError(_) => Written(p, k + 1, len, total)
  }

  /** A prefix that leaves the write loop undecided hands the rest of the
      trace a loop with some bytes still unwritten. */
  lemma {:induction false} SendLoopPrefix(p: seq<WriteEvent>, q: seq<WriteEvent>, k: nat, len: nat, total: nat)
    requires k <= |p| && SendLoop(p, k, len, total) == SendUndecided
    ensures Written(p, k, len, total) < len
    ensures SendLoop(p + q, k, len, total) == SendLoop(p + q, |p|, len, Written(p, k, len, total))
    decreases |p| - k
  {
    if k < |p| {
      assert (p + q)[k] == p[k];
      match p[k]
      case Accepts(room) => SendLoopPrefix(p, q, k + 1, len, total + Min(room, len - total));
      case WriteError(e) => SendLoopPrefix(p, q, k + 1, len, total);
    }
  }

  /** Any other write failure makes `at_send` return -1 at once, however
      many writes (partial or interrupted) came before it. */
  lemma WriteFailureFails(fd: int, len: nat, p: seq<WriteEvent>, e: Errno, ev: seq<WriteEvent>)
    requires SendLoop(p, 0, len, 0) == SendUndecided && e != EIntr
    ensures SendResult(fd, len, p + [WriteError(e)] + ev) == -1
  {
    var q := [WriteError(e)] + ev;
    assert p + [WriteError(e)] + ev == p + q;
    SendLoopPrefix(p, q, 0, len, 0);
    SendLoopShift(p, q, 0, len, Written(p, 0, len, 0));
  }

  // ---------------------------------------------------------------------------
  // at_read (the quiescence variant)
  // ---------------------------------------------------------------------------

  /** One `read(fd, &c, 1)` call: a byte, a return of 0, or an error; `at` is
      the clock reading the loop takes after it. */
  datatype ReadEvent = Byte(c: char, at: nat) | Idle(at: nat) | ReadError(err: Errno, at: nat)

  /** A read result that ends the loop with -1. */
  predicate Hard(e: ReadEvent) {
    e.ReadError? && !Transient(e.err)
  }

  /** Why a read loop ended. */
  datatype Stop = Full | Quiet | Marker | TimedOut | HardError

  /** The outcome of a read loop: why it ended, the bytes stored, and the
      number of read events consumed. */
  datatype Loop = Undecided | Ended(why: Stop, data: string, used: nat)

  /** The clock reads monotonically, from `t0` on. */
  predicate Monotone(ev: seq<ReadEvent>, t0: nat) {
    (forall i :: 0 <= i < |ev| ==> t0 <= ev[i].at) &&
    (forall i, j :: 0 <= i < j < |ev| ==> ev[i].at <= ev[j].at)
  }

  /** The trace reaches the deadline, so the loop ends inside it. */
  predicate Covers(ev: seq<ReadEvent>, deadline: nat) {
    exists i :: 0 <= i < |ev| && ev[i].at >= deadline
  }

  /** The bytes of a trace, in arrival order. */
  function Bytes(ev: seq<ReadEvent>): string {
    if ev == [] then []
    else Bytes(ev[..|ev| - 1]) + (if ev[|ev| - 1].Byte? then [ev[|ev| - 1].c] else [])
  }

  /** The time of the last byte of a trace (`last_rx`), `t0` before any. */
  function LastRx(ev: seq<ReadEvent>, t0: nat): nat {
    if ev == [] then t0
    else if ev[|ev| - 1].Byte? then ev[|ev| - 1].at
    else LastRx(ev[..|ev| - 1], t0)
  }

  /** What one turn of the loop does with a read event when the buffer has
      room: end the loop (why, with what stored), or go on with the new
      `last_rx` and contents. */
  datatype Turn = Halt(why: Stop, data: string) | Go(rx: nat, acc: string)

  function QuietTurn(e: ReadEvent, timeout: nat, t0: nat, lastRx: nat, acc: string): (t: Turn)
    ensures (t.Halt? && t.why == HardError) <==> Hard(e)
  {
    if Hard(e) then Halt(HardError, acc)
    else
      var acc' := if e.Byte? then acc + [e.c] else acc;
      var rx := if e.Byte? then e.at else lastRx;
      if HasMarker(CStr(acc')) && e.at - rx >= QUIET_MS then Halt(Quiet, acc')
      else if e.at - t0 >= timeout then Halt(TimedOut, acc')
      else Go(rx, acc')
  }

  /** The read loop of `at_read` from event `k` on, with `acc` stored, the
      last byte at `lastRx`, capacity `cap` (= max_len - 1). */
  function QuietLoop(ev: seq<ReadEvent>, k: nat, cap: nat, timeout: nat, t0: nat, lastRx: nat, acc: string): Loop
    requires k <= |ev|
    decreases |ev| - k
  {
    if |acc| >= cap then Ended(Full, acc, k)
    else if k == |ev| then Undecided
    else
      match QuietTurn(ev[k], timeout, t0, lastRx, acc)
      case Halt(why, data) => Ended(why, data, k + 1)
      case Go(rx, acc') => QuietLoop(ev, k + 1, cap, timeout, t0, rx, acc')
  }

  /** The whole of an `at_read(buf, maxLen, timeout)` call that passed its
      guard and started at `t0`. */
  function QuietRead(ev: seq<ReadEvent>, maxLen: nat, timeout: nat, t0: nat): Loop
    requires maxLen >= 1
  {
    QuietLoop(ev, 0, maxLen - 1, timeout, t0, t0, [])
  }

  /** The state the read loop carries after `k` events. */
  predicate QuietState(ev: seq<ReadEvent>, k: nat, cap: nat, timeout: nat, t0: nat, lastRx: nat, acc: string)
  {
    k <= |ev| && |acc| <= cap && acc == Bytes(ev[..k]) && lastRx == LastRx(ev[..k], t0) &&
    Continued(ev, k, timeout, t0)
  }

  /** None of the first `k` events was a hard error or past the deadline. */
  predicate Continued(ev: seq<ReadEvent>, k: nat, timeout: nat, t0: nat)
    requires k <= |ev|
  {
    forall j :: 0 <= j < k ==> !Hard(ev[j]) && ev[j].at < t0 + timeout
  }

  lemma BytesStep(ev: seq<ReadEvent>, k: nat)
    requires k < |ev|
    ensures Bytes(ev[..k + 1]) == Bytes(ev[..k]) + (if ev[k].Byte? then [ev[k].c] else [])
  {
    assert ev[..k + 1][..k] == ev[..k];
  }

  lemma LastRxStep(ev: seq<ReadEvent>, k: nat, t0: nat)
    requires k < |ev|
    ensures LastRx(ev[..k + 1], t0) == (if ev[k].Byte? then ev[k].at else LastRx(ev[..k], t0))
  {
    assert ev[..k + 1][..k] == ev[..k];
  }

  /** A decided read loop stored, within capacity, exactly the bytes of the
      events it consumed, in arrival order. */
  predicate StoredBytes(ev: seq<ReadEvent>, r: Loop, cap: nat)
  {
    r.Ended? && r.used <= |ev| && |r.data| <= cap && r.data == Bytes(ev[..r.used]) &&
    (r.why == Full ==> |r.data| == cap)
  }

  /** Every event before the one that ended the loop was neither a hard error
      nor past the deadline. */
  predicate PriorContinue(ev: seq<ReadEvent>, r: Loop, timeout: nat, t0: nat)
    requires r.Ended? && r.used <= |ev|
  {
    forall j :: 0 <= j < r.used && (r.why == Full || j < r.used - 1) ==> !Hard(ev[j]) && ev[j].at < t0 + timeout
  }

  /** The poll after event `j` finds a result code in the buffer and the
      line quiet for `QUIET_MS` since the last byte. */
  predicate QuietAt(ev: seq<ReadEvent>, j: nat, t0: nat)
    requires j < |ev|
  {
    HasMarker(CStr(Bytes(ev[..j + 1]))) && ev[j].at - LastRx(ev[..j + 1], t0) >= QUIET_MS
  }

  /** None of the polls after the first `n` events found the line quiet
      after a result code. */
  predicate NoQuietBefore(ev: seq<ReadEvent>, n: nat, t0: nat)
    requires n <= |ev|
  {
    forall j :: 0 <= j < n ==> !QuietAt(ev, j, t0)
  }

  /** No poll before the one that ended the loop found the line quiet after
      a result code: the loop stops at the first such poll. */
  predicate NoEarlierQuiet(ev: seq<ReadEvent>, r: Loop, t0: nat)
    requires r.Ended? && r.used <= |ev|
  {
    r.why == Full || r.used >= 1 ==> NoQuietBefore(ev, if r.why == Full then r.used else r.used - 1, t0)
  }

  /** The event that ended the loop is the cause its reason names. */
  predicate StopCause(ev: seq<ReadEvent>, r: Loop, timeout: nat, t0: nat)
    requires r.Ended? && r.used <= |ev|
  {
    (r.why == HardError ==> r.used >= 1 && Hard(ev[r.used - 1])) &&
    (r.why == TimedOut ==> r.used >= 1 && ev[r.used - 1].at >= t0 + timeout) &&
    (r.why == Quiet ==> r.used >= 1 && !ev[r.used - 1].Byte? && HasMarker(CStr(r.data)) &&
                        ev[r.used - 1].at >= LastRx(ev[..r.used], t0) + QUIET_MS) &&
    r.why != Marker
  }

  /** The loop takes a turn only while the buffer has room, so the bytes
      before the last event consumed did not fill it; and a loop that ended
      on an event (not on a full buffer) ended with a hard error exactly
      when that event was one. */
  predicate StopEdge(ev: seq<ReadEvent>, r: Loop, cap: nat)
    requires r.Ended? && r.used <= |ev|
  {
    (r.used >= 1 ==> |Bytes(ev[..r.used - 1])| < cap) &&
    (r.why != Full ==> r.used >= 1 && (Hard(ev[r.used - 1]) <==> r.why == HardError))
  }

  /** Everything a decided read loop promises. */
  predicate QuietEnding(ev: seq<ReadEvent>, r: Loop, cap: nat, timeout: nat, t0: nat)
  {
    StoredBytes(ev, r, cap) && PriorContinue(ev, r, timeout, t0) && NoEarlierQuiet(ev, r, t0) &&
    StopCause(ev, r, timeout, t0) && StopEdge(ev, r, cap)
  }

  lemma {:induction false} QuietLoopStores(ev: seq<ReadEvent>, k: nat, cap: nat, timeout: nat, t0: nat, lastRx: nat, acc: string)
    requires QuietState(ev, k, cap, timeout, t0, lastRx, acc)
    requires Covers(ev, t0 + timeout)
    ensures StoredBytes(ev, QuietLoop(ev, k, cap, timeout, t0, lastRx, acc), cap)
    decreases |ev| - k
  {
    if |acc| < cap && k < |ev| {
      var e := ev[k];
      BytesStep(ev, k);
      LastRxStep(ev, k, t0);
      var t := QuietTurn(e, timeout, t0, lastRx, acc);
      if t.Go? {
        QuietLoopStores(ev, k + 1, cap, timeout, t0, t.rx, t.acc);
      }
    }
  }

  lemma {:induction false} QuietLoopPrior(ev: seq<ReadEvent>, k: nat, cap: nat, timeout: nat, t0: nat, lastRx: nat, acc: string)
    requires k <= |ev| && Continued(ev, k, timeout, t0)
    requires QuietLoop(ev, k, cap, timeout, t0, lastRx, acc).Ended?
    requires QuietLoop(ev, k, cap, timeout, t0, lastRx, acc).used <= |ev|
    ensures PriorContinue(ev, QuietLoop(ev, k, cap, timeout, t0, lastRx, acc), timeout, t0)
    decreases |ev| - k
  {
    if |acc| < cap && k < |ev| {
      var e := ev[k];
      var t := QuietTurn(e, timeout, t0, lastRx, acc);
      if t.Go? {
        QuietLoopPrior(ev, k + 1, cap, timeout, t0, t.rx, t.acc);
      }
    }
  }

  /** A turn that lets the loop go on was not a quiet poll, and carries on
      with the bytes and the `last_rx` of the events so far. */
  lemma QuietTurnGo(ev: seq<ReadEvent>, k: nat, timeout: nat, t0: nat, lastRx: nat, acc: string)
    requires k < |ev| && acc == Bytes(ev[..k]) && lastRx == LastRx(ev[..k], t0)
    requires QuietTurn(ev[k], timeout, t0, lastRx, acc).Go?
    ensures var t := QuietTurn(ev[k], timeout, t0, lastRx, acc);
      t.acc == Bytes(ev[..k + 1]) && t.rx == LastRx(ev[..k + 1], t0) && !QuietAt(ev, k, t0)
  {
    BytesStep(ev, k);
    LastRxStep(ev, k, t0);
  }

  lemma NoQuietExtend(ev: seq<ReadEvent>, k: nat, t0: nat)
    requires k < |ev| && NoQuietBefore(ev, k, t0) && !QuietAt(ev, k, t0)
    ensures NoQuietBefore(ev, k + 1, t0)
  {
  }

  lemma {:induction false} QuietLoopFirstQuiet(ev: seq<ReadEvent>, k: nat, cap: nat, timeout: nat, t0: nat, lastRx: nat, acc: string)
    requires k <= |ev| && acc == Bytes(ev[..k]) && lastRx == LastRx(ev[..k], t0)
    requires NoQuietBefore(ev, k, t0)
    requires QuietLoop(ev, k, cap, timeout, t0, lastRx, acc).Ended?
    requires QuietLoop(ev, k, cap, timeout, t0, lastRx, acc).used <= |ev|
    ensures NoEarlierQuiet(ev, QuietLoop(ev, k, cap, timeout, t0, lastRx, acc), t0)
    decreases |ev| - k
  {
    if |acc| < cap && k < |ev| {
      var t := QuietTurn(ev[k], timeout, t0, lastRx, acc);
      if t.Go? {
        QuietTurnGo(ev, k, timeout, t0, lastRx, acc);
        NoQuietExtend(ev, k, t0);
        QuietLoopFirstQuiet(ev, k + 1, cap, timeout, t0, t.rx, t.acc);
      }
    }
  }

  lemma {:induction false} QuietLoopCause(ev: seq<ReadEvent>, k: nat, cap: nat, timeout: nat, t0: nat, lastRx: nat, acc: string)
    requires k <= |ev| && lastRx == LastRx(ev[..k], t0)
    requires QuietLoop(ev, k, cap, timeout, t0, lastRx, acc).Ended?
    requires QuietLoop(ev, k, cap, timeout, t0, lastRx, acc).used <= |ev|
    ensures StopCause(ev, QuietLoop(ev, k, cap, timeout, t0, lastRx, acc), timeout, t0)
    decreases |ev| - k
  {
    if |acc| < cap && k < |ev| {
      var e := ev[k];
      LastRxStep(ev, k, t0);
      var t := QuietTurn(e, timeout, t0, lastRx, acc);
      if t.Go? {
        QuietLoopCause(ev, k + 1, cap, timeout, t0, t.rx, t.acc);
      }
    }
  }

  lemma {:induction false} QuietLoopEdge(ev: seq<ReadEvent>, k: nat, cap: nat, timeout: nat, t0: nat, lastRx: nat, acc: string)
    requires k <= |ev| && acc == Bytes(ev[..k]) && (k >= 1 ==> |Bytes(ev[..k - 1])| < cap)
    requires QuietLoop(ev, k, cap, timeout, t0, lastRx, acc).Ended?
    requires QuietLoop(ev, k, cap, timeout, t0, lastRx, acc).used <= |ev|
    ensures StopEdge(ev, QuietLoop(ev, k, cap, timeout, t0, lastRx, acc), cap)
    decreases |ev| - k
  {
    if |acc| < cap && k < |ev| {
      var t := QuietTurn(ev[k], timeout, t0, lastRx, acc);
      if t.Go? {
        BytesStep(ev, k);
        QuietLoopEdge(ev, k + 1, cap, timeout, t0, t.rx, t.acc);
      }
    }
  }

  /** `at_read` on a trace that reaches the deadline: it ends, and its ending
      keeps every promise of `QuietEnding`. */
  lemma QuietReadEnds(ev: seq<ReadEvent>, maxLen: nat, timeout: nat, t0: nat)
    requires maxLen >= 1 && Covers(ev, t0 + timeout)
    ensures QuietEnding(ev, QuietRead(ev, maxLen, timeout, t0), maxLen - 1, timeout, t0)
  {
    assert ev[..0] == [];
    QuietLoopStores(ev, 0, maxLen - 1, timeout, t0, t0, []);
    QuietLoopPrior(ev, 0, maxLen - 1, timeout, t0, t0, []);
    QuietLoopFirstQuiet(ev, 0, maxLen - 1, timeout, t0, t0, []);
    QuietLoopCause(ev, 0, maxLen - 1, timeout, t0, t0, []);
    QuietLoopEdge(ev, 0, maxLen - 1, timeout, t0, t0, []);
  }

  lemma QuietReadDecided(ev: seq<ReadEvent>, maxLen: nat, timeout: nat, t0: nat)
    requires maxLen >= 1 && Covers(ev, t0 + timeout)
    ensures QuietRead(ev, maxLen, timeout, t0).Ended?
  {
    QuietReadEnds(ev, maxLen, timeout, t0);
  }

  /** A byte arriving never ends the loop by quiescence: a result code alone
      does not stop it, some later poll must find the line quiet. */
  lemma MarkerAloneDoesNotStop(ev: seq<ReadEvent>, maxLen: nat, timeout: nat, t0: nat)
    requires maxLen >= 1 && Covers(ev, t0 + timeout)
    ensures var r := QuietRead(ev, maxLen, timeout, t0);
      r.Ended? && (r.why == Quiet ==> 2 <= r.used <= |ev| && !ev[r.used - 1].Byte?)
  {
    QuietReadEnds(ev, maxLen, timeout, t0);
    if |ev| >= 1 && !ev[0].Byte? {
      assert ev[..1][..0] == [];
      assert Bytes(ev[..1]) == [];
      NothingInEmpty();
    }
  }

  lemma NothingInEmpty()
    ensures !HasMarker(CStr([]))
  {
    assert CStr([]) == [];
    assert |OK_MARK| > 0 && |ERROR_MARK| > 0;
  }

  /** What `at_read` returns. */
  function ReadResult(fd: int, bufPresent: bool, maxLen: nat, timeout: nat, t0: nat, ev: seq<ReadEvent>): int
    requires fd >= 0 && bufPresent && maxLen > 0 ==> Covers(ev, t0 + timeout)
  {
    if fd < 0 || !bufPresent || maxLen == 0 then -1
    else
      var r := QuietRead(ev, maxLen, timeout, t0);
      QuietReadDecided(ev, maxLen, timeout, t0);
      if r.why == HardError then -1 else |r.data|
  }

  /** The buffer update of one turn of the read loop: a byte is stored at
      `idx`, and the buffer is NUL-terminated after what it holds. */
  method Store(buf: array<char>, idx: nat, e: ReadEvent) returns (idx': nat)
    requires idx + 1 < buf.Length
    modifies buf
    ensures idx' == if e.Byte? then idx + 1 else idx
    ensures buf[..idx'] == old(buf[..idx]) + (if e.Byte? then [e.c] else [])
    ensures buf[idx'] == '\0'
    ensures forall i :: idx' < i < buf.Length ==> buf[i] == old(buf[i])
  {
    idx' := idx;
    if e.Byte? {
      buf[idx'] := e.c;
      idx' := idx' + 1;
    }
    buf[idx'] := '\0';
  }

  /** One turn of the read loop after a byte, a 0 return or a transient
      error: store the byte, NUL-terminate, and decide whether to stop. */
  method Poll(buf: array<char>, idx: nat, e: ReadEvent, timeout: nat, t0: nat, lastRx: nat, ghost acc: string)
    returns (idx': nat, lastRx': nat, halt: bool)
    requires !Hard(e) && idx + 1 < buf.Length && buf[..idx] == acc
    modifies buf
    ensures idx' == idx || idx' == idx + 1
    ensures var t := QuietTurn(e, timeout, t0, lastRx, acc);
      halt == t.Halt? &&
      (halt ==> t.why != HardError && t.data == buf[..idx']) &&
      (!halt ==> t.rx == lastRx' && t.acc == buf[..idx'])
    ensures buf[idx'] == '\0'
    ensures forall i :: idx' < i < buf.Length ==> buf[i] == old(buf[i])
  {
    idx' := Store(buf, idx, e);
    ghost var acc' := if e.Byte? then acc + [e.c] else acc;
    assert buf[..idx'] == acc';
    lastRx' := if e.Byte? then e.at else lastRx;
    var seen := HasMarker(CStr(buf[..idx']));
    halt := (seen && e.at - lastRx' >= QUIET_MS) || e.at - t0 >= timeout;
    assert seen == HasMarker(CStr(acc'));
  }

  /** `at_read`: fill `buf` from the port and NUL-terminate it. */
  method Read(fd: int, buf: array?<char>, maxLen: nat, timeout: nat, t0: nat, ev: seq<ReadEvent>) returns (n: int)
    requires buf != null ==> maxLen <= buf.Length
    requires Monotone(ev, t0) && Covers(ev, t0 + timeout)
    modifies buf
    ensures n == ReadResult(fd, buf != null, maxLen, timeout, t0, ev)
    ensures fd < 0 || buf == null || maxLen == 0 ==>
      n == -1 && (buf != null ==> buf[..] == old(buf[..]))
    ensures fd >= 0 && buf != null && maxLen > 0 ==>
      var r := QuietRead(ev, maxLen, timeout, t0);
      r.Ended? && |r.data| < maxLen &&
      buf[..|r.data|] == r.data &&
      buf[|r.data|] == (if r.why == HardError && r.used == 1 then old(buf[0]) else '\0') &&
      buf[|r.data| + 1..] == old(buf[|r.data| + 1..])
  {
    if fd < 0 || buf == null || maxLen == 0 {
      return -1;
    }
    QuietReadDecided(ev, maxLen, timeout, t0);
    ghost var whole := QuietRead(ev, maxLen, timeout, t0);
    var idx: nat := 0;
    var lastRx := t0;
    var k: nat := 0;
    ghost var acc: string := [];
    var stop, failed := false, false;
    while !stop
      invariant idx < maxLen && k <= |ev| && |acc| == idx
      invariant buf[..idx] == acc
      invariant !stop ==> QuietLoop(ev, k, maxLen - 1, timeout, t0, lastRx, acc) == whole
      invariant stop ==> whole.Ended? && whole.data == acc && whole.used == k && (whole.why == HardError <==> failed)
      invariant k > 0 && !failed ==> buf[idx] == '\0'
      invariant failed && k > 1 ==> buf[idx] == '\0'
      invariant failed ==> stop && idx < k
      invariant idx <= k
      invariant k == 0 ==> buf[0] == old(buf[0])
      invariant failed && k == 1 ==> buf[0] == old(buf[0])
      invariant forall i :: idx < i < buf.Length ==> buf[i] == old(buf[i])
      decreases |ev| - k, if stop then 0 else 1
    {
      if idx >= maxLen - 1 {
        stop := true;
      } else {
        if k == |ev| {
          assert false;
        }
        var e := ev[k];
        k := k + 1;
        if e.ReadError? && !Transient(e.err) {
          stop, failed := true, true;
        } else {
          idx, lastRx, stop := Poll(buf, idx, e, timeout, t0, lastRx, acc);
          acc := buf[..idx];
        }
      }
    }
    if failed {
      return -1;
    }
    buf[idx] := '\0';
    return idx;
  }

  // ---------------------------------------------------------------------------
  // at_send_wait
  // ---------------------------------------------------------------------------

  /** A transaction as the layer above sees it: failed (`at_send_wait` < 0),
      or the response text, i.e. what the C string functions see of the
      buffer. */
  datatype Reply = Failed | Replied(text: string)

  /** The transaction `at_send_wait(cmd, buf, maxLen, timeout)` performs on
      these traces. */
  function Exchange(fd: int, cmd: string, maxLen: nat, timeout: nat, t0: nat,
                    wev: seq<WriteEvent>, rev: seq<ReadEvent>): (r: Reply)
    requires fd >= 0 && maxLen > 0 ==> Covers(rev, t0 + timeout)
    ensures r.Replied? ==> SendResult(fd, |CStr(cmd)|, wev) == |CStr(cmd)|
    ensures r.Replied? ==> '\0' !in r.text
  {
    SendAllOrNothing(fd, |CStr(cmd)|, wev);
    if SendResult(fd, |CStr(cmd)|, wev) < 0 || maxLen == 0 then Failed
    else
      QuietReadDecided(rev, maxLen, timeout, t0);
      var d := QuietRead(rev, maxLen, timeout, t0);
      if d.why == HardError then Failed else Replied(CStr(d.data))
  }

  /** `at_send_wait`: send the command text up to its NUL, then read the
      response into `buf`; 0 on success, -1 when either step failed. */
  method SendWait(fd: int, cmd: string, buf: array?<char>, maxLen: nat, timeout: nat, t0: nat,
                  wev: seq<WriteEvent>, rev: seq<ReadEvent>) returns (r: int)
    requires fd < 0 || SendLoop(wev, 0, |CStr(cmd)|, 0) != SendUndecided
    requires buf != null && maxLen <= buf.Length
    requires Monotone(rev, t0) && Covers(rev, t0 + timeout)
    modifies buf
    ensures r == 0 || r == -1
    ensures r == -1 <==> Exchange(fd, cmd, maxLen, timeout, t0, wev, rev).Failed?
    ensures SendResult(fd, |CStr(cmd)|, wev) < 0 ==> buf[..] == old(buf[..])
    ensures r == 0 ==> CStr(buf[..]) == Exchange(fd, cmd, maxLen, timeout, t0, wev, rev).text
  {
    var written := Send(fd, |CStr(cmd)|, wev);
    if written < 0 {
      return -1;
    }
    var num := Read(fd, buf, maxLen, timeout, t0, rev);
    if num < 0 {
      return -1;
    }
    ghost var d := QuietRead(rev, maxLen, timeout, t0).data;
    assert buf[..] == d + ['\0'] + buf[|d| + 1..];
    CStrTerminated(d, buf[|d| + 1..]);
    return 0;
  }
}
