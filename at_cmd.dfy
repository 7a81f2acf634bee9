/** The older AT driver of `src/sim/at_cmd.c`. Its write loop is the one of
    `src/sim/at.c` (modelled once, as `At.Send`); its read loop stops as soon
    as a stored byte completes a verbose result code, with no quiet period,
    and its `at_send_wait` reads into a buffer of its own and returns the
    number of bytes read. */
module AtCmd {
  import opened Text
  import opened At

  /** Size of the local response buffer of this driver's `at_send_wait`. */
  const RESP_FRAME_CMD: nat := 128

  /** What one turn of this read loop does with a read event when the buffer
      has room. */
  datatype Step = Ends(why: Stop, data: string) | More(acc: string)

  function MarkerTurn(e: ReadEvent, timeout: nat, t0: nat, acc: string): (t: Step)
    ensures (t.Ends? && t.why == HardError) <==> Hard(e)
  {
    if Hard(e) then Ends(HardError, acc)
    else
      var acc' := if e.Byte? then acc + [e.c] else acc;
      if e.Byte? && |acc'| >= 4 && HasMarker(CStr(acc')) then Ends(Marker, acc')
      else if e.at - t0 >= timeout then Ends(TimedOut, acc')
      else More(acc')
  }

  /** The read loop of `at_read` from event `k` on, with `acc` stored and
      capacity `cap` (= max_len - 1). */
  function MarkerLoop(ev: seq<ReadEvent>, k: nat, cap: nat, timeout: nat, t0: nat, acc: string): Loop
    requires k <= |ev|
    decreases |ev| - k
  {
    if |acc| >= cap then Ended(Full, acc, k)
    else if k == |ev| then Undecided
    else
      match MarkerTurn(ev[k], timeout, t0, acc)
      case Ends(why, data) => Ended(why, data, k + 1)
      case More(acc') => MarkerLoop(ev, k + 1, cap, timeout, t0, acc')
  }

  function MarkerRead(ev: seq<ReadEvent>, maxLen: nat, timeout: nat, t0: nat): Loop
    requires maxLen >= 1
  {
    MarkerLoop(ev, 0, maxLen - 1, timeout, t0, [])
  }

  /** No prefix of `s` of four or more bytes that is shorter than `upTo`
      holds a result code. */
  predicate NoEarlierMarker(s: string, upTo: nat)
  {
    forall m :: 4 <= m < upTo && m <= |s| ==> !HasMarker(CStr(s[..m]))
  }

  /** The stopping rule of this loop: a hard error, a completed result code
      or the deadline, each at the event that ends the loop, and never a quiet
      period. */
  predicate MarkerCause(ev: seq<ReadEvent>, r: Loop, timeout: nat, t0: nat)
    requires r.Ended? && r.used <= |ev|
  {
    MarkerStop(ev, r, timeout, t0) &&
    NoEarlierMarker(r.data, if r.why == Marker then |r.data| else |r.data| + 1)
  }

  predicate MarkerStop(ev: seq<ReadEvent>, r: Loop, timeout: nat, t0: nat)
    requires r.Ended? && r.used <= |ev|
  {
    (r.why == HardError ==> r.used >= 1 && Hard(ev[r.used - 1])) &&
    (r.why == TimedOut ==> r.used >= 1 && ev[r.used - 1].at >= t0 + timeout) &&
    (r.why == Marker ==> r.used >= 1 && ev[r.used - 1].Byte? && |r.data| >= 4 && HasMarker(CStr(r.data))) &&
    r.why != Quiet
  }

  predicate MarkerState(ev: seq<ReadEvent>, k: nat, cap: nat, timeout: nat, t0: nat, acc: string)
  {
    k <= |ev| && |acc| <= cap && acc == Bytes(ev[..k]) && Continued(ev, k, timeout, t0)
  }

  lemma {:induction false} MarkerLoopStores(ev: seq<ReadEvent>, k: nat, cap: nat, timeout: nat, t0: nat, acc: string)
    requires MarkerState(ev, k, cap, timeout, t0, acc)
    requires Covers(ev, t0 + timeout)
    ensures StoredBytes(ev, MarkerLoop(ev, k, cap, timeout, t0, acc), cap)
    decreases |ev| - k
  {
    if |acc| < cap && k < |ev| {
      BytesStep(ev, k);
      var t := MarkerTurn(ev[k], timeout, t0, acc);
      if t.More? {
        MarkerLoopStores(ev, k + 1, cap, timeout, t0, t.acc);
      }
    }
  }

  lemma {:induction false} MarkerLoopPrior(ev: seq<ReadEvent>, k: nat, cap: nat, timeout: nat, t0: nat, acc: string)
    requires k <= |ev| && Continued(ev, k, timeout, t0)
    requires MarkerLoop(ev, k, cap, timeout, t0, acc).Ended?
    requires MarkerLoop(ev, k, cap, timeout, t0, acc).used <= |ev|
    ensures PriorContinue(ev, MarkerLoop(ev, k, cap, timeout, t0, acc), timeout, t0)
    decreases |ev| - k
  {
    if |acc| < cap && k < |ev| {
      var t := MarkerTurn(ev[k], timeout, t0, acc);
      if t.More? {
        MarkerLoopPrior(ev, k + 1, cap, timeout, t0, t.acc);
      }
    }
  }

  lemma {:induction false} MarkerLoopCause(ev: seq<ReadEvent>, k: nat, cap: nat, timeout: nat, t0: nat, acc: string)
    requires k <= |ev|
    requires MarkerLoop(ev, k, cap, timeout, t0, acc).Ended?
    requires MarkerLoop(ev, k, cap, timeout, t0, acc).used <= |ev|
    ensures MarkerStop(ev, MarkerLoop(ev, k, cap, timeout, t0, acc), timeout, t0)
    decreases |ev| - k
  {
    if |acc| < cap && k < |ev| {
      var t := MarkerTurn(ev[k], timeout, t0, acc);
      if t.More? {
        MarkerLoopCause(ev, k + 1, cap, timeout, t0, t.acc);
      }
    }
  }

  lemma {:induction false} MarkerLoopEdge(ev: seq<ReadEvent>, k: nat, cap: nat, timeout: nat, t0: nat, acc: string)
    requires k <= |ev| && acc == Bytes(ev[..k]) && (k >= 1 ==> |Bytes(ev[..k - 1])| < cap)
    requires MarkerLoop(ev, k, cap, timeout, t0, acc).Ended?
    requires MarkerLoop(ev, k, cap, timeout, t0, acc).used <= |ev|
    ensures StopEdge(ev, MarkerLoop(ev, k, cap, timeout, t0, acc), cap)
    decreases |ev| - k
  {
    if |acc| < cap && k < |ev| {
      var t := MarkerTurn(ev[k], timeout, t0, acc);
      if t.More? {
        BytesStep(ev, k);
        MarkerLoopEdge(ev, k + 1, cap, timeout, t0, t.acc);
      }
    }
  }

  /** Appending a byte to a text with no result code in any prefix of four
      or more bytes leaves every prefix shorter than the new text free of
      one, and the new text too unless it completes a result code. */
  lemma NoEarlierExtend(acc: string, c: char)
    requires NoEarlierMarker(acc, |acc| + 1)
    ensures NoEarlierMarker(acc + [c], |acc| + 1)
    ensures !(|acc| + 1 >= 4 && HasMarker(CStr(acc + [c]))) ==> NoEarlierMarker(acc + [c], |acc| + 2)
  {
    NoEarlierKept(acc, c);
    NoEarlierLast(acc + [c], |acc| + 1);
  }

  /** Extending the range by one prefix adds the whole text to it. */
  lemma NoEarlierLast(s: string, n: nat)
    requires n == |s| && NoEarlierMarker(s, n)
    ensures !(n >= 4 && HasMarker(CStr(s))) ==> NoEarlierMarker(s, n + 1)
  {
    assert s[..n] == s;
  }

  lemma NoEarlierKept(acc: string, c: char)
    requires NoEarlierMarker(acc, |acc| + 1)
    ensures NoEarlierMarker(acc + [c], |acc| + 1)
  {
    forall m | 4 <= m < |acc| + 1 && m <= |acc + [c]|
      ensures !HasMarker(CStr((acc + [c])[..m]))
    {
      PrefixOfAppend(acc, c, m);
    }
  }

  lemma PrefixOfAppend(acc: string, c: char, m: nat)
    requires m <= |acc|
    ensures (acc + [c])[..m] == acc[..m]
  {
  }

  lemma {:induction false} MarkerLoopFirst(ev: seq<ReadEvent>, k: nat, cap: nat, timeout: nat, t0: nat, acc: string)
    requires k <= |ev| && NoEarlierMarker(acc, |acc| + 1)
    requires MarkerLoop(ev, k, cap, timeout, t0, acc).Ended?
    ensures var r := MarkerLoop(ev, k, cap, timeout, t0, acc);
      NoEarlierMarker(r.data, if r.why == Marker then |r.data| else |r.data| + 1)
    decreases |ev| - k
  {
    if |acc| < cap && k < |ev| {
      var e := ev[k];
      if e.Byte? && !Hard(e) {
        NoEarlierExtend(acc, e.c);
      }
      var t := MarkerTurn(e, timeout, t0, acc);
      if t.More? {
        MarkerLoopFirst(ev, k + 1, cap, timeout, t0, t.acc);
      }
    }
  }

  /** This driver's `at_read` on a trace that reaches the deadline: it ends,
      having stored the bytes received in order within capacity, and stops
      at the first byte that completes a result code. */
  lemma MarkerReadEnds(ev: seq<ReadEvent>, maxLen: nat, timeout: nat, t0: nat)
    requires maxLen >= 1 && Covers(ev, t0 + timeout)
    ensures var r := MarkerRead(ev, maxLen, timeout, t0);
      StoredBytes(ev, r, maxLen - 1) && PriorContinue(ev, r, timeout, t0) && MarkerCause(ev, r, timeout, t0) &&
      StopEdge(ev, r, maxLen - 1)
  {
    assert ev[..0] == [];
    MarkerLoopStores(ev, 0, maxLen - 1, timeout, t0, []);
    MarkerLoopPrior(ev, 0, maxLen - 1, timeout, t0, []);
    MarkerLoopCause(ev, 0, maxLen - 1, timeout, t0, []);
    MarkerLoopFirst(ev, 0, maxLen - 1, timeout, t0, []);
    MarkerLoopEdge(ev, 0, maxLen - 1, timeout, t0, []);
  }

  lemma MarkerReadDecided(ev: seq<ReadEvent>, maxLen: nat, timeout: nat, t0: nat)
    requires maxLen >= 1 && Covers(ev, t0 + timeout)
    ensures MarkerRead(ev, maxLen, timeout, t0).Ended?
    ensures |MarkerRead(ev, maxLen, timeout, t0).data| < maxLen
  {
    MarkerReadEnds(ev, maxLen, timeout, t0);
  }

  /** This driver's `at_read`. There is no guard on the buffer or its size,
      so the caller must pass a real buffer of at least one byte; the marker
      search reads the buffer up to its first NUL, so the caller passes it
      zero-filled, as this driver's `at_send_wait` does. */
  method Read(fd: int, buf: array<char>, maxLen: nat, timeout: nat, t0: nat, ev: seq<ReadEvent>) returns (n: int)
    requires 1 <= maxLen <= buf.Length
    requires forall i :: 0 <= i < maxLen ==> buf[i] == '\0'
    requires Monotone(ev, t0) && Covers(ev, t0 + timeout)
    modifies buf
    ensures fd < 0 ==> n == -1 && buf[..] == old(buf[..])
    ensures fd >= 0 ==>
      var r := MarkerRead(ev, maxLen, timeout, t0);
      r.Ended? && |r.data| < maxLen &&
      n == (if r.why == HardError then -1 else |r.data|) &&
      buf[..|r.data|] == r.data &&
      forall i :: |r.data| <= i < buf.Length ==> buf[i] == old(buf[i])
  {
    if fd < 0 {
      return -1;
    }
    MarkerReadDecided(ev, maxLen, timeout, t0);
    ghost var whole := MarkerRead(ev, maxLen, timeout, t0);
    var idx: nat := 0;
    var k: nat := 0;
    ghost var acc: string := [];
    var stop, failed := false, false;
    while !stop
      invariant idx < maxLen && k <= |ev| && |acc| == idx
      invariant buf[..idx] == acc
      invariant !stop ==> MarkerLoop(ev, k, maxLen - 1, timeout, t0, acc) == whole
      invariant stop ==> whole.Ended? && whole.data == acc && whole.used == k && (whole.why == HardError <==> failed)
      invariant failed ==> stop
      invariant forall i :: idx <= i < buf.Length ==> buf[i] == old(buf[i])
      decreases |ev| - k, if stop then 0 else 1
    {
      if idx >= maxLen - 1 {
        stop := true;
      } else {
        if k == |ev| {
          assert false;
        }
        var e := ev[k];
        k := k + 1;
        if e.ReadError? && !Transient(e.err) {
          stop, failed := true, true;
        } else {
          idx, stop := Take(buf, idx, maxLen, e, timeout, t0, acc);
          acc := buf[..idx];
        }
      }
    }
    if failed {
      return -1;
    }
    buf[idx] := '\0';
    return idx;
  }

  /** One turn of this read loop after a byte, a 0 return or a transient
      error: store the byte, look for a result code once four bytes are in,
      and check the deadline. */
  method Take(buf: array<char>, idx: nat, maxLen: nat, e: ReadEvent, timeout: nat, t0: nat, ghost acc: string)
    returns (idx': nat, halt: bool)
    requires !Hard(e) && idx + 1 < maxLen <= buf.Length && buf[..idx] == acc
    requires forall i :: idx <= i < maxLen ==> buf[i] == '\0'
    modifies buf
    ensures idx' == idx || idx' == idx + 1
    ensures var t := MarkerTurn(e, timeout, t0, acc);
      halt == t.Ends? &&
      (halt ==> t.why != HardError && t.data == buf[..idx']) &&
      (!halt ==> t.acc == buf[..idx'])
    ensures forall i :: idx' <= i < buf.Length ==> buf[i] == old(buf[i])
  {
    idx' := idx;
    halt := false;
    if e.Byte? {
      buf[idx'] := e.c;
      idx' := idx' + 1;
      assert buf[..idx'] == acc + [e.c];
      if idx' >= 4 {
        assert buf[..maxLen] == buf[..idx'] + buf[idx'..maxLen];
        assert buf[idx'] == '\0';
        var seen := HasMarker(CStr(buf[..idx']));
        halt := seen;
      }
    }
    if !halt && e.at - t0 >= timeout {
      halt := true;
    }
  }

  /** What this driver's `at_send_wait` returns. */
  function SendWaitResult(fd: int, cmd: string, timeout: nat, t0: nat,
                          wev: seq<WriteEvent>, rev: seq<ReadEvent>): (r: int)
    requires Covers(rev, t0 + timeout)
    ensures -1 <= r < RESP_FRAME_CMD
    ensures r >= 0 ==> (SendResult(fd, |CStr(cmd)|, wev) == |CStr(cmd)| &&
      MarkerRead(rev, RESP_FRAME_CMD, timeout, t0).Ended? &&
      r == |MarkerRead(rev, RESP_FRAME_CMD, timeout, t0).data|)
    ensures var d := MarkerRead(rev, RESP_FRAME_CMD, timeout, t0);
      r == -1 <==> (SendResult(fd, |CStr(cmd)|, wev) < 0 || (d.Ended? && d.why == HardError))
    ensures var d := MarkerRead(rev, RESP_FRAME_CMD, timeout, t0);
      (SendResult(fd, |CStr(cmd)|, wev) >= 0 && d.Ended? && d.why != HardError) ==> r == |d.data|
  {
    SendAllOrNothing(fd, |CStr(cmd)|, wev);
    MarkerReadDecided(rev, RESP_FRAME_CMD, timeout, t0);
    if SendResult(fd, |CStr(cmd)|, wev) < 0 then -1
    else
      var d := MarkerRead(rev, RESP_FRAME_CMD, timeout, t0);
      if d.why == HardError then -1 else |d.data|
  }

  /** This driver's `at_send_wait`: send the command up to its NUL, read the
      response into a fresh zero-filled buffer of `RESP_FRAME_CMD` bytes, and
      return the number of bytes read, or -1 when either step failed. */
  method SendWait(fd: int, cmd: string, timeout: nat, t0: nat,
                  wev: seq<WriteEvent>, rev: seq<ReadEvent>) returns (num: int)
    requires fd < 0 || SendLoop(wev, 0, |CStr(cmd)|, 0) != SendUndecided
    requires Monotone(rev, t0) && Covers(rev, t0 + timeout)
    ensures num == SendWaitResult(fd, cmd, timeout, t0, wev, rev)
  {
    var resp := new char[RESP_FRAME_CMD](_ => '\0');
    var written := Send(fd, |CStr(cmd)|, wev);
    if written < 0 {
      return -1;
    }
    num := Read(fd, resp, RESP_FRAME_CMD, timeout, t0, rev);
    if num < 0 {
      return -1;
    }
  }
}
