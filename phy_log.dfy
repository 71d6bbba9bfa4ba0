// The HDMI PHY driver's event log: a fixed-size circular queue of 16-bit
// event words and their timestamps, with 8-bit head and tail indices, that
// drops its oldest entry when a write finds it full.
module PhyLog {
  import opened Word

  /** Entries of `DataBuffer` and `TimeRecord`; a `u8` index reaches them all. */
  const LOG_SIZE: nat := 256

  /** `XHDMIPHY1_LOG_EVT_DUMMY`, the enumerant after the 55 events
      `XHDMIPHY1_LOG_EVT_NONE` (0) .. `XHDMIPHY1_LOG_EVT_SPDGRDE_ERR`. */
  const LOG_EVT_DUMMY: bv8 := 55

  /** Length of the banner `XHdmiphy1_LogShow` prints before the events. */
  const HEADER_LENGTH: nat := 25

  /** The index after `i`, back to 0 past the last entry. */
  function Next(i: nat): (j: nat)
    requires i < LOG_SIZE
    ensures j < LOG_SIZE
  {
    if i == LOG_SIZE - 1 then 0 else i + 1
  }

  /** The position `k` entries after `tail`, around the ring. */
  function Pos(tail: nat, k: nat): (p: nat)
    requires tail < LOG_SIZE && k < LOG_SIZE
    ensures p < LOG_SIZE
  {
    if tail + k < LOG_SIZE then tail + k else tail + k - LOG_SIZE
  }

  /** How many entries lie from `tail` up to, not including, `head`. */
  function Count(head: nat, tail: nat): (n: nat)
    requires head < LOG_SIZE && tail < LOG_SIZE
    ensures n < LOG_SIZE && Pos(tail, n) == head
  {
    if head >= tail then head - tail else head + LOG_SIZE - tail
  }

  /** The `count` entries of `buf` from `tail` on, oldest first. */
  function Ring<T>(buf: seq<T>, tail: nat, count: nat): (r: seq<T>)
    requires |buf| == LOG_SIZE && tail < LOG_SIZE && count < LOG_SIZE
    ensures |r| == count
  {
    seq(count, k requires 0 <= k < count => buf[Pos(tail, k)])
  }

  /** A queue of at most `LOG_SIZE - 1` entries after a write of `x`: `x`
      is appended, and the oldest entry goes when the queue was full. */
  function Pushed<T>(c: seq<T>, x: T): (r: seq<T>)
  {
    if |c| >= LOG_SIZE - 1 then c[1..] + [x] else c + [x]
  }

  /** The word `XHdmiphy1_LogWrite` stores: the data byte above the event. */
  function Entry(evt: bv8, data: bv8): bv16
    requires evt <= LOG_EVT_DUMMY
  {
    ((data as bv16) << 8) | (evt as bv16)
  }

  /** `XHdmiphy1_LogShow` takes a word apart into the event and the data
      byte that were written. */
  lemma EntryFields(evt: bv8, data: bv8)
    requires evt <= LOG_EVT_DUMMY
    ensures (Entry(evt, data) & 0xff) as bv8 == evt
    ensures ((Entry(evt, data) >> 8) & 0xff) as bv8 == data
  {
  }

  /** A `XHDMIPHY1_LOG_EVT_NONE` event with data 0 is stored as 0, which a
      read of an empty log also returns; every other event is non-zero. */
  lemma EntryZero(evt: bv8, data: bv8)
    requires evt <= LOG_EVT_DUMMY
    ensures Entry(evt, data) == 0 <==> evt == 0 && data == 0
  {
    EntryFields(evt, data);
  }

  /** The write step on a ring: storing `x` at `head` and advancing the
      indices as `XHdmiphy1_LogWrite` does pushes `x` onto the queue. */
  lemma RingWrite<T>(buf: seq<T>, head: nat, tail: nat, x: T)
    requires |buf| == LOG_SIZE && head < LOG_SIZE && tail < LOG_SIZE
    ensures var head' := Next(head);
      var tail' := if head' == tail then Next(tail) else tail;
      Ring(buf[head := x], tail', Count(head', tail')) == Pushed(Ring(buf, tail, Count(head, tail)), x)
  {
    var c := Count(head, tail);
    var head' := Next(head);
    var old' := Ring(buf, tail, c);
    if head' != tail {
      var r := Ring(buf[head := x], tail, Count(head', tail));
      assert Count(head', tail) == c + 1;
      forall k | 0 <= k < c + 1
        ensures r[k] == (old' + [x])[k]
      {
        if k < c {
          assert Pos(tail, k) != head;
        }
      }
      assert r == old' + [x];
    } else {
      var tail' := Next(tail);
      var r := Ring(buf[head := x], tail', Count(head', tail'));
      assert c == LOG_SIZE - 1;
      assert Count(head', tail') == c;
      forall k | 0 <= k < c
        ensures r[k] == (old'[1..] + [x])[k]
      {
        assert Pos(tail', k) == Pos(tail, k + 1);
        if k < c - 1 {
          assert Pos(tail, k + 1) != head;
        }
      }
      assert r == old'[1..] + [x];
    }
  }

  /** The read step on a ring: advancing `tail` past a non-empty queue's
      oldest entry leaves the rest. */
  lemma RingRead<T>(buf: seq<T>, head: nat, tail: nat)
    requires |buf| == LOG_SIZE && head < LOG_SIZE && tail < LOG_SIZE && head != tail
    ensures var c := Ring(buf, tail, Count(head, tail));
      c != [] && c[0] == buf[tail] && Ring(buf, Next(tail), Count(head, Next(tail))) == c[1..]
  {
    var c := Ring(buf, tail, Count(head, tail));
    var r := Ring(buf, Next(tail), Count(head, Next(tail)));
    assert Count(head, Next(tail)) == Count(head, tail) - 1;
    forall k | 0 <= k < |r|
      ensures r[k] == c[1..][k]
    {
      assert Pos(Next(tail), k) == Pos(tail, k + 1);
    }
  }

  /** `XHdmiphy1_Log`: the event words, their timestamps and the two indices. */
  class Log {
    const dataBuffer: array<bv16>
    const timeRecord: array<U64>
    var headIndex: nat
    var tailIndex: nat

    predicate Valid()
      reads this
    {
      dataBuffer.Length == LOG_SIZE && timeRecord.Length == LOG_SIZE &&
      dataBuffer as object != timeRecord &&
      headIndex < LOG_SIZE && tailIndex < LOG_SIZE
    }

    /** The queued event words, oldest first. */
    function Contents(): (c: seq<bv16>)
      requires Valid()
      reads this, dataBuffer
      ensures |c| < LOG_SIZE
    {
      Ring(dataBuffer[..], tailIndex, Count(headIndex, tailIndex))
    }

    /** The timestamps of the queued events, oldest first. */
    function Times(): (t: seq<U64>)
      requires Valid()
      reads this, timeRecord
      ensures |t| == |Contents()|
    {
      Ring(timeRecord[..], tailIndex, Count(headIndex, tailIndex))
    }

    /** A log with zeroed storage, as in a freshly allocated instance. */
    constructor ()
      ensures Valid() && Contents() == [] && fresh(dataBuffer) && fresh(timeRecord)
    {
      dataBuffer := new bv16[LOG_SIZE](_ => 0);
      timeRecord := new U64[LOG_SIZE](_ => 0);
      headIndex := 0;
      tailIndex := 0;
    }

    /** `XHdmiphy1_LogReset`: empties the log; the storage is kept. */
    method Reset()
      requires Valid()
      modifies this
      ensures Valid() && headIndex == 0 && tailIndex == 0 && Contents() == []
    {
      headIndex := 0;
      tailIndex := 0;
    }

    /** `XHdmiphy1_LogWrite`, with the timestamp the write callback would
        supply: the word `Entry(evt, data)` and `time` join the queue, which
        drops its oldest entry when full. */
    method Write(evt: bv8, data: bv8, time: U64)
      requires Valid() && evt <= LOG_EVT_DUMMY && data < 0xff
      modifies this, dataBuffer, timeRecord
      ensures Valid()
      ensures Contents() == Pushed(old(Contents()), Entry(evt, data))
      ensures Times() == Pushed(old(Times()), time)
    {
      var w := Entry(evt, data);
      RingWrite(dataBuffer[..], headIndex, tailIndex, w);
      RingWrite(timeRecord[..], headIndex, tailIndex, time);
      ghost var data0 := dataBuffer[..];
      dataBuffer[headIndex] := w;
      assert dataBuffer[..] == data0[headIndex := w];
      timeRecord[headIndex] := time;
      assert dataBuffer[..] == data0[headIndex := w];
      if headIndex == LOG_SIZE - 1 {
        headIndex := 0;
      } else {
        headIndex := headIndex + 1;
      }
      if tailIndex == headIndex {
        if tailIndex == LOG_SIZE - 1 {
          tailIndex := 0;
        } else {
          tailIndex := tailIndex + 1;
        }
      }
    }

    /** `XHdmiphy1_LogRead`: 0 from an empty log, which stays as it was;
        otherwise the oldest word, which leaves the queue. */
    method Read() returns (log: bv16)
      requires Valid()
      modifies this
      ensures Valid() && headIndex == old(headIndex)
      ensures old(Contents()) == [] ==> log == 0 && tailIndex == old(tailIndex)
      ensures old(Contents()) != [] ==> log == old(Contents())[0] && Contents() == old(Contents())[1..]
      ensures Times() == old(Times())[|old(Contents())| - |Contents()|..]
    {
      if tailIndex == headIndex {
        log := 0;
      } else {
        RingRead(dataBuffer[..], headIndex, tailIndex);
        RingRead(timeRecord[..], headIndex, tailIndex);
        log := dataBuffer[tailIndex];
        if tailIndex == LOG_SIZE - 1 {
          tailIndex := 0;
        } else {
          tailIndex := tailIndex + 1;
        }
      }
    }

    /** The drain loop of `XHdmiphy1_LogShow` on a buffer of `buffSize`
        bytes, where `lineLength(w)` is the length of the line printed for
        word `w`: events are read and printed until a read gives 0 or no
        more than 30 bytes are left. */
    method Show(buffSize: int, lineLength: bv16 -> nat) returns (strSize: int)
      requires Valid() && buffSize >= 0
      modifies this
      ensures Valid() && headIndex == old(headIndex)
      ensures var (size, consumed) := Shown(old(Contents()), buffSize, lineLength);
        strSize == size && Contents() == old(Contents())[consumed..]
      ensures Times() == old(Times())[|old(Contents())| - |Contents()|..]
    {
      ghost var c0, t0 := Contents(), Times();
      strSize := Printed(HEADER_LENGTH, buffSize);
      var log := Read();
      ghost var c1 := Contents();
      strSize := ShowFrom(log, buffSize, strSize, lineLength);
      DropTwice(t0, |c0| - |c1|, |c1| - |Contents()|);
    }

    /** The loop of `XHdmiphy1_LogShow` from the word `log0` just read,
        with `strSize0` bytes already printed. */
    method ShowFrom(log0: bv16, buffSize: int, strSize0: int, lineLength: bv16 -> nat) returns (strSize: int)
      requires Valid()
      modifies this
      ensures Valid() && headIndex == old(headIndex)
      ensures var (size, consumed) := ShowLoop(log0, old(Contents()), buffSize, strSize0, lineLength);
        strSize == size && Contents() == old(Contents())[consumed..]
      ensures Times() == old(Times())[|old(Contents())| - |Contents()|..]
    {
      ghost var c0, t0 := Contents(), Times();
      ghost var total := ShowLoop(log0, c0, buffSize, strSize0, lineLength);
      ghost var consumed: nat := 0;
      var log := log0;
      strSize := strSize0;
      while log != 0 && buffSize - strSize > 30
        invariant headIndex == old(headIndex)
        invariant InDrain(log, strSize, c0, consumed, total, buffSize, lineLength)
        invariant Times() == t0[consumed..]
        decreases |c0| - consumed, log != 0
      {
        ghost var before := consumed;
        log, strSize, consumed := ShowTurn(log, buffSize, strSize, lineLength, c0, consumed, total);
        DropTwice(t0, before, consumed - before);
      }
      ShowLoopStop(log, Contents(), buffSize, strSize, lineLength);
    }

    /** The log is valid and its queue is in the drain state `Draining`. */
    ghost predicate InDrain(log: bv16, strSize: int, c0: seq<bv16>, consumed: nat, total: (int, nat),
                            buffSize: int, lineLength: bv16 -> nat)
      reads this, dataBuffer
    {
      Valid() && Draining(log, strSize, Contents(), c0, consumed, total, buffSize, lineLength)
    }

    /** `ShowStep` keeps the drain state and makes progress. */
    method ShowTurn(log: bv16, buffSize: int, strSize: int, lineLength: bv16 -> nat,
                    ghost c0: seq<bv16>, ghost consumed: nat, ghost total: (int, nat))
      returns (next: bv16, size: int, ghost consumed': nat)
      requires log != 0 && buffSize - strSize > 30
      requires InDrain(log, strSize, c0, consumed, total, buffSize, lineLength)
      modifies this
      ensures headIndex == old(headIndex)
      ensures InDrain(next, size, c0, consumed', total, buffSize, lineLength)
      ensures consumed <= consumed' && (consumed' == consumed ==> next == 0)
      ensures Times() == old(Times())[consumed' - consumed..]
    {
      ghost var before := Contents();
      next, size := ShowStep(log, buffSize, strSize, lineLength);
      DrainingStep(log, strSize, before, next, size, Contents(), c0, consumed, total, buffSize, lineLength);
      consumed' := consumed + |before| - |Contents()|;
    }

    /** One turn of the drain loop: print the line for `log`, then read the
        next word if more than 30 bytes are left, or stop. */
    method ShowStep(log: bv16, buffSize: int, strSize: int, lineLength: bv16 -> nat) returns (next: bv16, size: int)
      requires Valid()
      modifies this
      ensures Valid() && headIndex == old(headIndex)
      ensures size == strSize + Printed(lineLength(log), buffSize - strSize)
      ensures if buffSize - size > 30 && old(Contents()) != []
        then next == old(Contents())[0] && Contents() == old(Contents())[1..]
        else next == 0 && Contents() == old(Contents())
      ensures Times() == old(Times())[|old(Contents())| - |Contents()|..]
    {
      size := strSize + Printed(lineLength(log), buffSize - strSize);
      if buffSize - size > 30 {
        next := Read();
      } else {
        next := 0;
      }
    }
  }

  /** The state of the drain loop with `c` still queued: `consumed` words of
      `c0` have been read, and the drain from word `log` ends where the whole
      drain, `total`, does. */
  ghost predicate Draining(log: bv16, strSize: int, c: seq<bv16>, c0: seq<bv16>, consumed: nat, total: (int, nat),
                           buffSize: int, lineLength: bv16 -> nat)
  {
    consumed <= |c0| && consumed <= total.1 && c == c0[consumed..] &&
    ShowLoop(log, c, buffSize, strSize, lineLength) == (total.0, total.1 - consumed)
  }

  /** A turn of the drain loop, from queue `c` to queue `c'`, keeps the
      loop's state; it ends the drain unless it reads a word. */
  lemma DrainingStep(log: bv16, strSize: int, c: seq<bv16>, next: bv16, size: int, c': seq<bv16>,
                     c0: seq<bv16>, consumed: nat, total: (int, nat), buffSize: int, lineLength: bv16 -> nat)
    requires log != 0 && buffSize - strSize > 30
    requires Draining(log, strSize, c, c0, consumed, total, buffSize, lineLength)
    requires size == strSize + Printed(lineLength(log), buffSize - strSize)
    requires if buffSize - size > 30 && c != [] then next == c[0] && c' == c[1..] else next == 0 && c' == c
    ensures |c'| <= |c| && (|c'| == |c| ==> next == 0)
    ensures Draining(next, size, c', c0, consumed + |c| - |c'|, total, buffSize, lineLength)
  {
    ShowLoopStep(log, c, buffSize, strSize, lineLength);
    DropTwice(c0, consumed, |c| - |c'|);
  }

  lemma DropTwice<T>(c: seq<T>, i: nat, k: nat)
    requires i + k <= |c|
    ensures c[i..][k..] == c[i + k..]
  {
  }

  /** What `scnprintf` adds for a text of `len` bytes with `room` bytes
      left: the text cut to leave space for the terminating NUL. */
  function Printed(len: nat, room: int): (n: nat)
    ensures room > 0 ==> n < room
  {
    if room <= 0 then 0 else if len < room then len else room - 1
  }

  /** The drain from word `log`, just read, with `c` still queued: the final
      length of the text and how many more entries are read. */
  function ShowLoop(log: bv16, c: seq<bv16>, buffSize: int, strSize: int, lineLength: bv16 -> nat): (r: (int, nat))
    ensures r.1 <= |c|
    decreases |c|
  {
    if log == 0 || buffSize - strSize <= 30 then (strSize, 0)
    else
      var s := strSize + Printed(lineLength(log), buffSize - strSize);
      if buffSize - s <= 30 then (s, 0)
      else if c == [] then (s, 0)
      else
        var r := ShowLoop(c[0], c[1..], buffSize, s, lineLength);
        (r.0, r.1 + 1)
  }

  /** One turn of the drain: print the word, then stop or go on with the
      next queued word. */
  lemma ShowLoopStep(log: bv16, c: seq<bv16>, buffSize: int, strSize: int, lineLength: bv16 -> nat)
    requires log != 0 && buffSize - strSize > 30
    ensures var s := strSize + Printed(lineLength(log), buffSize - strSize);
      var r := ShowLoop(log, c, buffSize, strSize, lineLength);
      (buffSize - s <= 30 || c == [] ==> r == (s, 0) == ShowLoop(0, c, buffSize, s, lineLength)) &&
      (buffSize - s > 30 && c != [] ==>
        r == (ShowLoop(c[0], c[1..], buffSize, s, lineLength).0, ShowLoop(c[0], c[1..], buffSize, s, lineLength).1 + 1))
  {
  }

  /** The drain has ended once the word read is 0 or the room is spent. */
  lemma ShowLoopStop(log: bv16, c: seq<bv16>, buffSize: int, strSize: int, lineLength: bv16 -> nat)
    requires log == 0 || buffSize - strSize <= 30
    ensures ShowLoop(log, c, buffSize, strSize, lineLength) == (strSize, 0)
  {
  }

  /** `XHdmiphy1_LogShow` on queue `c`: the length of the text and how many
      entries it reads, the first read included. */
  function Shown(c: seq<bv16>, buffSize: int, lineLength: bv16 -> nat): (r: (int, nat))
    ensures r.1 <= |c|
  {
    var h := Printed(HEADER_LENGTH, buffSize);
    if c == [] then (h, 0)
    else
      var r := ShowLoop(c[0], c[1..], buffSize, h, lineLength);
      (r.0, r.1 + 1)
  }

  /** The drain never writes past the buffer and reads at most the queue;
      every entry it reads before the last is a non-zero word, so a stored
      0 ends it. */
  lemma {:induction false} ShowLoopBounds(log: bv16, c: seq<bv16>, buffSize: int, strSize: int,
                                          lineLength: bv16 -> nat)
    requires 0 <= strSize < buffSize
    ensures var (size, consumed) := ShowLoop(log, c, buffSize, strSize, lineLength);
      strSize <= size < buffSize && consumed <= |c| &&
      (consumed > 0 ==> log != 0) &&
      forall k :: 0 <= k < consumed - 1 ==> c[k] != 0
    decreases |c|
  {
    if log != 0 && buffSize - strSize > 30 {
      var s := strSize + Printed(lineLength(log), buffSize - strSize);
      if buffSize - s > 30 && c != [] {
        ShowLoopBounds(c[0], c[1..], buffSize, s, lineLength);
        var r := ShowLoop(c[0], c[1..], buffSize, s, lineLength);
        forall k | 0 <= k < r.1
          ensures c[k] != 0
        {
          if k > 0 {
            assert c[k] == c[1..][k - 1];
          }
        }
      }
    }
  }

  /** `XHdmiphy1_LogShow` keeps its text inside the buffer, reads no more
      than is queued, and stops at the first stored 0. */
  lemma ShownBounds(c: seq<bv16>, buffSize: int, lineLength: bv16 -> nat)
    requires buffSize > 0
    ensures var (size, consumed) := Shown(c, buffSize, lineLength);
      0 <= size < buffSize && consumed <= |c| &&
      forall k :: 0 <= k < consumed - 1 ==> c[k] != 0
  {
    var h := Printed(HEADER_LENGTH, buffSize);
    if c != [] {
      ShowLoopBounds(c[0], c[1..], buffSize, h, lineLength);
      var r := ShowLoop(c[0], c[1..], buffSize, h, lineLength);
      forall k | 0 <= k < r.1
        ensures c[k] != 0
      {
        if k > 0 {
          assert c[k] == c[1..][k - 1];
        }
      }
    }
  }

  /** With room for every line, the whole queue is read when it holds no 0. */
  lemma {:induction false} ShowLoopReadsAll(log: bv16, c: seq<bv16>, buffSize: int, strSize: int,
                                            lineLength: bv16 -> nat)
    requires log != 0 && forall k :: 0 <= k < |c| ==> c[k] != 0
    requires forall k :: 0 <= k < |c| ==> lineLength(c[k]) <= 30
    requires lineLength(log) <= 30
    requires buffSize - strSize > 31 * (|c| + 1) + 30
    ensures ShowLoop(log, c, buffSize, strSize, lineLength).1 == |c|
    decreases |c|
  {
    if c != [] {
      var s := strSize + Printed(lineLength(log), buffSize - strSize);
      forall k | 0 <= k < |c[1..]|
        ensures c[1..][k] != 0 && lineLength(c[1..][k]) <= 30
      {
        assert c[1..][k] == c[k + 1];
      }
      ShowLoopReadsAll(c[0], c[1..], buffSize, s, lineLength);
    }
  }

  /** The queue after the writes `ws`, one at a time. */
  function AfterWrites<T>(c: seq<T>, ws: seq<T>): seq<T>
    decreases |ws|
  {
    if ws == [] then c else AfterWrites(Pushed(c, ws[0]), ws[1..])
  }

  /** The last `k` elements of `s`, or all of them when there are fewer. */
  function Last<T>(s: seq<T>, k: nat): (r: seq<T>)
    ensures |r| <= k
  {
    if |s| <= k then s else s[|s| - k..]
  }

  /** FIFO: after any writes the log holds the most recent `LOG_SIZE - 1`
      words of what it held and what was written, in write order. */
  lemma {:induction false} WritesKeepNewest<T>(c: seq<T>, ws: seq<T>)
    requires |c| < LOG_SIZE
    ensures AfterWrites(c, ws) == Last(c + ws, LOG_SIZE - 1)
    decreases |ws|
  {
    if ws == [] {
    } else {
      var p := Pushed(c, ws[0]);
      WritesKeepNewest(p, ws[1..]);
      assert c + ws == (c + [ws[0]]) + ws[1..];
      if |c| >= LOG_SIZE - 1 {
        assert c + [ws[0]] == [c[0]] + p;
        assert c + ws == [c[0]] + (p + ws[1..]);
      }
    }
  }
}
