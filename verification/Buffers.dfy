/** Receive buffering and the parse schedule of incomplete field sections. */
module Buffers {
  import opened States
  import opened Bytes

  // ---------------------------------------------------------- compacting queue

  /** The two fields of the buffer, with what compaction and reading have cost. */
  datatype Queue = Queue(data: bytes, start: nat, moved: nat, consumed: nat) {
    predicate Valid() {
      start <= |data| && moved + start <= consumed
    }

    function Live(): bytes
      requires Valid()
    {
      data[start..]
    }
  }

  const EMPTY := Queue([], 0, 0, 0)

  datatype QueueOp = Extend(data: bytes) | Consume(count: nat)

  /** Appending first drops the consumed prefix, once it is at least half. */
  function Apply(q: Queue, op: QueueOp): (r: Queue)
    requires q.Valid()
    requires op.Consume? ==> op.count <= |q.Live()|
  {
    match op
    case Extend(data) =>
      var live := q.Live();
      if 0 < q.start && |live| <= q.start
      then Queue(live + data, 0, q.moved + |live|, q.consumed)
      else q.(data := q.data + data)
    case Consume(count) => q.(start := q.start + count, consumed := q.consumed + count)
  }

  /** The plain queue the buffer stands for. */
  function ApplyPlain(s: bytes, op: QueueOp): bytes {
    match op
    case Extend(data) => s + data
    case Consume(count) => if count <= |s| then s[count..] else []
  }

  predicate Enabled(s: bytes, ops: seq<QueueOp>)
    decreases |ops|
  {
    ops == [] || ((ops[0].Consume? ==> ops[0].count <= |s|) && Enabled(ApplyPlain(s, ops[0]), ops[1..]))
  }

  function RunPlain(s: bytes, ops: seq<QueueOp>): bytes
    decreases |ops|
  {
    if ops == [] then s else RunPlain(ApplyPlain(s, ops[0]), ops[1..])
  }

  lemma StepIsPlain(q: Queue, op: QueueOp)
    requires q.Valid() && (op.Consume? ==> op.count <= |q.Live()|)
    ensures Apply(q, op).Valid() && Apply(q, op).Live() == ApplyPlain(q.Live(), op)
  {
    match op
    case Extend(data) =>
      assert (q.Live() + data)[0..] == q.Live() + data;
      assert (q.data + data)[q.start..] == q.data[q.start..] + data;
    case Consume(count) =>
      assert q.data[q.start + count..] == q.data[q.start..][count..];
  }

  function Run(q: Queue, ops: seq<QueueOp>): (r: Queue)
    requires q.Valid() && Enabled(q.Live(), ops)
    decreases |ops|
  {
    if ops == [] then q
    else
      StepIsPlain(q, ops[0]);
      Run(Apply(q, ops[0]), ops[1..])
  }

  /**
   Over every run the buffer holds what a plain queue holds, and compaction has
   moved no more bytes in total than were consumed.
   */
  lemma {:induction false} RunIsPlainAndAmortised(q: Queue, ops: seq<QueueOp>)
    requires q.Valid() && Enabled(q.Live(), ops)
    ensures var r := Run(q, ops);
            r.Valid() && r.Live() == RunPlain(q.Live(), ops) && r.moved <= r.consumed
    decreases |ops|
  {
    if ops == [] {
    } else {
      StepIsPlain(q, ops[0]);
      RunIsPlainAndAmortised(Apply(q, ops[0]), ops[1..]);
    }
  }

  /** The buffer itself. */
  class Buffer {
    var data: bytes
    var start: nat
    ghost var moved: nat
    ghost var consumed: nat

    ghost function Value(): Queue
      reads this
    {
      Queue(data, start, moved, consumed)
    }

    ghost predicate Valid()
      reads this
    {
      Value().Valid()
    }

    function Contents(): bytes
      reads this
      requires Valid()
    {
      data[start..]
    }

    constructor ()
      ensures Valid() && Value() == EMPTY && Contents() == []
    {
      data, start, moved, consumed := [], 0, 0, 0;
    }

    method Extend(more: bytes)
      requires Valid()
      modifies this
      ensures Valid() && Value() == Apply(old(Value()), QueueOp.Extend(more))
      ensures Contents() == old(Contents()) + more
    {
      StepIsPlain(Value(), QueueOp.Extend(more));
      Compact();
      data := data + more;
    }

    method Compact()
      requires Valid()
      modifies this
      ensures Valid() && Contents() == old(Contents()) && consumed == old(consumed)
      ensures if 0 < old(start) && |old(Contents())| <= old(start)
              then start == 0 && data == old(Contents()) && moved == old(moved) + |old(Contents())|
              else Value() == old(Value())
    {
      var live := |data| - start;
      if start > 0 && start >= live {
        moved := moved + live;
        data := data[start..];
        start := 0;
      }
    }

    method Consume(count: nat)
      requires Valid() && count <= |Contents()|
      modifies this
      ensures Valid() && Value() == Apply(old(Value()), QueueOp.Consume(count))
      ensures Contents() == old(Contents())[count..]
    {
      StepIsPlain(Value(), QueueOp.Consume(count));
      start := start + count;
      consumed := consumed + count;
    }

    method Take(count: nat) returns (taken: bytes)
      requires Valid() && count <= |Contents()|
      modifies this
      ensures Valid() && Value() == Apply(old(Value()), QueueOp.Consume(count))
      ensures taken == old(Contents())[..count] && Contents() == old(Contents())[count..]
    {
      var from := start;
      Consume(count);
      taken := data[from..from + count];
    }
  }

  // -------------------------------------------------------- resumable line scan

  datatype Progress = Progress(at: nat, lineStart: nat, started: bool, parsed: nat) {
    predicate Within(data: bytes) {
      lineStart <= at <= |data|
    }
  }

  const FRESH := Progress(0, 0, false, 0)

  predicate IsEmptyLine(line: bytes) {
    line == [] || line == [CR]
  }

  /** One byte of the scan, and whether it ends the section. */
  function ScanByte(p: Progress, data: bytes, skip: bool): (r: (Progress, bool))
    requires p.Within(data) && p.at < |data|
    ensures r.0.Within(data) && r.0.at == p.at + 1 && r.0.parsed == p.parsed
  {
    var next := p.(at := p.at + 1);
    if data[p.at] != LF then (next, false)
    else if !IsEmptyLine(data[p.lineStart..p.at]) then (next.(lineStart := next.at, started := true), false)
    else (next.(lineStart := next.at), p.started || !skip)
  }

  function PollFrom(p: Progress, data: bytes, skip: bool): (r: (Progress, Option<nat>))
    requires p.Within(data)
    ensures r.0.Within(data) && r.0.parsed == p.parsed
    ensures r.1.Some? ==> r.1.value == r.0.at && p.at < r.1.value
    decreases |data| - p.at
  {
    if p.at == |data| then (p, None)
    else
      var (next, ends) := ScanByte(p, data, skip);
      if ends then (next, Some(next.at)) else PollFrom(next, data, skip)
  }

  method PollSection(before: Progress, data: bytes, skip: bool) returns (p: Progress, end: Option<nat>)
    requires before.Within(data)
    ensures (p, end) == PollFrom(before, data, skip)
  {
    p := before;
    while p.at < |data|
      invariant p.Within(data)
      invariant PollFrom(p, data, skip) == PollFrom(before, data, skip)
      decreases |data| - p.at
    {
      p := p.(at := p.at + 1);
      if data[p.at - 1] == LF {
        var line := data[p.lineStart..p.at - 1];
        p := p.(lineStart := p.at);
        if IsEmptyLine(line) {
          if p.started || !skip {
            return p, Some(p.at);
          }
        } else {
          p := p.(started := true);
        }
      }
    }
    return p, None;
  }

  /** A scan resumed over a longer section ends where a fresh one does. */
  lemma {:induction false} ResumedPoll(p: Progress, data: bytes, more: bytes, skip: bool)
    requires p.Within(data)
    ensures var (q, end) := PollFrom(p, data, skip);
            if end.Some? then PollFrom(p, data + more, skip) == (q, end)
            else PollFrom(p, data + more, skip) == PollFrom(q, data + more, skip)
    decreases |data| - p.at
  {
    if p.at < |data| {
      assert (data + more)[p.lineStart..p.at] == data[p.lineStart..p.at];
      var (next, ends) := ScanByte(p, data, skip);
      assert ScanByte(p, data + more, skip) == (next, ends);
      if !ends {
        ResumedPoll(next, data, more, skip);
      }
    }
  }

  /** Start of the line that position `i` is in. */
  function LineStart(data: bytes, i: nat): (r: nat)
    requires i <= |data|
    ensures r <= i
  {
    if i == 0 || data[i - 1] == LF then i else LineStart(data, i - 1)
  }

  /** Whether some line with content ends before position `i`. */
  predicate StartedBefore(data: bytes, i: nat)
    requires i <= |data|
  {
    exists k :: 0 <= k < i && data[k] == LF && !IsEmptyLine(data[LineStart(data, k)..k])
  }

  /** A section ends after an empty line, which may not be a leading one. */
  predicate EndsSection(data: bytes, e: nat, skip: bool) {
    && 1 <= e <= |data| && data[e - 1] == LF
    && IsEmptyLine(data[LineStart(data, e - 1)..e - 1])
    && (skip ==> StartedBefore(data, e - 1))
  }

  predicate Tracks(p: Progress, data: bytes) {
    p.Within(data) && p.lineStart == LineStart(data, p.at) && p.started == StartedBefore(data, p.at)
  }

  lemma TracksStep(p: Progress, data: bytes, skip: bool)
    requires Tracks(p, data) && p.at < |data|
    ensures Tracks(ScanByte(p, data, skip).0, data)
    ensures ScanByte(p, data, skip).1 <==> EndsSection(data, p.at + 1, skip)
  {
    var next := ScanByte(p, data, skip).0;
    assert StartedBefore(data, p.at + 1) <==>
           StartedBefore(data, p.at) || (data[p.at] == LF && !IsEmptyLine(data[p.lineStart..p.at]));
  }

  /** `end` is the first end of section after position `from`, if there is one. */
  ghost predicate IsFirstEnd(data: bytes, from: nat, skip: bool, end: Option<nat>) {
    match end
    case Some(n) => from < n && EndsSection(data, n, skip) && forall e :: from < e < n ==> !EndsSection(data, e, skip)
    case None => forall e :: from < e ==> !EndsSection(data, e, skip)
  }

  lemma FirstEndStep(data: bytes, from: nat, skip: bool, end: Option<nat>)
    requires IsFirstEnd(data, from + 1, skip, end) && !EndsSection(data, from + 1, skip)
    ensures IsFirstEnd(data, from, skip, end)
  {
    forall e | from < e && (end.Some? ==> e < end.value)
      ensures !EndsSection(data, e, skip)
    {
      assert e == from + 1 || from + 1 < e;
    }
  }

  /** The scan finds the first end of section, or there is none. */
  lemma {:induction false} PollIsFirstEnd(p: Progress, data: bytes, skip: bool)
    requires Tracks(p, data)
    ensures IsFirstEnd(data, p.at, skip, PollFrom(p, data, skip).1)
    decreases |data| - p.at
  {
    if p.at < |data| {
      TracksStep(p, data, skip);
      var (next, ends) := ScanByte(p, data, skip);
      if !ends {
        PollIsFirstEnd(next, data, skip);
        FirstEndStep(data, p.at, skip, PollFrom(next, data, skip).1);
      }
    }
  }

  /** However a growing section is polled, a scan from the start finds its first end. */
  lemma FreshPollIsFirstEnd(data: bytes, skip: bool)
    ensures IsFirstEnd(data, 0, skip, PollFrom(FRESH, data, skip).1)
  {
    assert Tracks(FRESH, data);
    PollIsFirstEnd(FRESH, data, skip);
  }

  // ---------------------------------------------------------- parse scheduling

  function SaturatingDouble(n: nat): nat {
    if 2 * n < USIZE then 2 * n else USIZE - 1
  }

  predicate Doubled(p: Progress, data: bytes) {
    |data| >= SaturatingDouble(p.parsed)
  }

  /** Whether to parse now: the section doubled, or its end arrived. */
  function Due(p: Progress, data: bytes, skip: bool): (r: (Progress, bool))
    requires p.Within(data)
    ensures r.0.Within(data)
  {
    if Doubled(p, data) then (p.(parsed := |data|), true)
    else
      var (next, end) := PollFrom(p, data, skip);
      if end.Some? then (next.(parsed := |data|), true) else (next, false)
  }

  method DueSection(before: Progress, data: bytes, skip: bool) returns (p: Progress, due: bool)
    requires before.Within(data)
    ensures (p, due) == Due(before, data, skip)
  {
    p := before;
    due := |data| >= SaturatingDouble(p.parsed);
    if !due {
      var end;
      p, end := PollSection(p, data, skip);
      due := end.Some?;
    }
    if due {
      p := p.(parsed := |data|);
    }
  }

  /** A section growing through `cuts`, polled at each: the bytes its doublings parse. */
  function DoublingWork(p: Progress, stream: bytes, cuts: seq<nat>, skip: bool): nat
    requires Growing(p, stream, cuts)
    decreases |cuts|
  {
    if cuts == [] then 0
    else
      var data := stream[..cuts[0]];
      (if Doubled(p, data) then |data| else 0) + DoublingWork(Due(p, data, skip).0, stream, cuts[1..], skip)
  }

  predicate Growing(p: Progress, stream: bytes, cuts: seq<nat>) {
    && p.lineStart <= p.at
    && (forall i :: 0 <= i < |cuts| ==> p.at <= cuts[i] && cuts[i] <= |stream|)
    && (forall i, j :: 0 <= i < j < |cuts| ==> cuts[i] <= cuts[j])
  }

  /** Parses that doubling triggers cover at most twice the final length in total. */
  lemma {:induction false} DoublingIsLinear(p: Progress, stream: bytes, cuts: seq<nat>, skip: bool, spent: nat)
    requires Growing(p, stream, cuts)
    requires |stream| < USIZE / 2
    requires spent <= 2 * p.parsed && (forall i :: 0 <= i < |cuts| ==> p.parsed <= cuts[i])
    ensures spent + DoublingWork(p, stream, cuts, skip) <=
            2 * (if cuts == [] then p.parsed else cuts[|cuts| - 1])
    decreases |cuts|
  {
    if cuts == [] {
    } else {
      var data := stream[..cuts[0]];
      var q := Due(p, data, skip).0;
      var now := if Doubled(p, data) then |data| else 0;
      DoublingIsLinear(q, stream, cuts[1..], skip, spent + now);
    }
  }
}
