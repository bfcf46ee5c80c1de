/** The event bus tail and the SSE relay: resuming by the last seen id, section 9.2 (Server-sent events) of the
    WHATWG HTML Living Standard (src/services/connectors/memory_store.py, src/api/sse.py). */
module EventStream {
  import opened Schemas

  // ----- Stream ids -----

  predicate IsDigit(c: char) {
    '0' <= c <= '9'
  }

  /** Python's `str.isdigit` on ASCII text: non-empty and digits only. */
  predicate IsDigits(s: string) {
    s != "" && forall c | c in s :: IsDigit(c)
  }

  /** The decimal id of a position. */
  function Decimal(n: nat): string {
    (if n < 10 then "" else Decimal(n / 10)) + [('0' as int + n % 10) as char]
  }

  function Value(c: char): nat
    requires IsDigit(c)
  {
    c as int - '0' as int
  }

  function Number(s: string): nat
    requires forall c | c in s :: IsDigit(c)
  {
    if s == "" then 0
    else
      var last := s[|s| - 1];
      assert last in s;
      10 * Number(s[..|s| - 1]) + Value(last)
  }

  /** Ids survive the trip through the client. */
  lemma {:induction false} IdRoundTrip(n: nat)
    ensures IsDigits(Decimal(n)) && Number(Decimal(n)) == n
  {
    var s := Decimal(n);
    if n >= 10 {
      IdRoundTrip(n / 10);
      assert s[..|s| - 1] == Decimal(n / 10);
    } else {
      assert s[..|s| - 1] == "";
    }
  }

  /** Where a tail starts: after the last seen id, from the beginning for anything that is not a number. */
  function Start(lastId: Option<string>): nat {
    if lastId.Some? && IsDigits(lastId.value) then Number(lastId.value) else 0
  }

  datatype Frame = Frame(id: string, event: Event)

  function FrameAt(log: seq<Event>, i: nat): Frame
    requires i < |log|
  {
    Frame(Decimal(i + 1), log[i])
  }

  /** Reconnecting with the id of a frame resumes strictly after that frame. */
  lemma ResumesAfter(log: seq<Event>, i: nat)
    requires i < |log|
    ensures Start(Some(FrameAt(log, i).id)) == i + 1
  {
    IdRoundTrip(i + 1);
  }

  // ----- One connection -----

  /** What a connection that hangs up after `limit` frames delivers of a log: consecutive frames from `start`,
      ending with the first terminal event. */
  function Window(log: seq<Event>, start: nat, limit: nat): (frames: seq<Frame>)
    decreases |log| - start
  {
    if start >= |log| || limit == 0 then []
    else [FrameAt(log, start)] + (if ClosesStream(log[start]) then [] else Window(log, start + 1, limit - 1))
  }

  /** The window is gap-free and duplicate-free, holds no terminal event before its last frame, and it ends only
      at a terminal event, a hang-up or the end of the log. */
  lemma {:induction false} WindowIsExact(log: seq<Event>, start: nat, limit: nat)
    ensures var w := Window(log, start, limit);
      && |w| <= limit && (w != [] ==> start + |w| <= |log|)
      && (forall k | 0 <= k < |w| :: start + k < |log| && w[k] == FrameAt(log, start + k))
      && (forall k | 0 <= k < |w| - 1 :: !ClosesStream(w[k].event))
      && (|w| == limit || start + |w| >= |log| || (w != [] && ClosesStream(w[|w| - 1].event)))
    decreases |log| - start
  {
    hide Decimal;
    if start < |log| && limit > 0 && !ClosesStream(log[start]) {
      WindowIsExact(log, start + 1, limit - 1);
    }
  }

  function Concat(chunks: seq<seq<Event>>): seq<Event> {
    if chunks == [] then [] else Concat(chunks[..|chunks| - 1]) + chunks[|chunks| - 1]
  }

  lemma {:induction false} ConcatSplits(chunks: seq<seq<Event>>, k: nat)
    requires k <= |chunks|
    ensures Concat(chunks) == Concat(chunks[..k]) + Concat(chunks[k..])
  {
    if k == |chunks| {
      assert chunks[..k] == chunks;
    } else {
      var front, last, rest := chunks[..|chunks| - 1], chunks[|chunks| - 1], chunks[k..];
      ConcatSplits(front, k);
      assert front[..k] == chunks[..k] && rest[..|rest| - 1] == front[k..] && rest[|rest| - 1] == last;
      assert Concat(rest) == Concat(front[k..]) + last;
      hide Concat;
      Associates(Concat(front[..k]), Concat(front[k..]), last);
    }
  }

  lemma Associates<T>(a: seq<T>, b: seq<T>, c: seq<T>)
    ensures (a + b) + c == a + (b + c)
  {
  }

  /** The next frame of a window. */
  lemma WindowStep(log: seq<Event>, i: nat, limit: nat, frames: seq<Frame>, goal: seq<Frame>)
    requires i < |log| && |frames| < limit && goal == frames + Window(log, i, limit - |frames|)
    ensures var more := frames + [FrameAt(log, i)];
      goal == if ClosesStream(log[i]) then more else more + Window(log, i + 1, limit - |more|)
  {
    hide Decimal, FrameAt, ClosesStream;
    var left := limit - |frames|;
    var frame := [FrameAt(log, i)];
    var rest := if ClosesStream(log[i]) then [] else Window(log, i + 1, left - 1);
    assert Window(log, i, left) == frame + rest;
    hide Window;
    Associates(frames, frame, rest);
    assert rest == [] ==> (frames + frame) + rest == frames + frame;
  }

  /** `batch` is what the log holds from position `idx` on. */
  predicate Reads(log: seq<Event>, batch: seq<Event>, idx: nat) {
    idx + |batch| <= |log| && forall k | 0 <= k < |batch| :: batch[k] == log[idx + k]
  }

  lemma ReadsAt(log: seq<Event>, batch: seq<Event>, idx: nat, j: nat)
    requires Reads(log, batch, idx) && j < |batch|
    ensures idx + j < |log| && log[idx + j] == batch[j]
    ensures FrameAt(log, idx + j) == Frame(Decimal(idx + j + 1), batch[j])
  {
  }

  lemma WindowEnds(log: seq<Event>, start: nat, limit: nat)
    requires start >= |log| || limit == 0
    ensures Window(log, start, limit) == []
  {
  }

  /** Yields one batch read from position `idx`; `closed` when the client hung up or a terminal frame went out. */
  method RelayBatch(ghost log: seq<Event>, batch: seq<Event>, idx: nat, limit: nat, sent: seq<Frame>)
    returns (frames: seq<Frame>, closed: bool)
    requires Reads(log, batch, idx) && |sent| <= limit
    ensures |frames| <= limit
    ensures sent + Window(log, idx, limit - |sent|)
         == if closed then frames else frames + Window(log, idx + |batch|, limit - |frames|)
  {
    ghost var goal := sent + Window(log, idx, limit - |sent|);
    hide Decimal, ClosesStream, Window, FrameAt, Reads;
    frames := sent;
    for j := 0 to |batch|
      invariant |frames| <= limit && goal == frames + Window(log, idx + j, limit - |frames|)
    {
      if |frames| == limit {
        WindowEnds(log, idx + j, 0);
        return frames, true;
      }
      ReadsAt(log, batch, idx, j);
      WindowStep(log, idx + j, limit, frames, goal);
      frames := frames + [Frame(Decimal(idx + j + 1), batch[j])];
      if ClosesStream(batch[j]) {
        return frames, true;
      }
    }
    closed := false;
  }

  /** The relay over the bus tail: between two wake-ups `chunks[k]` is published, and the client hangs up after
      `limit` frames. However the publishes fall between the wake-ups, it delivers the window of the whole log. */
  method SessionEventStream(chunks: seq<seq<Event>>, lastId: Option<string>, limit: nat) returns (frames: seq<Frame>)
    ensures frames == Window(Concat(chunks), Start(lastId), limit)
  {
    ghost var all := Concat(chunks);
    var stream: seq<Event> := [];
    var idx: nat := Start(lastId);
    ghost var goal := Window(all, idx, limit);
    hide Start, Window;
    frames := [];
    for k := 0 to |chunks|
      invariant stream == Concat(chunks[..k]) && |stream| <= idx && |frames| <= limit
      invariant goal == frames + Window(all, idx, limit - |frames|)
    {
      assert chunks[..k + 1][..k] == chunks[..k];
      stream := stream + chunks[k];
      ConcatSplits(chunks, k + 1);
      if idx < |stream| {
        var closed;
        frames, closed := RelayBatch(all, stream[idx..], idx, limit, frames);
        if closed {
          return;
        }
        idx := |stream|;
      }
    }
    assert chunks[..|chunks|] == chunks;
    WindowEnds(all, idx, limit - |frames|);
  }

  // ----- Any interleaving of publishes, wake-ups, drops and reconnects -----

  /** A tail inside a connection: the next position to read and the batch read but not yet delivered. */
  datatype Connection = Connection(idx: nat, batch: seq<Frame>)
  datatype Client = Client(log: seq<Event>, firstId: Option<string>, delivered: seq<Frame>,
      connection: Option<Connection>)

  datatype Action = Publish(e: Event) | Connect | Wake | Deliver | Drop

  function LastSeen(c: Client): Option<string> {
    if c.delivered == [] then c.firstId else Some(c.delivered[|c.delivered| - 1].id)
  }

  function Batch(log: seq<Event>, from: nat): (frames: seq<Frame>)
    ensures |frames| == if from < |log| then |log| - from else 0
    ensures forall k | 0 <= k < |frames| :: frames[k] == FrameAt(log, from + k)
  {
    if from >= |log| then [] else seq(|log| - from, k requires 0 <= k < |log| - from => FrameAt(log, from + k))
  }

  /** A wake-up takes everything new at once; the relay closes the connection behind a terminal frame. */
  function Step(c: Client, a: Action): Client {
    match a
    case Publish(e) => c.(log := c.log + [e])
    case Connect => c.(connection := Some(Connection(Start(LastSeen(c)), [])))
    case Drop => c.(connection := None)
    case Wake =>
      if c.connection.None? || c.connection.value.batch != [] || c.connection.value.idx >= |c.log| then c
      else c.(connection := Some(Connection(|c.log|, Batch(c.log, c.connection.value.idx))))
    case Deliver =>
      if c.connection.None? || c.connection.value.batch == [] then c
      else
        var frame := c.connection.value.batch[0];
        var rest := Some(Connection(c.connection.value.idx, c.connection.value.batch[1..]));
        c.(delivered := c.delivered + [frame], connection := if ClosesStream(frame.event) then None else rest)
  }

  function Ran(c: Client, actions: seq<Action>): Client {
    if actions == [] then c else Step(Ran(c, actions[..|actions| - 1]), actions[|actions| - 1])
  }

  function Arriving(log: seq<Event>, firstId: Option<string>): Client {
    Client(log, firstId, [], None)
  }

  predicate FramesFrom(frames: seq<Frame>, log: seq<Event>, from: nat) {
    && (frames == [] || from + |frames| <= |log|)
    && forall k | 0 <= k < |frames| :: from + k < |log| && frames[k] == FrameAt(log, from + k)
  }

  predicate Inv(c: Client) {
    var next := Start(c.firstId) + |c.delivered|;
    && FramesFrom(c.delivered, c.log, Start(c.firstId))
    && (c.connection.Some? ==>
          && FramesFrom(c.connection.value.batch, c.log, next)
          && c.connection.value.idx == next + |c.connection.value.batch|)
  }

  lemma StepInv(c: Client, a: Action)
    requires Inv(c)
    ensures Inv(Step(c, a))
  {
    hide Decimal, Number;
    if a.Connect? && c.delivered != [] {
      ResumesAfter(c.log, Start(c.firstId) + |c.delivered| - 1);
    }
    if a.Publish? {
      assert forall i: nat | i < |c.log| :: FrameAt(c.log + [a.e], i) == FrameAt(c.log, i);
    }
  }

  lemma {:induction false} LogGrows(c: Client, actions: seq<Action>)
    ensures c.log <= Ran(c, actions).log && Ran(c, actions).firstId == c.firstId
  {
    if actions != [] {
      LogGrows(c, actions[..|actions| - 1]);
    }
  }

  /** Stream resume: whatever the interleaving, what the client got over all its connections is the log from its
      resume point on, every frame once and in order. */
  lemma {:induction false} DeliveriesAreGapFree(log: seq<Event>, firstId: Option<string>, actions: seq<Action>)
    ensures var c := Ran(Arriving(log, firstId), actions);
      && c.firstId == firstId
      && forall k | 0 <= k < |c.delivered| ::
           Start(firstId) + k < |c.log| && c.delivered[k] == FrameAt(c.log, Start(firstId) + k)
    ensures Inv(Ran(Arriving(log, firstId), actions))
  {
    hide Step, Decimal, Number;
    LogGrows(Arriving(log, firstId), actions);
    if actions != [] {
      var front := actions[..|actions| - 1];
      DeliveriesAreGapFree(log, firstId, front);
      StepInv(Ran(Arriving(log, firstId), front), actions[|actions| - 1]);
    }
  }

  /** Behind a terminal frame the relay is closed: nothing more arrives unless the client connects again. */
  lemma {:induction false} TerminalCloses(c: Client, more: seq<Action>)
    requires c.connection.Some? && c.connection.value.batch != [] && ClosesStream(c.connection.value.batch[0].event)
    requires Connect !in more
    ensures var ended := Step(c, Deliver);
      && ended.delivered == c.delivered + [c.connection.value.batch[0]]
      && Ran(ended, more).connection.None? && Ran(ended, more).delivered == ended.delivered
  {
    if more != [] {
      TerminalCloses(c, more[..|more| - 1]);
    }
  }

  /** A numeric id the stream has not reached does not restart it: the tail waits there. Only an id that is not a
      number starts from the beginning. */
  lemma UnreachedIdWaits(log: seq<Event>, lastId: string, limit: nat)
    ensures IsDigits(lastId) && Number(lastId) >= |log| ==> Window(log, Start(Some(lastId)), limit) == []
    ensures !IsDigits(lastId) ==> Window(log, Start(Some(lastId)), limit) == Window(log, 0, limit)
  {
  }
}
