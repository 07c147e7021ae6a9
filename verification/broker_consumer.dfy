/** A consumer that polls a partition while others publish and flush
    (internal/broker/partition.go; cursor at internal/transport/grpc_server.go). */
module Consumption {
  import opened RecordCodec
  import opened Partitions

  datatype Step = Publish(timestamp: int64, key: seq<byte>, value: seq<byte>) | Flush | Poll(budget: int)

  datatype World = World(log: Log, appended: seq<Record>, cursor: int, received: seq<Record>)

  const START := World(FRESH, [], 0, [])

  // What a publisher may do: lengths fit their fields and offsets do not run out.
  predicate Enabled(w: World, s: Step) {
    s.Publish? ==> |s.key| < TWO_32 && |s.value| < TWO_32 && 0 <= w.log.nextOffset < TWO_63 - 1
  }

  // The consumer asks next for the offset after the last one it got.
  function CursorAfter(cursor: int, got: seq<Record>): int {
    if got == [] then cursor else got[|got| - 1].offset + 1
  }

  function Next(w: World, s: Step, maxSize: int): World
    requires Enabled(w, s) && w.log.parts != []
  {
    match s
    case Publish(timestamp, key, value) =>
      var m := Record(w.log.nextOffset, timestamp, key, value);
      w.(log := Queued(w.log, m), appended := w.appended + [m])
    case Flush => w.(log := Flushed(w.log, maxSize))
    case Poll(budget) =>
      var log := Flushed(w.log, maxSize);
      var got := Fetched(log, w.cursor, budget);
      World(log, w.appended, CursorAfter(w.cursor, got), w.received + got)
  }

  // run[k] is the world before step k.
  ghost predicate IsRun(run: seq<World>, steps: seq<Step>, maxSize: int) {
    && |run| == |steps| + 1
    && forall k :: 0 <= k < |steps| ==>
         run[k].log.parts != [] && Enabled(run[k], steps[k]) && run[k + 1] == Next(run[k], steps[k], maxSize)
  }

  // The consumer has exactly the first `cursor` records.
  ghost predicate Inv(w: World) {
    Sound(w.log, w.appended) && 0 <= w.cursor <= w.log.hwm && w.received == w.appended[..w.cursor]
  }

  lemma ReceiveRun(all: seq<Record>, cursor: nat, got: seq<Record>, hwm: nat)
    requires Numbered(all, 0) && hwm <= |all| && StartsAt(got, all[..hwm], cursor)
    ensures CursorAfter(cursor, got) == cursor + |got| <= hwm
    ensures all[..cursor] + got == all[..cursor + |got|]
  {
    assert got == all[cursor..cursor + |got|];
    assert got[|got| - 1] == all[cursor + |got| - 1];
  }

  /** A poll returns records exactly when its budget is positive and something is left, and keeps the invariant. */
  lemma PollStep(w: World, budget: int, maxSize: int)
    requires Inv(w) && maxSize > 0
    ensures var w' := Next(w, Poll(budget), maxSize);
            && Inv(w') && w'.appended == w.appended && w.cursor <= w'.cursor
            && (w'.cursor > w.cursor <==> budget > 0 && w.cursor < |w.appended|)
  {
    FlushedIsSound(w.log, w.appended, maxSize);
    var log := Flushed(w.log, maxSize);
    hide Flushed, Laid, Fetched;
    FetchedIsRun(log, w.appended, w.cursor, budget);
    var got := Fetched(log, w.cursor, budget);
    if budget > 0 && w.cursor < log.hwm {
      ReceiveRun(w.appended, w.cursor, got, log.hwm);
    } else {
      assert w.received + got == w.received;
    }
  }

  lemma PublishStep(w: World, s: Step, maxSize: int)
    requires Inv(w) && s.Publish? && Enabled(w, s)
    ensures var w' := Next(w, s, maxSize); Inv(w') && w.appended <= w'.appended
  {
    var m := Record(w.log.nextOffset, s.timestamp, s.key, s.value);
    QueuedIsSound(w.log, w.appended, m);
    assert (w.appended + [m])[..w.cursor] == w.appended[..w.cursor];
  }

  lemma InvStep(w: World, s: Step, maxSize: int)
    requires Inv(w) && Enabled(w, s) && maxSize > 0
    ensures Inv(Next(w, s, maxSize)) && w.appended <= Next(w, s, maxSize).appended
  {
    match s
    case Publish(_, _, _) => PublishStep(w, s, maxSize);
    case Flush => FlushedIsSound(w.log, w.appended, maxSize);
    case Poll(budget) => PollStep(w, budget, maxSize);
  }

  lemma {:induction false} InvRun(run: seq<World>, steps: seq<Step>, maxSize: int, k: nat)
    requires IsRun(run, steps, maxSize) && Inv(run[0]) && maxSize > 0 && k <= |steps|
    ensures Inv(run[k])
  {
    if k > 0 {
      InvRun(run, steps, maxSize, k - 1);
      InvStep(run[k - 1], steps[k - 1], maxSize);
    }
  }

  /** In every run each segment but the last has reached the maximum size, and none had before its last record. */
  lemma {:induction false} SegmentsFill(run: seq<World>, steps: seq<Step>, maxSize: int, k: nat)
    requires IsRun(run, steps, maxSize) && run[0] == START && maxSize > 0 && k <= |steps|
    ensures Filled(run[k].log.parts, maxSize)
  {
    hide Filled;
    if k == 0 {
      FreshIsFilled(maxSize);
    } else {
      SegmentsFill(run, steps, maxSize, k - 1);
      FlushedIsFilled(run[k - 1].log, maxSize);
    }
  }

  // The records of the publish steps, numbered from `start`.
  ghost predicate Records(ms: seq<Record>, steps: seq<Step>) {
    if steps == [] then ms == []
    else
      var s := steps[|steps| - 1];
      if s.Publish? then
        && ms != [] && Records(ms[..|ms| - 1], steps[..|steps| - 1])
        && ms[|ms| - 1] == Record(ms[|ms| - 1].offset, s.timestamp, s.key, s.value)
      else Records(ms, steps[..|steps| - 1])
  }

  lemma RecordsOneMore(w: World, steps: seq<Step>, s: Step, maxSize: int)
    requires Records(w.appended, steps) && w.log.parts != [] && Enabled(w, s)
    ensures Records(Next(w, s, maxSize).appended, steps + [s])
  {
    hide Flushed, Fetched;
    assert (steps + [s])[..|steps|] == steps;
    var ms := Next(w, s, maxSize).appended;
    assert s.Publish? ==> ms[..|ms| - 1] == w.appended;
  }

  lemma NothingPublished()
    ensures Records(START.appended, [])
  {
  }

  lemma {:induction false} AppendedIsPublished(run: seq<World>, steps: seq<Step>, maxSize: int)
    requires IsRun(run, steps, maxSize) && run[0] == START && maxSize > 0
    ensures Records(run[|steps|].appended, steps)
  {
    hide Next, Enabled, Records;
    if steps == [] {
      NothingPublished();
    } else {
      var n := |steps| - 1;
      AppendedIsPublished(run[..|run| - 1], steps[..n], maxSize);
      assert run[..|run| - 1][n] == run[n] && Enabled(run[n], steps[n]) && run[n + 1] == Next(run[n], steps[n], maxSize);
      RecordsOneMore(run[n], steps[..n], steps[n], maxSize);
      assert steps == steps[..n] + [steps[n]];
    }
  }

  /** Whatever is published, flushed and polled, in any order and with any budgets and segment size: what the consumer
      has received is a prefix of what was published, in order, without gap or repeat. */
  lemma ReceivedIsPrefix(run: seq<World>, steps: seq<Step>, maxSize: int)
    requires IsRun(run, steps, maxSize) && run[0] == START && maxSize > 0
    ensures var w := run[|steps|];
            && Records(w.appended, steps) && Numbered(w.appended, 0)
            && 0 <= w.cursor <= |w.appended| && w.received == w.appended[..w.cursor]
  {
    FreshIsSound();
    InvRun(run, steps, maxSize, |steps|);
    AppendedIsPublished(run, steps, maxSize);
  }

  function PollsOf(steps: seq<Step>): nat {
    if steps == [] then 0
    else PollsOf(steps[..|steps| - 1]) + if steps[|steps| - 1].Poll? then 1 else 0
  }

  // Once publishing stops: each poll with a positive budget brings at least one of the missing records.
  lemma {:induction false} PollsGain(run: seq<World>, steps: seq<Step>, maxSize: int)
    requires IsRun(run, steps, maxSize) && Inv(run[0]) && maxSize > 0
    requires forall s <- steps :: !s.Publish? && (s.Poll? ==> s.budget > 0)
    ensures var w, w' := run[0], run[|steps|];
            && Inv(w') && w'.appended == w.appended
            && (w'.cursor == |w.appended| || w'.cursor >= w.cursor + PollsOf(steps))
  {
    hide Inv, Next, Enabled;
    if steps != [] {
      var n := |steps| - 1;
      PollsGain(run[..|run| - 1], steps[..n], maxSize);
      assert run[..|run| - 1][n] == run[n] && steps[n] in steps;
      QuietStep(run[n], steps[n], maxSize);
    }
  }

  lemma QuietStep(w: World, s: Step, maxSize: int)
    requires Inv(w) && maxSize > 0 && !s.Publish? && (s.Poll? ==> s.budget > 0)
    ensures var w' := Next(w, s, maxSize);
            && Inv(w') && w'.appended == w.appended && w.cursor <= w'.cursor <= |w.appended|
            && (s.Poll? && w.cursor < |w.appended| ==> w'.cursor > w.cursor)
  {
    if s.Poll? {
      PollStep(w, s.budget, maxSize);
    } else {
      FlushedIsSound(w.log, w.appended, maxSize);
    }
  }

  /** The consumer catches up: wherever a run has got to, once publishing stops, as many polls as records are missing,
      with any positive budgets and any flushes between them, bring everything published, up to the high watermark. */
  lemma CatchesUp(run: seq<World>, steps: seq<Step>, maxSize: int, n: nat)
    requires IsRun(run, steps, maxSize) && run[0] == START && maxSize > 0 && n <= |steps|
    requires forall s <- steps[n..] :: !s.Publish? && (s.Poll? ==> s.budget > 0)
    requires PollsOf(steps[n..]) >= |run[n].appended| - run[n].cursor
    ensures var w := run[|steps|]; w.received == w.appended == run[n].appended && w.cursor == |w.appended| == w.log.hwm
  {
    FreshIsSound();
    InvRun(run, steps, maxSize, n);
    assert IsRun(run[n..], steps[n..], maxSize);
    PollsGain(run[n..], steps[n..], maxSize);
    var w := run[|steps|];
    assert run[n..][|steps| - n] == w && w.appended[..|w.appended|] == w.appended;
  }
}
