/** The running streaming job: the operator as an object, checkpoints, crashes and
    replay, and its link to the order source and the dashboard. */
module Streaming {
  import opened Aggregates
  import opened Cdc
  import opened Source
  import opened Windows
  import opened Dashboard

  // ---- the job functionally -----------------------------------------------------------------

  datatype Snapshot = Snapshot(op: Operator, offset: nat)

  /** `topic` is the sink: rows written since a checkpoint are not taken back by a crash. */
  datatype Job = Job(op: Operator, offset: nat, topic: seq<WindowRow>, saved: Snapshot)

  datatype JobEvent = Poll | Checkpoint | Crash

  const STARTED: Job := Job(INITIAL, 0, [], Snapshot(INITIAL, 0))

  /** `inputs` is what the topic holds and where watermarks fall in it, the same on every read. */
  function JobStep(inputs: seq<Input>, j: Job, e: JobEvent): Job
    requires AllDecodable(inputs)
  {
    match e
    case Poll =>
      if j.offset >= |inputs| then j
      else
        var (op, rows) := Consume(j.op, inputs[j.offset]);
        j.(op := op, offset := j.offset + 1, topic := j.topic + rows)
    case Checkpoint => j.(saved := Snapshot(j.op, j.offset))
    case Crash => j.(op := j.saved.op, offset := j.saved.offset)
  }

  function RunJob(inputs: seq<Input>, events: seq<JobEvent>): Job
    requires AllDecodable(inputs)
  {
    if events == [] then STARTED else JobStep(inputs, RunJob(inputs, events[..|events| - 1]), events[|events| - 1])
  }

  // ---- the job as it runs -----------------------------------------------------------------------

  class RevenueJob {
    var watermark: int
    var accs: map<int, Acc>
    var offset: nat
    var topic: seq<WindowRow>
    var saved: Snapshot

    ghost function State(): Job
      reads this
    {
      Job(Operator(watermark, accs), offset, topic, saved)
    }

    constructor ()
      ensures State() == STARTED
    {
      watermark, accs := NO_WATERMARK, map[];
      offset, topic, saved := 0, [], Snapshot(INITIAL, 0);
    }

    method ReadChange(c: RowChange)
      modifies this`accs
      ensures State().op == Accumulate(old(State().op), c)
    {
      var start := WindowStart(c.row.updatedAt);
      if Passed(start, watermark) { return; }
      var a := AccOf(accs, start);
      if c.Insert? {
        accs := accs[start := Acc(a.count + 1, a.sum + c.row.total)];
      } else {
        accs := accs[start := Acc(a.count - 1, a.sum - c.row.total)];
      }
    }

    method ReadRecord(e: Event<Order>)
      requires Decodable(e)
      modifies this`accs
      ensures State().op == AccumulateAll(old(State().op), Unwrap(e))
    {
      var changes := Unwrap(e);
      var k := 0;
      while k < |changes|
        invariant k <= |changes| && offset == old(offset) && topic == old(topic) && saved == old(saved)
        invariant AccumulateAll(State().op, changes[k..]) == AccumulateAll(old(State().op), changes)
      {
        assert changes[k..][1..] == changes[k + 1..];
        ReadChange(changes[k]);
        k := k + 1;
      }
    }

    /** Windows fire in time order; each writes one row unless it is empty. */
    method AdvanceWatermark(w: int)
      modifies this`watermark, this`accs, this`topic
      ensures State().op == Fire(old(State().op), w).0
      ensures topic == old(topic) + Fire(old(State().op), w).1
    {
      ghost var before := accs;
      if w > watermark {
        watermark := w;
      }
      var due := Due(accs, watermark);
      ghost var all := due;
      while due != {}
        invariant due <= all && watermark == NextWatermark(old(State().op), w)
        invariant accs == before - (all - due)
        invariant topic + Emit(due, before) == old(topic) + Emit(all, before)
        decreases due
      {
        var s := Least(due);
        WriteWindow(s);
        due := due - {s};
      }
    }

    method WriteWindow(s: int)
      modifies this`topic, this`accs
      ensures accs == old(accs) - {s}
      ensures topic == old(topic) + WindowOutput(s, AccOf(old(accs), s))
    {
      var a := AccOf(accs, s);
      if a.count != 0 {
        topic := topic + [WindowRow(s, s + WINDOW_MS, a.count, a.sum)];
      }
      accs := accs - {s};
    }

    method Perform(inputs: seq<Input>, e: JobEvent)
      requires AllDecodable(inputs)
      modifies this
      ensures State() == JobStep(inputs, old(State()), e)
    {
      match e
      case Poll =>
        if offset < |inputs| {
          match inputs[offset] {
            case Record(r) => ReadRecord(r);
            case Tick(w) => AdvanceWatermark(w);
          }
          offset := offset + 1;
        }
      case Checkpoint => saved := Snapshot(Operator(watermark, accs), offset);
      case Crash =>
        watermark, accs := saved.op.watermark, saved.op.accs;
        offset := saved.offset;
    }
  }

  // ---- crash and replay is invisible ---------------------------------------------------------------

  /** The operator and output of the crash-free run over the first `k` inputs. */
  function After(inputs: seq<Input>, k: nat): (Operator, seq<WindowRow>)
    requires AllDecodable(inputs) && k <= |inputs|
  {
    CrashFree(inputs[..k])
  }

  lemma AfterNext(inputs: seq<Input>, k: nat)
    requires AllDecodable(inputs) && k < |inputs|
    ensures After(inputs, k + 1).0 == Consume(After(inputs, k).0, inputs[k]).0
    ensures After(inputs, k + 1).1 == After(inputs, k).1 + Consume(After(inputs, k).0, inputs[k]).1
  {
    assert inputs[..k + 1][..k] == inputs[..k];
  }

  lemma {:induction false} OutputGrows(inputs: seq<Input>, j: nat, k: nat)
    requires AllDecodable(inputs) && j <= k <= |inputs|
    ensures After(inputs, j).1 <= After(inputs, k).1
    decreases k
  {
    if j < k {
      OutputGrows(inputs, j, k - 1);
      AfterNext(inputs, k - 1);
    }
  }

  ghost predicate SameRows(a: seq<WindowRow>, b: seq<WindowRow>) { forall r :: r in a <==> r in b }

  /** At its offset the job is where the crash-free run is, and the sink holds exactly the
      rows of the crash-free run up to the furthest offset ever read. */
  ghost predicate OnTrack(inputs: seq<Input>, j: Job, furthest: nat)
    requires AllDecodable(inputs)
  {
    && j.saved.offset <= j.offset <= furthest <= |inputs|
    && j.op == After(inputs, j.offset).0
    && j.saved.op == After(inputs, j.saved.offset).0
    && SameRows(j.topic, After(inputs, furthest).1)
  }

  lemma PollStaysOnTrack(inputs: seq<Input>, j: Job, furthest: nat) returns (further: nat)
    requires AllDecodable(inputs) && OnTrack(inputs, j, furthest)
    ensures further >= furthest && OnTrack(inputs, JobStep(inputs, j, Poll), further)
  {
    further := furthest;
    if j.offset < |inputs| {
      AfterNext(inputs, j.offset);
      var rows := Consume(j.op, inputs[j.offset]).1;
      if j.offset == furthest {
        further := furthest + 1;
        forall r ensures r in j.topic + rows <==> r in After(inputs, further).1 { }
      } else {
        OutputGrows(inputs, j.offset + 1, furthest);
        var next, last := After(inputs, j.offset + 1).1, After(inputs, furthest).1;
        forall r | r in rows ensures r in last {
          assert r in next;
          assert last == next + last[|next|..];
        }
      }
    }
  }

  lemma {:induction false} JobStaysOnTrack(inputs: seq<Input>, events: seq<JobEvent>) returns (furthest: nat)
    requires AllDecodable(inputs)
    ensures OnTrack(inputs, RunJob(inputs, events), furthest)
  {
    if events == [] {
      furthest := 0;
      assert inputs[..0] == [];
    } else {
      var init := events[..|events| - 1];
      furthest := JobStaysOnTrack(inputs, init);
      if events[|events| - 1] == Poll {
        furthest := PollStaysOnTrack(inputs, RunJob(inputs, init), furthest);
      }
    }
  }

  /** For every pattern of checkpoints and crashes: at any moment the dashboard shows what
      it would show for some crash-free run, and once all inputs are read, operator state
      and dashboard are those of the run that never crashed. */
  lemma CrashAndReplayAreInvisible(inputs: seq<Input>, events: seq<JobEvent>, maxWindows: nat) returns (furthest: nat)
    requires ValidInputs(inputs)
    ensures AllDecodable(inputs)
    ensures var j := RunJob(inputs, events);
      && j.offset <= furthest <= |inputs|
      && j.op == After(inputs, j.offset).0
      && ReadRevenueWindows(j.topic, maxWindows) == ReadRevenueWindows(After(inputs, furthest).1, maxWindows)
    ensures RunJob(inputs, events).offset == |inputs| ==> furthest == |inputs| && After(inputs, furthest) == CrashFree(inputs)
  {
    ValidIsDecodable(inputs);
    furthest := JobStaysOnTrack(inputs, events);
    PrefixIsValidInput(inputs, furthest);
    EachWindowOnce(inputs[..furthest]);
    var out := After(inputs, furthest).1;
    OnceIsOneValue(out);
    SameRowsSameFrame(out, RunJob(inputs, events).topic, maxWindows);
    assert inputs[..|inputs|] == inputs;
  }

  // ---- progress ---------------------------------------------------------------------------------------

  function Polls(n: nat): seq<JobEvent> { if n == 0 then [] else Polls(n - 1) + [Poll] }

  lemma RunJobSnoc(inputs: seq<Input>, events: seq<JobEvent>, e: JobEvent)
    requires AllDecodable(inputs)
    ensures RunJob(inputs, events + [e]) == JobStep(inputs, RunJob(inputs, events), e)
  {
    assert (events + [e])[..|events|] == events;
  }

  lemma PollsSnoc(events: seq<JobEvent>, n: nat)
    requires n > 0
    ensures events + Polls(n) == events + Polls(n - 1) + [Poll]
  {
  }

  /** What was added to one list was added to the other. */
  predicate Written(before: seq<WindowRow>, out: seq<WindowRow>, topic: seq<WindowRow>, topic': seq<WindowRow>) {
    var written := before <= out && topic' == topic + out[|before|..];
    written
  }

  lemma WrittenMore(before: seq<WindowRow>, out: seq<WindowRow>, topic: seq<WindowRow>, topic': seq<WindowRow>, rows: seq<WindowRow>)
    requires Written(before, out, topic, topic')
    ensures Written(before, out + rows, topic, topic' + rows)
  {
    assert (out + rows)[|before|..] == out[|before|..] + rows;
  }

  /** Since offset `from`, where the sink held `topic`, the job has read on and written what
      the crash-free run writes. */
  predicate HasRead(inputs: seq<Input>, from: nat, topic: seq<WindowRow>, j: Job)
    requires AllDecodable(inputs)
  {
    from <= j.offset <= |inputs| &&
    var read := j.op == After(inputs, j.offset).0 && Written(After(inputs, from).1, After(inputs, j.offset).1, topic, j.topic);
    read
  }

  lemma PollStep(inputs: seq<Input>, j: Job) returns (rows: seq<WindowRow>)
    requires AllDecodable(inputs) && j.offset < |inputs| && j.op == After(inputs, j.offset).0
    ensures var j' := JobStep(inputs, j, Poll);
      j'.offset == j.offset + 1 && j'.op == After(inputs, j.offset + 1).0 && j'.topic == j.topic + rows
    ensures After(inputs, j.offset + 1).1 == After(inputs, j.offset).1 + rows
  {
    AfterNext(inputs, j.offset);
    rows := Consume(j.op, inputs[j.offset]).1;
  }

  lemma PollOnce(inputs: seq<Input>, from: nat, topic: seq<WindowRow>, j: Job)
    requires AllDecodable(inputs) && HasRead(inputs, from, topic, j)
    ensures var j' := JobStep(inputs, j, Poll);
      HasRead(inputs, from, topic, j') && j'.offset == if j.offset < |inputs| then j.offset + 1 else j.offset
  {
    if j.offset < |inputs| {
      var rows := PollStep(inputs, j);
      WrittenMore(After(inputs, from).1, After(inputs, j.offset).1, topic, j.topic, rows);
    }
  }

  lemma ReadOneMore(inputs: seq<Input>, j: Job, mid: Job, next: Job, n: nat)
    requires AllDecodable(inputs) && n > 0 && HasRead(inputs, j.offset, j.topic, mid) && next == JobStep(inputs, mid, Poll)
    requires mid.offset == if j.offset + n - 1 < |inputs| then j.offset + n - 1 else |inputs|
    ensures HasRead(inputs, j.offset, j.topic, next) && next.offset == if j.offset + n < |inputs| then j.offset + n else |inputs|
  {
    PollOnce(inputs, j.offset, j.topic, mid);
  }

  lemma NothingRead(inputs: seq<Input>, events: seq<JobEvent>)
    requires AllDecodable(inputs)
    ensures var j := RunJob(inputs, events); HasRead(inputs, j.offset, j.topic, j)
  {
    var _ := JobStaysOnTrack(inputs, events);
  }

  function ThenPolls(inputs: seq<Input>, j: Job, n: nat): Job
    requires AllDecodable(inputs)
  {
    if n == 0 then j else JobStep(inputs, ThenPolls(inputs, j, n - 1), Poll)
  }

  lemma {:induction false} RunsPolls(inputs: seq<Input>, events: seq<JobEvent>, all: seq<JobEvent>, n: nat)
    requires AllDecodable(inputs) && all == events + Polls(n)
    ensures RunJob(inputs, all) == ThenPolls(inputs, RunJob(inputs, events), n)
    decreases n
  {
    if n == 0 {
      assert all == events;
    } else {
      var init := events + Polls(n - 1);
      PollsSnoc(events, n);
      RunsPolls(inputs, events, init, n - 1);
      RunJobSnoc(inputs, init, Poll);
    }
  }

  lemma {:induction false} ThenPollsRead(inputs: seq<Input>, j: Job, n: nat)
    requires AllDecodable(inputs) && HasRead(inputs, j.offset, j.topic, j)
    ensures var j' := ThenPolls(inputs, j, n);
      HasRead(inputs, j.offset, j.topic, j') && j'.offset == if j.offset + n < |inputs| then j.offset + n else |inputs|
    decreases n
  {
    if n > 0 {
      ThenPollsRead(inputs, j, n - 1);
      ReadOneMore(inputs, j, ThenPolls(inputs, j, n - 1), ThenPolls(inputs, j, n), n);
    }
  }

  /** Whatever happened before, `n` polls read the next `n` inputs, or all that are left, and
      write what the crash-free run writes for them. */
  lemma PollsRead(inputs: seq<Input>, events: seq<JobEvent>, n: nat)
    requires AllDecodable(inputs)
    ensures var j, j' := RunJob(inputs, events), RunJob(inputs, events + Polls(n));
      HasRead(inputs, j.offset, j.topic, j') && j'.offset == if j.offset + n < |inputs| then j.offset + n else |inputs|
  {
    NothingRead(inputs, events);
    RunsPolls(inputs, events, events + Polls(n), n);
    ThenPollsRead(inputs, RunJob(inputs, events), n);
  }

  /** From the start, `n` polls are the crash-free run over the first `n` inputs. */
  lemma FirstPolls(inputs: seq<Input>, n: nat)
    requires AllDecodable(inputs) && n <= |inputs|
    ensures var j := RunJob(inputs, Polls(n)); j.offset == n && j.op == CrashFree(inputs[..n]).0 && j.topic == CrashFree(inputs[..n]).1
  {
    PollsRead(inputs, [], n);
    assert [] + Polls(n) == Polls(n);
    FromNothing(inputs, RunJob(inputs, Polls(n)));
  }

  lemma FromNothing(inputs: seq<Input>, j: Job)
    requires AllDecodable(inputs) && HasRead(inputs, 0, [], j)
    ensures j.op == CrashFree(inputs[..j.offset]).0 && j.topic == CrashFree(inputs[..j.offset]).1
  {
    assert inputs[..0] == [];
  }

  /** After any checkpoints and crashes the job catches up: as many polls as there are inputs
      bring it to the end, in the state of the run that never crashed and with its frame. */
  lemma EveryRunCatchesUp(inputs: seq<Input>, events: seq<JobEvent>, maxWindows: nat)
    requires ValidInputs(inputs)
    ensures AllDecodable(inputs)
    ensures var j := RunJob(inputs, events + Polls(|inputs|));
      && j.offset == |inputs| && j.op == CrashFree(inputs).0
      && ReadRevenueWindows(j.topic, maxWindows) == ReadRevenueWindows(CrashFree(inputs).1, maxWindows)
  {
    ValidIsDecodable(inputs);
    PollsRead(inputs, events, |inputs|);
    assert inputs[..|inputs|] == inputs;
    var _ := CrashAndReplayAreInvisible(inputs, events + Polls(|inputs|), maxWindows);
  }

  /** Event `k` is the last checkpoint; -1 if there was none. */
  ghost predicate IsLastCheckpoint(events: seq<JobEvent>, k: int) {
    && -1 <= k < |events| && (k >= 0 ==> events[k] == Checkpoint)
    && forall i :: k < i < |events| ==> events[i] != Checkpoint
  }

  /** A crash takes the job back to where it was at its last checkpoint, or to the start;
      what it has written stays. */
  lemma CrashResumesAtCheckpoint(inputs: seq<Input>, events: seq<JobEvent>, k: int)
    requires AllDecodable(inputs) && IsLastCheckpoint(events, k)
    ensures var j := RunJob(inputs, events + [Crash]);
      && j.offset == (if k < 0 then 0 else RunJob(inputs, events[..k]).offset)
      && j.op == (if k < 0 then INITIAL else RunJob(inputs, events[..k]).op)
      && j.topic == RunJob(inputs, events).topic
  {
    RunJobSnoc(inputs, events, Crash);
    SavedAtCheckpoint(inputs, events, k);
  }

  lemma {:induction false} SavedAtCheckpoint(inputs: seq<Input>, events: seq<JobEvent>, k: int)
    requires AllDecodable(inputs) && IsLastCheckpoint(events, k)
    ensures var saved := RunJob(inputs, events).saved;
      && saved.offset == (if k < 0 then 0 else RunJob(inputs, events[..k]).offset)
      && saved.op == (if k < 0 then INITIAL else RunJob(inputs, events[..k]).op)
  {
    if events != [] && k < |events| - 1 {
      var init := events[..|events| - 1];
      assert forall i :: 0 <= i < |init| ==> init[i] == events[i];
      SavedAtCheckpoint(inputs, init, k);
      if k >= 0 { assert init[..k] == events[..k]; }
      assert events[|events| - 1] != Checkpoint;
    }
  }

  lemma {:induction false} PrefixIsValidInput(inputs: seq<Input>, k: nat)
    requires ValidInputs(inputs) && k <= |inputs|
    ensures ValidInputs(inputs[..k])
  {
    if k == |inputs| {
      assert inputs[..k] == inputs;
    } else {
      assert inputs[..|inputs| - 1][..k] == inputs[..k];
      PrefixIsValidInput(inputs[..|inputs| - 1], k);
    }
  }

  lemma OnceIsOneValue(out: seq<WindowRow>)
    requires DistinctBy(out, StartOf)
    ensures OneValuePerWindow(out)
  {
  }

  // ---- the source's orders topic as input ------------------------------------------------------------

  function Events(inputs: seq<Input>): seq<Event<Order>> {
    if inputs == [] then []
    else
      var n := |inputs| - 1;
      Events(inputs[..n]) + if inputs[n].Record? then [inputs[n].event] else []
  }

  lemma {:induction false} ChangelogIsValidInput(inputs: seq<Input>)
    requires WellFormed(Events(inputs))
    ensures ValidInputs(inputs) && SpecRun(inputs).live == Replay(Events(inputs))
  {
    if inputs != [] {
      var init, i := inputs[..|inputs| - 1], inputs[|inputs| - 1];
      var log := Events(init);
      if i.Record? {
        assert Events(inputs)[..|log|] == log && Events(inputs)[|log|] == i.event;
        WellFormedPrefix(Events(inputs), |log|);
        ReplaySnoc(log, i.event);
      } else {
        assert Events(inputs) == log;
      }
      ChangelogIsValidInput(init);
    }
  }

  // ---- the minutes the job writes ----------------------------------------------------------------

  lemma {:induction false} EventsPrefix(inputs: seq<Input>, k: nat)
    requires k <= |inputs|
    ensures Events(inputs[..k]) <= Events(inputs)
  {
    if k < |inputs| {
      assert inputs[..|inputs| - 1][..k] == inputs[..k];
      EventsPrefix(inputs[..|inputs| - 1], k);
    } else {
      assert inputs[..k] == inputs;
    }
  }

  lemma PrefixOfChangelog(inputs: seq<Input>, k: nat)
    requires WellFormed(Events(inputs)) && k <= |inputs|
    ensures WellFormed(Events(inputs[..k]))
  {
    EventsPrefix(inputs, k);
    var n := |Events(inputs[..k])|;
    assert Events(inputs[..k]) == Events(inputs)[..n];
    WellFormedPrefix(Events(inputs), n);
  }

  lemma NextWrites(inputs: seq<Input>, k: nat)
    requires AllDecodable(inputs) && k < |inputs|
    ensures var (op, out) := CrashFree(inputs[..k]);
      CrashFree(inputs[..k + 1]).1 == out + if inputs[k].Tick? then Fire(op, inputs[k].watermark).1 else []
    ensures Highest(inputs[..k + 1]) == if inputs[k].Tick? then NextWatermark(CrashFree(inputs[..k]).0, inputs[k].watermark) else Highest(inputs[..k])
    ensures Highest(inputs[..k]) == CrashFree(inputs[..k]).0.watermark
  {
    AfterNext(inputs, k);
    WatermarkIsHighest(inputs[..k]);
    assert inputs[..k + 1][..k] == inputs[..k];
  }

  /** For every well-formed changelog and whatever watermarks: a record writes nothing, and a
      watermark writes, in time order, exactly the minutes that end under it and not under
      an earlier one, each with the number and total of the orders then live in it. */
  lemma MinutesAreWritten(inputs: seq<Input>, k: nat)
    requires WellFormed(Events(inputs)) && k < |inputs|
    ensures AllDecodable(inputs)
    ensures var before, now := CrashFree(inputs[..k]).1, CrashFree(inputs[..k + 1]).1;
      && before <= now
      && Ascending(now[|before|..])
      && forall r :: r in now[|before|..] <==>
           inputs[k].Tick? && IsMinute(r, Replay(Events(inputs[..k]))) && Highest(inputs[..k]) < r.end - 1 <= Highest(inputs[..k + 1])
  {
    ChangelogIsValidInput(inputs);
    ValidIsDecodable(inputs);
    NextWrites(inputs, k);
    AgreesAt(inputs, k);
    if inputs[k].Tick? {
      TickWrites(CrashFree(inputs[..k]).0, Replay(Events(inputs[..k])), inputs[k].watermark);
    }
  }

  lemma AgreesAt(inputs: seq<Input>, k: nat)
    requires WellFormed(Events(inputs)) && k < |inputs| && AllDecodable(inputs)
    ensures Agrees(CrashFree(inputs[..k]).0, Replay(Events(inputs[..k])))
  {
    PrefixOfChangelog(inputs, k);
    ChangelogIsValidInput(inputs[..k]);
    IncrementalIsRecompute(inputs[..k]);
  }

  lemma TickWrites(op: Operator, live: map<int, Order>, w: int)
    requires Agrees(op, live)
    ensures Ascending(Fire(op, w).1)
    ensures forall r :: r in Fire(op, w).1 <==> IsMinute(r, live) && op.watermark < r.end - 1 <= NextWatermark(op, w)
  {
    FireIsRecompute(op, live, w);
    EmitAscends(Due(op.accs, NextWatermark(op, w)), op.accs);
    forall r ensures r in Fire(op, w).1 <==> IsMinute(r, live) && op.watermark < r.end - 1 <= NextWatermark(op, w) {
      RecomputeHas(live, op.watermark, NextWatermark(op, w), r);
    }
  }

  /** Meanwhile a minute that has not ended holds the number and total of the orders live in it. */
  lemma OpenMinutes(inputs: seq<Input>, start: int)
    requires WellFormed(Events(inputs)) && start % 60_000 == 0 && Highest(inputs) < start + 60_000 - 1
    ensures AllDecodable(inputs)
    ensures var rows := Between(Replay(Events(inputs)), start, start + 60_000);
      AccOf(CrashFree(inputs).0.accs, start) == Acc(|rows|, MapSum(rows, TotalAmount))
  {
    ChangelogIsValidInput(inputs);
    IncrementalIsRecompute(inputs);
    WatermarkIsHighest(inputs);
    MinuteSums(Replay(Events(inputs)), start);
  }

  lemma WellFormedPrefix(log: seq<Event<Order>>, k: nat)
    requires WellFormed(log) && k <= |log|
    ensures WellFormed(log[..k])
  {
    forall i | 0 <= i < k ensures Follows(Replay(log[..k][..i]), log[..k][i]) { assert log[..k][..i] == log[..i]; }
  }
}
