/** The log pipeline of an executor: a bounded buffer drained by a serial chain of flush steps.
    A line is named by its place in log order. */
module LogPipeline {
  const FLUSH_THRESHOLD := 50
  const FLUSH_QUEUE_MAX := 4
  const BUFFER_MAX := 1000

  /** A flush that joined the chain, and how many lines had been logged when it was called. */
  datatype Step = Step(upTo: nat, mandatory: bool)

  /** `steps` is every flush that ever joined; the first `begun` of them have started and the
      first `finished` have settled. `sent` is history: the lines of settled appends, in order. */
  datatype Pipeline = Pipeline(
    logged: nat, buffer: seq<nat>, steps: seq<Step>, begun: nat, finished: nat, flying: seq<nat>,
    sent: seq<nat>, delivered: set<nat>, lost: set<nat>, dropped: set<nat>)

  datatype Event = LineLogged | FlushCalled(mandatory: bool) | StepBegins | AppendSettles(ok: bool)

  const Empty: Pipeline := Pipeline(0, [], [], 0, 0, [], [], {}, {}, {})

  /* ---- the transitions ---- */

  function Waiting(p: Pipeline): int {
    |p.steps| - p.begun
  }

  /** A flush on an empty buffer returns at once; an opportunistic one is refused by a full queue. */
  predicate Joins(p: Pipeline, mandatory: bool) {
    p.buffer != [] && (mandatory || Waiting(p) < FLUSH_QUEUE_MAX)
  }

  function Flush(p: Pipeline, mandatory: bool): Pipeline {
    if Joins(p, mandatory) then p.(steps := p.steps + [Step(p.logged, mandatory)]) else p
  }

  function Push(p: Pipeline): Pipeline {
    p.(logged := p.logged + 1, buffer := p.buffer + [p.logged])
  }

  /** Past the bound the oldest lines go, straight back to half of it. */
  function Trim(p: Pipeline): Pipeline {
    if |p.buffer| > BUFFER_MAX then
      var cut := |p.buffer| - BUFFER_MAX / 2;
      p.(buffer := p.buffer[cut..], dropped := p.dropped + set n | n in p.buffer[..cut])
    else p
  }

  function Append(p: Pipeline): Pipeline {
    Trim(Push(p))
  }

  function Log(p: Pipeline): Pipeline {
    var q := Append(p);
    if |q.buffer| >= FLUSH_THRESHOLD then Flush(q, false) else q
  }

  function Begin(p: Pipeline): Pipeline {
    if p.buffer == [] then p.(begun := p.begun + 1, finished := p.finished + 1)
    else p.(begun := p.begun + 1, flying := p.buffer, buffer := [])
  }

  function Settle(p: Pipeline, ok: bool): Pipeline {
    var lines := set n | n in p.flying;
    p.(finished := p.finished + 1, sent := p.sent + p.flying, flying := [],
       delivered := if ok then p.delivered + lines else p.delivered,
       lost := if ok then p.lost else p.lost + lines)
  }

  /** The chain runs one step at a time. */
  predicate Enabled(p: Pipeline, e: Event) {
    match e
    case LineLogged => true
    case FlushCalled(_) => true
    case StepBegins => p.begun == p.finished < |p.steps|
    case AppendSettles(_) => p.begun == p.finished + 1
  }

  function Next(p: Pipeline, e: Event): Pipeline
    requires Enabled(p, e)
  {
    match e
    case LineLogged => Log(p)
    case FlushCalled(mandatory) => Flush(p, mandatory)
    case StepBegins => Begin(p)
    case AppendSettles(ok) => Settle(p, ok)
  }

  predicate Run(p: Pipeline, es: seq<Event>)
    decreases es
  {
    es == [] || (Enabled(p, es[0]) && Run(Next(p, es[0]), es[1..]))
  }

  function After(p: Pipeline, es: seq<Event>): Pipeline
    requires Run(p, es)
    decreases es
  {
    if es == [] then p else After(Next(p, es[0]), es[1..])
  }

  /* ---- what every interleaving keeps ---- */

  predicate Ascending(s: seq<nat>) {
    forall i, j :: 0 <= i < j < |s| ==> s[i] < s[j]
  }

  function InOrder(p: Pipeline): seq<nat> {
    p.sent + p.flying + p.buffer
  }

  predicate Chained(p: Pipeline) {
    && p.finished <= p.begun <= |p.steps| && p.begun <= p.finished + 1
    && (p.flying != [] <==> p.begun == p.finished + 1)
  }

  ghost predicate Accounted(p: Pipeline) {
    && Ascending(InOrder(p))
    && (forall n: nat :: n < p.logged <==> n in InOrder(p) || n in p.dropped)
    && (forall n :: n in p.dropped ==> n !in InOrder(p))
    && (forall n :: n in p.sent <==> n in p.delivered || n in p.lost)
    && p.delivered !! p.lost
  }

  /** Lines are given up from the old end, and a flush leaves nothing older than its call behind. */
  predicate Covered(p: Pipeline) {
    && (forall d, n :: d in p.dropped && n in p.buffer ==> d < n)
    && (forall k, n :: 0 <= k < p.begun <= |p.steps| && n in p.buffer ==> p.steps[k].upTo <= n)
    && (forall k, n :: 0 <= k < p.finished <= |p.steps| && n in p.flying ==> p.steps[k].upTo <= n)
    && (forall k :: 0 <= k < |p.steps| ==> p.steps[k].upTo <= p.logged)
  }

  predicate Bounded(p: Pipeline) {
    && |p.buffer| <= BUFFER_MAX
    && forall k :: p.begun <= k < |p.steps| && !p.steps[k].mandatory ==> k - p.begun < FLUSH_QUEUE_MAX
  }

  ghost predicate Sound(p: Pipeline) {
    Chained(p) && Accounted(p) && Covered(p) && Bounded(p)
  }

  lemma AscendingApart(a: seq<nat>, b: seq<nat>, x: nat, y: nat)
    requires Ascending(a + b) && x in a && y in b
    ensures x < y
  {
    var i :| 0 <= i < |a| && a[i] == x;
    var j :| 0 <= j < |b| && b[j] == y;
    assert (a + b)[i] == x && (a + b)[|a| + j] == y;
  }

  lemma PushAccounted(p: Pipeline)
    requires Accounted(p)
    ensures Accounted(Push(p))
  {
    assert InOrder(Push(p)) == InOrder(p) + [p.logged];
    assert forall i :: 0 <= i < |InOrder(p)| ==> InOrder(p)[i] in InOrder(p);
  }

  lemma CutAscending(head: seq<nat>, gone: seq<nat>, kept: seq<nat>)
    requires Ascending(head + gone + kept)
    ensures Ascending(head + kept)
    ensures forall n :: n in gone ==> n !in head + kept
    ensures forall n, d :: n in kept && d in head + gone ==> d < n
  {
    var all := head + gone + kept;
    assert forall i :: 0 <= i < |head| ==> head[i] == all[i];
    assert forall i :: 0 <= i < |kept| ==> kept[i] == all[|head + gone| + i];
    forall n | n in gone ensures n !in head + kept {
      assert all == head + (gone + kept);
      if n in head { AscendingApart(head, gone + kept, n, n); }
      if n in kept { AscendingApart(head + gone, kept, n, n); }
    }
    forall n, d | n in kept && d in head + gone ensures d < n {
      AscendingApart(head + gone, kept, d, n);
    }
  }

  lemma TrimAccounted(p: Pipeline, head: seq<nat>, cut: nat)
    requires Accounted(p) && |p.buffer| > BUFFER_MAX
    requires head == p.sent + p.flying && cut == |p.buffer| - BUFFER_MAX / 2
    ensures Accounted(Trim(p))
    ensures forall n, d :: n in Trim(p).buffer && d in p.buffer[..cut] ==> d < n
  {
    var q, gone, kept := Trim(p), p.buffer[..cut], p.buffer[cut..];
    assert InOrder(p) == head + gone + kept && InOrder(q) == head + kept;
    CutAscending(head, gone, kept);
    assert forall n :: n in InOrder(p) <==> n in InOrder(q) || n in gone;
    assert forall n :: n in q.dropped <==> n in p.dropped || n in gone;
    assert forall n, d :: n in q.buffer && d in gone ==> d in head + gone;
  }

  lemma TrimCovered(p: Pipeline)
    requires Accounted(p) && Covered(p) && |p.buffer| > BUFFER_MAX
    ensures Covered(Trim(p))
  {
    var q, cut := Trim(p), |p.buffer| - BUFFER_MAX / 2;
    TrimAccounted(p, p.sent + p.flying, cut);
    assert forall n :: n in q.buffer ==> n in p.buffer;
    assert forall n :: n in q.dropped <==> n in p.dropped || n in p.buffer[..cut];
  }

  lemma AppendKeepsSound(p: Pipeline)
    requires Sound(p)
    ensures Sound(Append(p))
  {
    var m := Push(p);
    PushAccounted(p);
    assert forall n :: n in p.buffer || n in p.dropped ==> n < p.logged by {
      assert forall n :: n in p.buffer ==> n in InOrder(p);
    }
    assert forall n :: n in m.buffer <==> n in p.buffer || n == p.logged;
    assert Covered(m);
    if |m.buffer| > BUFFER_MAX {
      TrimAccounted(m, m.sent + m.flying, |m.buffer| - BUFFER_MAX / 2);
      TrimCovered(m);
    }
  }

  lemma FlushKeepsSound(p: Pipeline, mandatory: bool)
    requires Sound(p)
    ensures Sound(Flush(p, mandatory))
  {
    assert InOrder(Flush(p, mandatory)) == InOrder(p);
  }

  lemma BeginKeepsSound(p: Pipeline)
    requires Sound(p) && Enabled(p, StepBegins)
    ensures Sound(Begin(p))
  {
    var q := Begin(p);
    assert InOrder(q) == InOrder(p);
  }

  lemma SettleKeepsSound(p: Pipeline, ok: bool)
    requires Sound(p) && Enabled(p, AppendSettles(ok))
    ensures Sound(Settle(p, ok))
  {
    var q := Settle(p, ok);
    assert InOrder(q) == InOrder(p);
    forall n | n in p.sent ensures n !in p.flying {
      if n in p.flying {
        assert InOrder(p) == p.sent + (p.flying + p.buffer);
        AscendingApart(p.sent, p.flying + p.buffer, n, n);
      }
    }
  }

  /** Every interleaving of logging, flush calls, chain steps and replies keeps the pipeline sound. */
  lemma {:induction false} PipelineSound(p: Pipeline, es: seq<Event>)
    requires Sound(p) && Run(p, es)
    ensures Sound(After(p, es))
    decreases es
  {
    if es != [] {
      NextKeepsSound(p, es[0]);
      PipelineSound(Next(p, es[0]), es[1..]);
    }
  }

  lemma NextKeepsSound(p: Pipeline, e: Event)
    requires Sound(p) && Enabled(p, e)
    ensures Sound(Next(p, e))
  {
    match e
    case LineLogged =>
      AppendKeepsSound(p);
      FlushKeepsSound(Append(p), false);
    case FlushCalled(mandatory) => FlushKeepsSound(p, mandatory);
    case StepBegins => BeginKeepsSound(p);
    case AppendSettles(ok) => SettleKeepsSound(p, ok);
  }

  /* ---- the promises ---- */

  /** How many of the five fates a line has met. */
  function Fates(p: Pipeline, n: nat): nat {
    (if n in p.buffer then 1 else 0) + (if n in p.flying then 1 else 0)
    + (if n in p.delivered then 1 else 0) + (if n in p.lost then 1 else 0) + (if n in p.dropped then 1 else 0)
  }

  /** At every moment every logged line is in exactly one of the buffer, the append in flight,
      the delivered lines, the lines of failed appends and the lines given up by overflow. */
  lemma EachLineHasOneFate(es: seq<Event>, n: nat)
    requires Run(Empty, es)
    ensures Fates(After(Empty, es), n) == if n < After(Empty, es).logged then 1 else 0
  {
    PipelineSound(Empty, es);
    var p := After(Empty, es);
    var s := InOrder(p);
    if n in p.buffer {
      var i :| 0 <= i < |p.buffer| && p.buffer[i] == n;
      assert s[|p.sent + p.flying| + i] == n;
    }
    if n in p.flying {
      var i :| 0 <= i < |p.flying| && p.flying[i] == n;
      assert s[|p.sent| + i] == n;
    }
    if n in p.sent {
      var i :| 0 <= i < |p.sent| && p.sent[i] == n;
      assert s[i] == n;
    }
    assert n in s <==> n in p.sent || n in p.flying || n in p.buffer;
  }

  /** Lines reach the database in log order, whatever was dropped or lost; the buffer never holds
      more than its bound; an opportunistic flush never waits behind more than three others. */
  lemma OrderAndBounds(es: seq<Event>)
    requires Run(Empty, es)
    ensures var p := After(Empty, es);
      && Ascending(p.sent + p.flying + p.buffer)
      && |p.buffer| <= 1000
      && (forall k :: p.begun <= k < |p.steps| && !p.steps[k].mandatory ==> k - p.begun < 4)
  {
    PipelineSound(Empty, es);
  }

  /* ---- when a flush starts ---- */

  /** A full batch has a flush waiting for it. */
  predicate Attended(p: Pipeline) {
    |p.buffer| >= 50 ==> p.begun < |p.steps|
  }

  lemma {:induction false} RunKeepsAttended(p: Pipeline, es: seq<Event>)
    requires Sound(p) && Attended(p) && Run(p, es)
    ensures Attended(After(p, es))
    decreases es
  {
    if es != [] {
      NextKeepsSound(p, es[0]);
      RunKeepsAttended(Next(p, es[0]), es[1..]);
    }
  }

  /** At no moment are fifty lines buffered without a flush waiting to take them. */
  lemma FullBatchIsFlushed(es: seq<Event>)
    requires Run(Empty, es)
    ensures var p := After(Empty, es); |p.buffer| >= 50 ==> p.begun < |p.steps|
  {
    RunKeepsAttended(Empty, es);
  }

  /** A line that leaves fifty or more in the buffer calls an opportunistic flush, which joins unless
      four are waiting; so the fiftieth line of an idle pipeline starts one, and no earlier line does. */
  lemma FiftiethLineFlushes(p: Pipeline)
    ensures var q := Next(p, LineLogged);
      && (|q.buffer| < 50 ==> q.steps == p.steps)
      && (|q.buffer| >= 50 ==> q.steps == if |p.steps| - p.begun < 4 then p.steps + [Step(p.logged + 1, false)] else p.steps)
      && q.logged == p.logged + 1 && q.begun == p.begun && q.flying == p.flying
      && (|p.buffer| < 1000 ==> q.buffer == p.buffer + [p.logged] && q.dropped == p.dropped)
      && (|p.buffer| == 1000 ==> |q.buffer| == 500 && q.buffer == p.buffer[501..] + [p.logged]
                                 && forall n :: n in q.dropped <==> n in p.dropped || n in p.buffer[..501])
  {
    if |p.buffer| == 1000 {
      assert (p.buffer + [p.logged])[501..] == p.buffer[501..] + [p.logged];
      assert (p.buffer + [p.logged])[..501] == p.buffer[..501];
    }
  }

  /** A flush joins the chain when there is something buffered and it is awaited, or fewer than four
      wait; the step that begins takes all that is buffered by then, and settles at once if nothing is. */
  lemma FlushJoins(p: Pipeline, mandatory: bool)
    ensures Next(p, FlushCalled(mandatory))
      == if p.buffer != [] && (mandatory || |p.steps| - p.begun < 4) then p.(steps := p.steps + [Step(p.logged, mandatory)]) else p
    ensures p.begun == p.finished < |p.steps| ==>
      var q := Next(p, StepBegins);
      && q.begun == p.begun + 1 && q.buffer == [] && q.steps == p.steps
      && (p.buffer != [] ==> q.flying == p.buffer && q.finished == p.finished)
      && (p.buffer == [] ==> q.flying == p.flying && q.finished == p.finished + 1)
  {
  }

  /** An append that succeeds delivers its lines, one that fails loses them; either lets the next go. */
  lemma AppendSettlesLines(p: Pipeline, ok: bool, n: nat)
    requires Enabled(p, AppendSettles(ok)) && n in p.flying
    ensures var q := Next(p, AppendSettles(ok));
      && (n in q.delivered <==> ok || n in p.delivered) && (n in q.lost <==> !ok || n in p.lost)
      && q.finished == p.finished + 1 && q.flying == [] && q.buffer == p.buffer
  {
  }

  predicate Closed(p: Pipeline, n: nat) {
    n in p.delivered || n in p.lost || n in p.dropped
  }

  lemma {:induction false} StepsKeepTheirPlace(p: Pipeline, es: seq<Event>)
    requires Run(p, es)
    ensures p.steps <= After(p, es).steps && p.logged <= After(p, es).logged
    decreases es
  {
    if es != [] {
      assert p.steps <= Next(p, es[0]).steps;
      StepsKeepTheirPlace(Next(p, es[0]), es[1..]);
    }
  }

  /** Awaiting a mandatory flush called on a non-empty buffer: once its step has settled, the
      append of every line logged before the call has settled too, or the line was dropped. */
  lemma AwaitedFlushCovers(es: seq<Event>, fs: seq<Event>, n: nat)
    requires Run(Empty, es) && After(Empty, es).buffer != []
    requires Run(Next(After(Empty, es), FlushCalled(true)), fs)
    requires n < After(Empty, es).logged
    requires |After(Empty, es).steps| < After(Next(After(Empty, es), FlushCalled(true)), fs).finished
    ensures Closed(After(Next(After(Empty, es), FlushCalled(true)), fs), n)
  {
    PipelineSound(Empty, es);
    var p := After(Empty, es);
    var k, q := |p.steps|, Next(p, FlushCalled(true));
    FlushKeepsSound(p, true);
    PipelineSound(q, fs);
    StepsKeepTheirPlace(q, fs);
    var r := After(q, fs);
    assert r.steps[k] == q.steps[k] == Step(p.logged, true);
    assert n in InOrder(r) || n in r.dropped;
    assert n !in r.buffer && n !in r.flying;
  }

  /** A mandatory flush on an empty buffer returns at once, so it covers the earlier lines exactly
      when no append is in flight. */
  lemma ReturnAtOnceCoversIffIdle(es: seq<Event>)
    requires Run(Empty, es) && After(Empty, es).buffer == []
    ensures var p := After(Empty, es);
      && Next(p, FlushCalled(true)) == p
      && ((forall n: nat :: n < p.logged ==> Closed(p, n)) <==> p.begun == p.finished)
  {
    PipelineSound(Empty, es);
    var p := After(Empty, es);
    if p.begun == p.finished {
      forall n: nat | n < p.logged ensures Closed(p, n) {
        assert n in InOrder(p) || n in p.dropped;
      }
    } else {
      var n := p.flying[0];
      assert InOrder(p)[|p.sent|] == n;
      assert n in InOrder(p);
      EachLineHasOneFate(es, n);
      assert n < p.logged && !Closed(p, n);
    }
  }

  /** Such a state is reached by one line whose flush has begun: a mandatory flush then returns at
      once with that line's append still in flight. */
  lemma ReturnAtOnceLeavesLine()
    ensures var es := [LineLogged, FlushCalled(true), StepBegins];
      && Run(Empty, es) && After(Empty, es).buffer == []
      && Next(After(Empty, es), FlushCalled(true)) == After(Empty, es)
      && After(Empty, es).logged == 1 && !Closed(After(Empty, es), 0)
  {
    var es := [LineLogged, FlushCalled(true), StepBegins];
    var p1 := Next(Empty, LineLogged);
    assert p1.buffer == [0] && p1.steps == [];
    var p2 := Next(p1, FlushCalled(true));
    var p3 := Next(p2, StepBegins);
    assert es[1..] == [FlushCalled(true), StepBegins] && es[1..][1..] == [StepBegins] && es[1..][1..][1..] == [];
    assert Run(p3, []) && Run(p2, [StepBegins]) && Run(p1, [FlushCalled(true), StepBegins]);
    assert After(p3, []) == p3 && After(p2, [StepBegins]) == p3 && After(p1, [FlushCalled(true), StepBegins]) == p3;
  }

  /* ---- the object ---- */

  class LogShipper {
    var logged: nat
    var logBuffer: seq<nat>
    var flushQueued: nat
    // The chain: the batch in flight, if any, and the steps behind it.
    var inFlight: seq<nat>
    ghost var past: Pipeline

    ghost predicate Valid()
      reads this
    {
      && past.logged == logged && past.buffer == logBuffer && past.flying == inFlight
      && flushQueued == Waiting(past) && Sound(past)
    }

    constructor ()
      ensures Valid() && past == Empty
    {
      logged, logBuffer, flushQueued, inFlight, past := 0, [], 0, [], Empty;
    }

    method Log()
      requires Valid()
      modifies this
      ensures Valid() && past == Next(old(past), LineLogged)
    {
      NextKeepsSound(past, LineLogged);
      ghost var appended := Append(past);
      AppendKeepsSound(past);
      logBuffer := logBuffer + [logged];
      logged := logged + 1;
      if |logBuffer| > BUFFER_MAX {
        logBuffer := logBuffer[|logBuffer| - BUFFER_MAX / 2..];
      }
      past := appended;
      if |logBuffer| >= FLUSH_THRESHOLD {
        FlushLogs(false);
      }
    }

    method FlushLogs(mandatory: bool)
      requires Valid()
      modifies `flushQueued, `past
      ensures Valid() && past == Next(old(past), FlushCalled(mandatory))
    {
      FlushKeepsSound(past, mandatory);
      past := Flush(past, mandatory);
      if |logBuffer| == 0 { return; }
      if !mandatory && flushQueued >= FLUSH_QUEUE_MAX { return; }
      flushQueued := flushQueued + 1;
    }

    /** The head of the chain runs once the step before it has settled. */
    method FlushOnce() returns (batch: seq<nat>)
      requires Valid() && flushQueued > 0 && inFlight == []
      modifies this
      ensures Valid() && past == Next(old(past), StepBegins)
      ensures batch == old(logBuffer) && logBuffer == []
    {
      BeginKeepsSound(past);
      past := Begin(past);
      flushQueued := flushQueued - 1;
      batch := logBuffer;
      inFlight, logBuffer := batch, [];
    }

    method AppendSettled(ok: bool)
      requires Valid() && inFlight != []
      modifies this
      ensures Valid() && past == Next(old(past), AppendSettles(ok))
    {
      SettleKeepsSound(past, ok);
      past := Settle(past, ok);
      inFlight := [];
    }
  }
}
