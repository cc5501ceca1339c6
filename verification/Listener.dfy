/** The background listener of live-search: `run_pg_listener`, `resync_after_reconnect`
    and `forward_notification`. `React` says what it does with one answer
    from its environment; the class runs its loops and is proved to
    follow `React` answer by answer. */
module Listener {
  import opened Prelude
  import opened Rows

  const BACKOFF_FLOOR_MS: nat := 250
  const MAX_BACKOFF_MS: nat := 30_000
  const RESYNC_BATCH_SIZE: nat := 100

  /** Where the listener is waiting. */
  datatype Phase =
    | Connecting
    | Replaying(cursor: int, replayedAny: bool)
    | Live
    | Stopped

  /** The outcome of looking up the row a notification names. */
  datatype Lookup = BadPayload | LookupFailed | Gone | Found(row: Row)

  /** One answer of the environment. */
  datatype Answer =
    | Connected
    | ConnectFailed
    | Page(rows: seq<Row>)
    | PageFailed
    | Notified(lookup: Lookup)
    | ReceiveFailed
    | ShutdownRequested

  /** `broadcast` lists the rows sent to subscribers, `bumps` counts calls of
      `invalidate_all`, `sleeps` the delays slept after failures. */
  datatype State = State(
    phase: Phase,
    lastSeen: int,
    broadcast: seq<Row>,
    bumps: nat,
    backoff: nat,
    sleeps: seq<nat>)

  const START := State(Connecting, 0, [], 0, BACKOFF_FLOOR_MS, [])

  /** Which answers the listener can receive where it waits. */
  predicate Expects(phase: Phase, a: Answer) {
    match phase
    case Connecting => a.Connected? || a.ConnectFailed? || a.ShutdownRequested?
    case Replaying(_, _) => a.Page? || a.PageFailed?
    case Live => a.Notified? || a.ReceiveFailed? || a.ShutdownRequested?
    case Stopped => false
  }

  function LastSeq(cursor: int, rows: seq<Row>): int {
    if rows == [] then cursor else rows[|rows| - 1].eventSeq
  }

  function SleepAndRetry(l: State): State {
    l.(phase := Connecting, sleeps := l.sleeps + [l.backoff], backoff := Min(l.backoff * 2, MAX_BACKOFF_MS))
  }

  function TakePage(l: State, rows: seq<Row>): State
    requires l.phase.Replaying?
  {
    var cursor := LastSeq(l.phase.cursor, rows);
    var any := l.phase.replayedAny || rows != [];
    var sent := l.(broadcast := l.broadcast + rows);
    if |rows| < RESYNC_BATCH_SIZE then
      sent.(phase := Live, lastSeen := cursor, bumps := if any then l.bumps + 1 else l.bumps)
    else
      sent.(phase := Replaying(cursor, any))
  }

  predicate Forwards(lastSeen: int, lookup: Lookup) {
    lookup.Found? && lookup.row.eventSeq > lastSeen
  }

  function TakeNotification(l: State, lookup: Lookup): State {
    var reset := l.(backoff := BACKOFF_FLOOR_MS);
    if Forwards(l.lastSeen, lookup) then
      reset.(broadcast := l.broadcast + [lookup.row], bumps := l.bumps + 1, lastSeen := lookup.row.eventSeq)
    else
      reset
  }

  function React(l: State, a: Answer): State
    requires Expects(l.phase, a)
  {
    match a
    case Connected => l.(phase := Replaying(l.lastSeen, false), backoff := BACKOFF_FLOOR_MS)
    case ConnectFailed => SleepAndRetry(l)
    case Page(rows) => TakePage(l, rows)
    case PageFailed => l.(phase := Live)
    case Notified(lookup) => TakeNotification(l, lookup)
    case ReceiveFailed => SleepAndRetry(l)
    case ShutdownRequested => l.(phase := Stopped)
  }

  /** `answers` come in an order the listener can receive them, starting from `l`. */
  predicate Conforms(l: State, answers: seq<Answer>)
    decreases |answers|, 0
  {
    answers == [] ||
    (var n := |answers| - 1;
     Conforms(l, answers[..n]) && Expects(After(l, answers[..n]).phase, answers[n]))
  }

  function After(l: State, answers: seq<Answer>): State
    requires Conforms(l, answers)
    decreases |answers|, 1
  {
    if answers == [] then l
    else
      var n := |answers| - 1;
      React(After(l, answers[..n]), answers[n])
  }

  lemma {:induction false} PrefixConforms(l: State, answers: seq<Answer>, n: nat)
    requires Conforms(l, answers) && n <= |answers|
    ensures Conforms(l, answers[..n])
    decreases |answers|
  {
    if n == |answers| {
      assert answers[..n] == answers;
    } else {
      var m := |answers| - 1;
      PrefixConforms(l, answers[..m], n);
      assert answers[..m][..n] == answers[..n];
    }
  }

  lemma OneMore(l: State, answers: seq<Answer>, n: nat)
    requires Conforms(l, answers) && n < |answers|
    ensures Conforms(l, answers[..n]) && Conforms(l, answers[..n + 1])
    ensures Expects(After(l, answers[..n]).phase, answers[n])
    ensures After(l, answers[..n + 1]) == React(After(l, answers[..n]), answers[n])
  {
    PrefixConforms(l, answers, n);
    PrefixConforms(l, answers, n + 1);
    assert answers[..n + 1][..n] == answers[..n];
  }

  // ---- Failures are retried ----

  /** In every run the listener has stopped exactly when shutdown was requested. */
  lemma {:induction false} StoppedExactlyOnShutdown(answers: seq<Answer>)
    requires Conforms(START, answers)
    ensures After(START, answers).phase.Stopped? <==> ShutdownRequested in answers
    decreases |answers|
  {
    if answers == [] {
    } else {
      var n := |answers| - 1;
      StoppedExactlyOnShutdown(answers[..n]);
      assert answers == answers[..n] + [answers[n]];
    }
  }

  /** After a failed connect or receive the listener keeps its position, sleeps once, and
      goes on to the next connect, which starts a replay from that position. */
  lemma FailureIsRetried(answers: seq<Answer>)
    requires Conforms(START, answers) && answers != []
    requires answers[|answers| - 1] == ConnectFailed || answers[|answers| - 1] == ReceiveFailed
    ensures Conforms(START, answers[..|answers| - 1]) && Conforms(START, answers + [Connected])
    ensures var before, l, next :=
        After(START, answers[..|answers| - 1]), After(START, answers), After(START, answers + [Connected]);
      && l.phase.Connecting? && l.lastSeen == before.lastSeen && l.broadcast == before.broadcast
      && |l.sleeps| == |before.sleeps| + 1
      && next.phase == Replaying(before.lastSeen, false)
  {
    assert (answers + [Connected])[..|answers|] == answers;
  }

  // ---- The loops themselves ----

  class PgListener {
    var lastSeenSeq: int
    var backoff: nat
    var phase: Phase
    /** What has gone out on the broadcast channel. */
    var channel: seq<Row>
    /** Calls of `cache.invalidate_all()`. */
    var bumps: nat
    var sleeps: seq<nat>

    function Now(): State
      reads this
    {
      State(phase, lastSeenSeq, channel, bumps, backoff, sleeps)
    }

    constructor ()
      ensures Now() == START
    {
      phase, lastSeenSeq, channel, bumps := Connecting, 0, [], 0;
      backoff, sleeps := BACKOFF_FLOOR_MS, [];
    }

    method SleepBeforeRetry()
      modifies this
      ensures Now() == SleepAndRetry(old(Now()))
    {
      sleeps := sleeps + [backoff];
      backoff := Min(backoff * 2, MAX_BACKOFF_MS);
      phase := Connecting;
    }

    /** One batch of replay: every row goes out, then the cursor stands on the last one. */
    method BroadcastBatch(rows: seq<Row>, start: int, any: bool) returns (cursor: int, replayedAny: bool)
      modifies this`channel
      ensures channel == old(channel) + rows
      ensures cursor == LastSeq(start, rows) && replayedAny == (any || rows != [])
    {
      cursor, replayedAny := start, any;
      for i := 0 to |rows|
        invariant channel == old(channel) + rows[..i]
        invariant cursor == LastSeq(start, rows[..i]) && replayedAny == (any || i > 0)
      {
        channel := channel + [rows[i]];
        cursor := rows[i].eventSeq;
        replayedAny := true;
        assert rows[..i + 1] == rows[..i] + [rows[i]];
      }
      assert rows[..|rows|] == rows;
    }

    /** `resync_after_reconnect`, fed with the answers of its queries from `pos` on.
        It returns when replay has finished or failed, or the answers run out. */
    method Resync(ghost start: State, answers: seq<Answer>, pos: nat) returns (next: nat)
      requires Conforms(start, answers) && pos <= |answers|
      requires Conforms(start, answers[..pos]) && Now() == After(start, answers[..pos])
      requires phase.Replaying?
      modifies this
      ensures pos <= next <= |answers| && Conforms(start, answers[..next])
      ensures Now() == After(start, answers[..next])
      ensures next == |answers| || phase.Live?
    {
      var cursor, replayedAny := phase.cursor, phase.replayedAny;
      next := pos;
      while next < |answers|
        invariant pos <= next <= |answers| && Conforms(start, answers[..next])
        invariant phase == Replaying(cursor, replayedAny)
        invariant Now() == After(start, answers[..next])
      {
        OneMore(start, answers, next);
        var answer := answers[next];
        next := next + 1;
        if answer.PageFailed? {
          phase := Live;
          return;
        }
        cursor, replayedAny := BroadcastBatch(answer.rows, cursor, replayedAny);
        phase := Replaying(cursor, replayedAny);
        if |answer.rows| < RESYNC_BATCH_SIZE {
          if replayedAny {
            bumps := bumps + 1;
          }
          lastSeenSeq := cursor;
          phase := Live;
          return;
        }
      }
    }

    /** `forward_notification`: the sequence number the listener moves to, if any. */
    method ForwardNotification(lookup: Lookup) returns (moved: Option<int>)
      modifies this`channel, this`bumps
      ensures moved == if Forwards(lastSeenSeq, lookup) then Some(lookup.row.eventSeq) else None
      ensures channel == if moved.Some? then old(channel) + [lookup.row] else old(channel)
      ensures bumps == if moved.Some? then old(bumps) + 1 else old(bumps)
    {
      match lookup
      case BadPayload => moved := None;
      case LookupFailed => moved := None;
      case Gone => moved := None;
      case Found(row) =>
        if row.eventSeq <= lastSeenSeq {
          moved := None;
        } else {
          channel := channel + [row];
          bumps := bumps + 1;
          moved := Some(row.eventSeq);
        }
    }

    /** A received notification resets the delay and may move the position. */
    method TakeOne(lookup: Lookup)
      requires phase.Live?
      modifies this
      ensures Now() == React(old(Now()), Notified(lookup)) && phase.Live?
    {
      backoff := BACKOFF_FLOOR_MS;
      var moved := ForwardNotification(lookup);
      if moved.Some? {
        lastSeenSeq := moved.value;
      }
    }

    /** The live loop: notifications until the connection fails or shutdown is asked for. */
    method Forward(ghost start: State, answers: seq<Answer>, pos: nat) returns (next: nat)
      requires Conforms(start, answers) && pos <= |answers|
      requires Conforms(start, answers[..pos]) && Now() == After(start, answers[..pos])
      requires phase.Live?
      modifies this
      ensures pos <= next <= |answers| && Conforms(start, answers[..next])
      ensures Now() == After(start, answers[..next])
      ensures next == |answers| || phase.Connecting? || phase.Stopped?
    {
      hide TakeNotification, Forwards;
      next := pos;
      while next < |answers|
        invariant pos <= next <= |answers| && Conforms(start, answers[..next])
        invariant phase.Live? && Now() == After(start, answers[..next])
      {
        OneMore(start, answers, next);
        var answer := answers[next];
        next := next + 1;
        match answer
        case Notified(lookup) =>
          TakeOne(lookup);
        case ReceiveFailed =>
          SleepBeforeRetry();
          return;
        case ShutdownRequested =>
          phase := Stopped;
          return;
        case _ => assert false;
      }
    }

    /** `run_pg_listener`, for as long as the environment has answers. */
    method Run(answers: seq<Answer>)
      requires phase.Connecting? && Conforms(Now(), answers)
      modifies this
      ensures Now() == After(old(Now()), answers)
    {
      ghost var start := Now();
      var next := 0;
      while next < |answers|
        invariant 0 <= next <= |answers| && Conforms(start, answers[..next])
        invariant Now() == After(start, answers[..next])
        invariant next == |answers| || phase.Connecting? || phase.Stopped?
      {
        OneMore(start, answers, next);
        var answer := answers[next];
        next := next + 1;
        match answer
        case Connected =>
          backoff := BACKOFF_FLOOR_MS;
          phase := Replaying(lastSeenSeq, false);
          next := Resync(start, answers, next);
          if phase.Live? {
            next := Forward(start, answers, next);
          }
        case ConnectFailed =>
          SleepBeforeRetry();
        case ShutdownRequested =>
          phase := Stopped;
        case _ => assert false;
      }
      assert answers[..next] == answers;
    }
  }

  // ---- Backoff ----

  predicate IsFailure(a: Answer) { a.ConnectFailed? || a.ReceiveFailed? }
  predicate IsReset(a: Answer) { a.Connected? || a.Notified? }

  /** Failures since the last successful connect or received notification. */
  function Streak(answers: seq<Answer>): nat {
    if answers == [] then 0
    else
      var n := |answers| - 1;
      if IsReset(answers[n]) then 0
      else if IsFailure(answers[n]) then Streak(answers[..n]) + 1
      else Streak(answers[..n])
  }

  function Pow2(n: nat): nat {
    if n == 0 then 1 else 2 * Pow2(n - 1)
  }

  /** The delay after the nth consecutive failure: 250 ms * 2^(n-1), at most 30 s. */
  function Delay(n: nat): nat
    requires n >= 1
  {
    Min(250 * Pow2(n - 1), 30_000)
  }

  lemma FirstDelay()
    ensures Delay(1) == BACKOFF_FLOOR_MS
  {
  }

  /** One delay for each failure, in order. */
  function Delays(answers: seq<Answer>): seq<nat> {
    if answers == [] then []
    else
      var n := |answers| - 1;
      Delays(answers[..n]) + if IsFailure(answers[n]) then [Delay(Streak(answers))] else []
  }

  /** One answer, when `s` failures in a row came before it. */
  lemma BackoffStep(l: State, a: Answer, s: nat)
    requires Expects(l.phase, a) && l.backoff == Delay(s + 1)
    ensures React(l, a).sleeps == l.sleeps + if IsFailure(a) then [Delay(s + 1)] else []
    ensures React(l, a).backoff == if IsReset(a) then Delay(1) else if IsFailure(a) then Delay(s + 2) else l.backoff
  {
    assert Pow2(s + 1) == 2 * Pow2(s);
  }

  /** In every run the listener sleeps exactly these delays, and it is ready with the next. */
  lemma {:induction false} BackoffClosedForm(answers: seq<Answer>)
    requires Conforms(START, answers)
    ensures After(START, answers).sleeps == Delays(answers)
    ensures After(START, answers).backoff == Delay(Streak(answers) + 1)
    decreases |answers|
  {
    hide React, Expects, Delay;
    if answers == [] {
      assert Delay(1) == BACKOFF_FLOOR_MS by { FirstDelay(); }
    } else {
      var n := |answers| - 1;
      BackoffClosedForm(answers[..n]);
      BackoffStep(After(START, answers[..n]), answers[n], Streak(answers[..n]));
    }
  }
}
