/**
 DrainNodes (internal/operations/scale_client.go) as interleaved steps: one goroutine per node,
 a channel with room for one message each, and a receiving loop that returns at the first error
 or after as many messages as nodes.  The deferred close runs on either way out.
 */
module Draining {
  import opened Results

  /** A goroutine: inside SafelyDrainNode, holding its outcome, or past its send. */
  datatype Worker = Busy | Holding(ok: bool) | Sent(ok: bool)

  datatype Main = Receiving | Closing(ok: bool) | Returned(ok: bool)

  /** buffered and received hold the senders' numbers, oldest first; an outcome travels as the sender's own. */
  datatype State = State(workers: seq<Worker>, buffered: seq<nat>, received: seq<nat>, main: Main, closed: bool,
                         panicked: bool)

  datatype Event = Drained(w: nat, ok: bool) | Send(w: nat) | Receive | Finish | Close

  function Init(n: nat): State {
    State(seq(n, _ => Busy), [], [], Receiving, false, false)
  }

  predicate Enabled(s: State, e: Event) {
    !s.panicked &&
    match e
    case Drained(w, _) => w < |s.workers| && s.workers[w].Busy?
    case Send(w) => w < |s.workers| && s.workers[w].Holding? && (s.closed || |s.buffered| < |s.workers|)
    case Receive => s.main.Receiving? && |s.received| < |s.workers| && s.buffered != []
    case Finish => s.main.Receiving? && |s.received| == |s.workers|
    case Close => s.main.Closing?
  }

  predicate SentOK(s: State, w: nat) {
    w < |s.workers| && s.workers[w] == Sent(true)
  }

  /** A send on the closed channel panics. */
  function Next(s: State, e: Event): State
    requires Enabled(s, e)
  {
    match e
    case Drained(w, ok) => s.(workers := s.workers[w := Holding(ok)])
    case Send(w) =>
      if s.closed then s.(panicked := true)
      else s.(workers := s.workers[w := Sent(s.workers[w].ok)], buffered := s.buffered + [w])
    case Receive =>
      var w := s.buffered[0];
      s.(buffered := s.buffered[1..], received := s.received + [w],
         main := if SentOK(s, w) then Receiving else Closing(false))
    case Finish => s.(main := Closing(true))
    case Close => s.(main := Returned(s.main.ok), closed := true)
  }

  // ---- the invariant ----

  function Channel(s: State): seq<nat> {
    s.received + s.buffered
  }

  predicate NoRepeats(q: seq<nat>) {
    forall i, j :: 0 <= i < j < |q| ==> q[i] != q[j]
  }

  /** What left the workers is exactly what was received or is buffered, once each. */
  predicate ChannelInv(s: State) {
    && NoRepeats(Channel(s))
    && (forall i :: 0 <= i < |Channel(s)| ==> Channel(s)[i] < |s.workers| && s.workers[Channel(s)[i]].Sent?)
    && (forall w :: 0 <= w < |s.workers| && s.workers[w].Sent? ==> w in Channel(s))
  }

  predicate ResultInv(s: State) {
    match s.main
    case Receiving => forall i :: 0 <= i < |s.received| ==> SentOK(s, s.received[i])
    case Closing(ok) => ResultJustified(s, ok)
    case Returned(ok) => ResultJustified(s, ok)
  }

  predicate ResultJustified(s: State, ok: bool) {
    if ok then
      |s.received| == |s.workers| && forall i :: 0 <= i < |s.received| ==> SentOK(s, s.received[i])
    else
      s.received != [] && s.received[|s.received| - 1] < |s.workers|
        && s.workers[s.received[|s.received| - 1]] == Sent(false)
  }

  predicate Inv(s: State) {
    && ChannelInv(s)
    && ResultInv(s)
    && (s.closed <==> s.main.Returned?)
    && (s.panicked ==> s.closed && exists w :: 0 <= w < |s.workers| && s.workers[w].Holding?)
  }

  lemma InitInv(n: nat)
    ensures Inv(Init(n))
  {
  }

  lemma NextDrained(s: State, w: nat, ok: bool)
    requires Inv(s) && Enabled(s, Drained(w, ok))
    ensures Inv(Next(s, Drained(w, ok)))
  {
    var t := Next(s, Drained(w, ok));
    assert Channel(t) == Channel(s);
    assert w !in Channel(s);
  }

  lemma NextSend(s: State, w: nat)
    requires Inv(s) && Enabled(s, Send(w))
    ensures Inv(Next(s, Send(w)))
  {
    var t := Next(s, Send(w));
    if !s.closed {
      assert w !in Channel(s);
      assert Channel(t) == Channel(s) + [w];
    }
  }

  lemma NextReceive(s: State)
    requires Inv(s) && Enabled(s, Receive)
    ensures Inv(Next(s, Receive))
  {
    var t := Next(s, Receive);
    assert s.buffered == [s.buffered[0]] + s.buffered[1..];
    assert Channel(t) == Channel(s);
    assert Channel(s)[|s.received|] == s.buffered[0];
  }

  lemma NextInv(s: State, e: Event)
    requires Inv(s) && Enabled(s, e)
    ensures Inv(Next(s, e))
  {
    match e
    case Drained(w, ok) => NextDrained(s, w, ok);
    case Send(w) => NextSend(s, w);
    case Receive => NextReceive(s);
    case Finish => assert Channel(Next(s, e)) == Channel(s);
    case Close => assert Channel(Next(s, e)) == Channel(s);
  }

  // ---- runs ----

  /** The state after a sequence of events, or None when one of them was not possible. */
  function Exec(s: State, events: seq<Event>): Option<State> {
    if events == [] then Some(s)
    else
      var before := Exec(s, events[..|events| - 1]);
      if before.Some? && Enabled(before.value, events[|events| - 1])
      then Some(Next(before.value, events[|events| - 1]))
      else None
  }

  lemma {:induction false} ExecInv(n: nat, events: seq<Event>)
    requires Exec(Init(n), events).Some?
    ensures var s := Exec(Init(n), events).value; Inv(s) && |s.workers| == n
    decreases |events|
  {
    if events == [] {
      InitInv(n);
    } else {
      ExecInv(n, events[..|events| - 1]);
      NextInv(Exec(Init(n), events[..|events| - 1]).value, events[|events| - 1]);
    }
  }

  // ---- what holds of every run ----

  /** Distinct numbers below n are at most n, and are all of them when there are n. */
  lemma {:induction false} FullSequence(q: seq<nat>, n: nat)
    requires NoRepeats(q) && forall i :: 0 <= i < |q| ==> q[i] < n
    ensures |q| <= n
    ensures |q| == n ==> forall w: nat :: w < n ==> w in q
    decreases n, 1
  {
    if q != [] {
      assert q[0] < n;
      if i :| 0 <= i < |q| && q[i] == n - 1 {
        WithoutLargest(q, n, i);
      } else {
        forall i | 0 <= i < |q|
          ensures q[i] < n - 1
        {
        }
        FullSequence(q, n - 1);
      }
    }
  }

  lemma {:induction false} WithoutLargest(q: seq<nat>, n: nat, i: nat)
    requires NoRepeats(q) && forall i :: 0 <= i < |q| ==> q[i] < n
    requires i < |q| && q[i] == n - 1
    ensures |q| <= n
    ensures |q| == n ==> forall w: nat :: w < n ==> w in q
    decreases n, 0
  {
    var rest := q[..i] + q[i + 1..];
    assert forall j :: 0 <= j < |rest| ==> rest[j] == if j < i then q[j] else q[j + 1];
    FullSequence(rest, n - 1);
    forall w: nat | |q| == n && w < n
      ensures w in q
    {
      if w < n - 1 {
        assert w in rest;
        var j :| 0 <= j < |rest| && rest[j] == w;
        assert w == q[if j < i then j else j + 1];
      }
    }
  }

  lemma ChannelBound(s: State)
    requires Inv(s)
    ensures |s.received| + |s.buffered| <= |s.workers|
    ensures |s.received| + |s.buffered| == |s.workers| ==> forall w: nat :: w < |s.workers| ==> s.workers[w].Sent?
  {
    FullSequence(Channel(s), |s.workers|);
    if |Channel(s)| == |s.workers| {
      forall w: nat | w < |s.workers|
        ensures s.workers[w].Sent?
      {
        assert w in Channel(s);
        var i :| 0 <= i < |Channel(s)| && Channel(s)[i] == w;
      }
    }
  }

  lemma {:induction false} MissingFromFull(q: seq<nat>, n: nat, w: nat)
    requires NoRepeats(q) && forall i :: 0 <= i < |q| ==> q[i] < n
    requires w < n && w !in q
    ensures |q| < n
  {
    FullSequence(q, n);
  }

  /** A goroutine that has its outcome can always send it: the channel has room for every node. */
  lemma SendsNeverBlock(n: nat, events: seq<Event>, w: nat)
    requires Exec(Init(n), events).Some?
    requires var s := Exec(Init(n), events).value; !s.panicked && w < |s.workers| && s.workers[w].Holding?
    ensures Enabled(Exec(Init(n), events).value, Send(w))
  {
    ExecInv(n, events);
    var s := Exec(Init(n), events).value;
    assert w !in Channel(s);
    MissingFromFull(Channel(s), n, w);
  }

  /** After returning nil, every node was drained and every send is over; nothing more can happen. */
  lemma NilMeansDrained(n: nat, events: seq<Event>)
    requires Exec(Init(n), events).Some? && Exec(Init(n), events).value.main == Returned(true)
    ensures var s := Exec(Init(n), events).value;
            && |s.workers| == n
            && (forall w :: 0 <= w < n ==> s.workers[w] == Sent(true))
            && !s.panicked
            && forall e :: !Enabled(s, e)
  {
    ExecInv(n, events);
    var s := Exec(Init(n), events).value;
    assert forall i :: 0 <= i < |s.received| ==> s.received[i] == Channel(s)[i];
    ChannelBound(s);
    FullSequence(s.received, n);
    forall w | 0 <= w < n
      ensures s.workers[w] == Sent(true)
    {
      assert w in s.received;
      var i :| 0 <= i < |s.received| && s.received[i] == w;
      assert SentOK(s, s.received[i]);
    }
  }

  /** An error is returned only when some drain failed. */
  lemma ErrorMeansFailure(n: nat, events: seq<Event>)
    requires Exec(Init(n), events).Some? && Exec(Init(n), events).value.main == Returned(false)
    ensures var s := Exec(Init(n), events).value; exists w :: 0 <= w < |s.workers| && s.workers[w] == Sent(false)
  {
    ExecInv(n, events);
  }

  // ---- no deadlock, and termination ----

  function Weight(w: Worker): nat {
    match w case Busy => 3 case Holding(_) => 2 case Sent(_) => 0
  }

  function Weights(ws: seq<Worker>): nat {
    if ws == [] then 0 else Weights(ws[..|ws| - 1]) + Weight(ws[|ws| - 1])
  }

  function ToDo(main: Main): nat {
    match main
    case Receiving => 2
    case Closing(_) => 1
    case Returned(_) => 0
  }

  /** Steps that may still be taken. */
  function Measure(s: State): nat {
    if s.panicked then 0
    else 1 + Weights(s.workers) + |s.buffered| + ToDo(s.main)
  }

  lemma {:induction false} WeightsUpdate(ws: seq<Worker>, w: nat, x: Worker)
    requires w < |ws|
    ensures Weights(ws[w := x]) == Weights(ws) - Weight(ws[w]) + Weight(x)
  {
    var n := |ws| - 1;
    if w == n {
      assert ws[w := x][..n] == ws[..n];
    } else {
      assert ws[w := x][..n] == ws[..n][w := x];
      WeightsUpdate(ws[..n], w, x);
    }
  }

  /** Every step brings the end nearer. */
  lemma MeasureDecreases(s: State, e: Event)
    requires Enabled(s, e)
    ensures Measure(Next(s, e)) < Measure(s)
  {
    match e
    case Drained(w, ok) => WeightsUpdate(s.workers, w, Holding(ok));
    case Send(w) => WeightsUpdate(s.workers, w, Sent(s.workers[w].ok));
    case Receive =>
    case Finish =>
    case Close =>
  }

  lemma {:induction false} WeightsInit(n: nat)
    ensures Weights(seq(n, _ => Busy)) == 3 * n
  {
    if n > 0 {
      var busy := seq(n, _ => Busy);
      assert busy[..n - 1] == seq(n - 1, _ => Busy);
      WeightsInit(n - 1);
    }
  }

  lemma {:induction false} RunLength(n: nat, events: seq<Event>)
    requires Exec(Init(n), events).Some?
    ensures |events| + Measure(Exec(Init(n), events).value) <= 3 * n + 3
    decreases |events|
  {
    if events == [] {
      WeightsInit(n);
    } else {
      RunLength(n, events[..|events| - 1]);
      MeasureDecreases(Exec(Init(n), events[..|events| - 1]).value, events[|events| - 1]);
    }
  }

  /** Until it has returned the function is never stuck, provided every drain call comes to an end. */
  lemma NoDeadlock(n: nat, events: seq<Event>)
    requires Exec(Init(n), events).Some?
    requires var s := Exec(Init(n), events).value; !s.main.Returned?
    ensures exists e :: Enabled(Exec(Init(n), events).value, e)
  {
    ExecInv(n, events);
    var s := Exec(Init(n), events).value;
    if s.main.Closing? {
      assert Enabled(s, Close);
    } else if |s.received| == n {
      assert Enabled(s, Finish);
    } else if s.buffered != [] {
      ChannelBound(s);
      assert Enabled(s, Receive);
    } else {
      if w: nat :| w < n && !s.workers[w].Sent? {
        if s.workers[w].Busy? {
          assert Enabled(s, Drained(w, true));
        } else {
          SendsNeverBlock(n, events, w);
        }
      } else {
        assert forall w: nat :: w < n ==> w in s.received by {
          assert Channel(s) == s.received;
        }
        var all := seq(n, (i: nat) => i);
        SubsequenceLength(all, s.received);
        ChannelBound(s);
      }
    }
  }

  /** A sequence that contains every element of one without repeats is at least as long. */
  lemma {:induction false} SubsequenceLength(a: seq<nat>, b: seq<nat>)
    requires NoRepeats(a) && forall i :: 0 <= i < |a| ==> a[i] in b
    ensures |a| <= |b|
  {
    if a != [] {
      var n := |a| - 1;
      var j :| 0 <= j < |b| && b[j] == a[n];
      var rest := b[..j] + b[j + 1..];
      forall i | 0 <= i < n
        ensures a[..n][i] in rest
      {
        var k :| 0 <= k < |b| && b[k] == a[i];
        assert rest[if k < j then k else k - 1] == a[i];
      }
      SubsequenceLength(a[..n], rest);
    }
  }

  // ---- the result, and the send on a closed channel, in terms of the drain outcomes ----

  /** The drain calls end as given. */
  predicate Follows(events: seq<Event>, outcome: seq<bool>) {
    forall i :: 0 <= i < |events| && events[i].Drained? ==>
      events[i].w < |outcome| && events[i].ok == outcome[events[i].w]
  }

  lemma {:induction false} OutcomesKept(outcome: seq<bool>, events: seq<Event>)
    requires Exec(Init(|outcome|), events).Some? && Follows(events, outcome)
    ensures var s := Exec(Init(|outcome|), events).value;
            && |s.workers| == |outcome|
            && forall w :: 0 <= w < |outcome| && !s.workers[w].Busy? ==> s.workers[w].ok == outcome[w]
    decreases |events|
  {
    ExecInv(|outcome|, events);
    if events != [] {
      var front := events[..|events| - 1];
      assert Follows(front, outcome);
      OutcomesKept(outcome, front);
    }
  }

  /** Every completed run returns nil exactly when all drains succeeded. */
  lemma ResultIff(outcome: seq<bool>, events: seq<Event>)
    requires Exec(Init(|outcome|), events).Some? && Follows(events, outcome)
    requires Exec(Init(|outcome|), events).value.main.Returned?
    ensures Exec(Init(|outcome|), events).value.main.ok <==> forall w :: 0 <= w < |outcome| ==> outcome[w]
  {
    OutcomesKept(outcome, events);
    if Exec(Init(|outcome|), events).value.main.ok {
      NilMeansDrained(|outcome|, events);
    } else {
      ErrorMeansFailure(|outcome|, events);
    }
  }

  ghost predicate MayPanic(outcome: seq<bool>) {
    exists events :: Follows(events, outcome) && PanicsAfter(|outcome|, events)
  }

  predicate PanicsAfter(n: nat, events: seq<Event>) {
    Exec(Init(n), events).Some? && Exec(Init(n), events).value.panicked
  }

  /** A run in which goroutine w reports a failure first and goroutine v comes after the close. */
  function LateSender(w: nat, v: nat, vOk: bool): seq<Event> {
    [Drained(w, false), Send(w), Receive, Close, Drained(v, vOk), Send(v)]
  }

  lemma ExecNothing(s: State)
    ensures Exec(s, []) == Some(s)
  {
  }

  lemma ExecStep(s: State, events: seq<Event>, e: Event)
    requires Exec(s, events).Some? && Enabled(Exec(s, events).value, e)
    ensures Exec(s, events + [e]) == Some(Next(Exec(s, events).value, e))
  {
    assert (events + [e])[..|events|] == events;
  }

  /** Goroutine w has failed and sent its failure. */
  lemma FirstFailure(n: nat, w: nat) returns (t: State)
    requires w < n
    ensures Exec(Init(n), [Drained(w, false), Send(w)]) == Some(t) && !t.panicked && !t.closed && t.main == Receiving
    ensures t.buffered == [w] && t.received == [] && |t.workers| == n && t.workers[w] == Sent(false)
    ensures forall v :: 0 <= v < n && v != w ==> t.workers[v].Busy?
  {
    var s0 := Init(n);
    ExecStep(s0, [], Drained(w, false));
    assert [] + [Drained(w, false)] == [Drained(w, false)];
    var s1 := Next(s0, Drained(w, false));
    ExecStep(s0, [Drained(w, false)], Send(w));
    assert [Drained(w, false)] + [Send(w)] == [Drained(w, false), Send(w)];
    t := Next(s1, Send(w));
  }

  /** The failure has been received, and the channel closed on the way out. */
  lemma EarlyClose(n: nat, w: nat) returns (t: State)
    requires w < n
    ensures Exec(Init(n), [Drained(w, false), Send(w), Receive, Close]) == Some(t) && !t.panicked && t.closed
            && |t.workers| == n
    ensures forall v :: 0 <= v < n && v != w ==> t.workers[v].Busy?
  {
    var s2 := FirstFailure(n, w);
    ExecStep(Init(n), [Drained(w, false), Send(w)], Receive);
    var s3 := Next(s2, Receive);
    var three := [Drained(w, false), Send(w), Receive];
    assert [Drained(w, false), Send(w)] + [Receive] == three;
    ExecStep(Init(n), three, Close);
    assert three + [Close] == [Drained(w, false), Send(w), Receive, Close];
    t := Next(s3, Close);
  }

  lemma LateSenderPanics(n: nat, w: nat, v: nat, vOk: bool)
    requires w < n && v < n && w != v
    ensures PanicsAfter(n, LateSender(w, v, vOk))
  {
    var s4 := EarlyClose(n, w);
    var four := [Drained(w, false), Send(w), Receive, Close];
    ExecStep(Init(n), four, Drained(v, vOk));
    var five := four + [Drained(v, vOk)];
    ExecStep(Init(n), five, Send(v));
    assert five + [Send(v)] == LateSender(w, v, vOk);
  }

  /** A panic takes two goroutines, and a drain that failed. */
  lemma PanicNeedsFailure(outcome: seq<bool>, events: seq<Event>)
    requires Follows(events, outcome) && PanicsAfter(|outcome|, events)
    ensures |outcome| >= 2 && exists w :: 0 <= w < |outcome| && !outcome[w]
  {
    hide Exec, Follows, ChannelInv;
    ExecInv(|outcome|, events);
    var s := Exec(Init(|outcome|), events).value;
    ResultIff(outcome, events);
    var v :| 0 <= v < |s.workers| && s.workers[v].Holding?;
    if s.main.ok {
      NilMeansDrained(|outcome|, events);
    } else {
      ErrorMeansFailure(|outcome|, events);
    }
  }

  lemma LateSenderFollows(outcome: seq<bool>, w: nat, v: nat)
    requires w < |outcome| && v < |outcome| && w != v && !outcome[w]
    ensures Follows(LateSender(w, v, outcome[v]), outcome)
  {
  }

  /**
   Some interleaving sends on the closed channel, and so panics, exactly when at least two nodes are
   drained and one of the drains fails.
   */
  lemma MayPanicIff(outcome: seq<bool>)
    ensures MayPanic(outcome) <==> |outcome| >= 2 && exists w :: 0 <= w < |outcome| && !outcome[w]
  {
    hide Follows, PanicsAfter, LateSender;
    if MayPanic(outcome) {
      var events :| Follows(events, outcome) && PanicsAfter(|outcome|, events);
      PanicNeedsFailure(outcome, events);
    }
    if |outcome| >= 2 && exists w :: 0 <= w < |outcome| && !outcome[w] {
      var w: nat :| w < |outcome| && !outcome[w];
      var v: nat := if w == 0 then 1 else 0;
      LateSenderPanics(|outcome|, w, v, outcome[v]);
      LateSenderFollows(outcome, w, v);
    }
  }
}
