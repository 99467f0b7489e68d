/** The sliding-window limiter: a pruned queue of accepted calls per key. */
module Limiter {

  function Bound(limit: int): (r: nat)
    ensures r >= 1
  {
    if limit < 1 then 1 else limit
  }

  function Span(windowSeconds: int): real {
    if windowSeconds < 1 then 1.0 else windowSeconds as real
  }

  function Pruned(entries: seq<real>, cutoff: real): seq<real> {
    if entries != [] && entries[0] < cutoff then Pruned(entries[1..], cutoff) else entries
  }

  function EntriesOf(events: map<string, seq<real>>, key: string): seq<real> {
    if key in events then events[key] else []
  }

  class SlidingWindowLimiter {
    var events: map<string, seq<real>>

    constructor ()
      ensures events == map[]
    {
      events := map[];
    }

    /** `check`; false stands for the quota error.  The clock is a parameter. */
    method Check(key: string, limit: int, windowSeconds: int, now: real) returns (accepted: bool)
      modifies this
      ensures var kept := Pruned(EntriesOf(old(events), key), now - Span(windowSeconds));
        && accepted == (|kept| < Bound(limit))
        && events == old(events)[key := if accepted then kept + [now] else kept]
    {
      var cutoff := now - Span(windowSeconds);
      var entries := EntriesOf(events, key);
      while entries != [] && entries[0] < cutoff
        invariant Pruned(entries, cutoff) == Pruned(EntriesOf(old(events), key), cutoff)
        decreases |entries|
      {
        entries := entries[1..];
      }
      accepted := |entries| < Bound(limit);
      if accepted { entries := entries + [now]; }
      events := events[key := entries];
    }
  }

  // ------------------------------------------------------------ full histories

  predicate InOrder(times: seq<real>) {
    forall i, j | 0 <= i < j < |times| :: times[i] <= times[j]
  }

  /** The times at or after `from`. */
  function Since(times: seq<real>, from: real): seq<real> {
    if times == [] then []
    else if times[0] >= from then [times[0]] + Since(times[1..], from)
    else Since(times[1..], from)
  }

  /** All calls accepted among the first `n`, by the rule on the full history. */
  function History(calls: seq<real>, n: nat, limit: int, windowSeconds: int): seq<real>
    requires n <= |calls|
  {
    if n == 0 then []
    else
      var before, now := History(calls, n - 1, limit, windowSeconds), calls[n - 1];
      if |Since(before, now - Span(windowSeconds))| < Bound(limit) then before + [now] else before
  }

  /** What the queue of one key holds after `n` calls. */
  function Queue(calls: seq<real>, n: nat, limit: int, windowSeconds: int): seq<real>
    requires n <= |calls|
  {
    if n == 0 then []
    else
      var kept, now := Pruned(Queue(calls, n - 1, limit, windowSeconds), calls[n - 1] - Span(windowSeconds)), calls[n - 1];
      if |kept| < Bound(limit) then kept + [now] else kept
  }

  lemma {:induction false} SinceMembers(times: seq<real>, from: real)
    ensures forall t | t in Since(times, from) :: t in times && t >= from
  {
    if times != [] { SinceMembers(times[1..], from); }
  }

  lemma {:induction false} SinceAppend(a: seq<real>, b: seq<real>, from: real)
    ensures Since(a + b, from) == Since(a, from) + Since(b, from)
  {
    if a == [] { assert a + b == b; }
    else {
      assert (a + b)[1..] == a[1..] + b;
      SinceAppend(a[1..], b, from);
    }
  }

  /** On an ordered queue, pruning from the front keeps exactly the recent times. */
  lemma {:induction false} PrunedIsSince(times: seq<real>, from: real)
    requires InOrder(times)
    ensures Pruned(times, from) == Since(times, from)
  {
    if times != [] {
      if times[0] < from {
        PrunedIsSince(times[1..], from);
      } else {
        AllSince(times, from);
      }
    }
  }

  lemma {:induction false} AllSince(times: seq<real>, from: real)
    requires forall i | 0 <= i < |times| :: times[i] >= from
    ensures Since(times, from) == times
  {
    if times != [] { AllSince(times[1..], from); }
  }

  lemma {:induction false} SinceTwice(times: seq<real>, a: real, b: real)
    requires a <= b
    ensures Since(Since(times, a), b) == Since(times, b)
  {
    if times != [] { SinceTwice(times[1..], a, b); }
  }

  lemma {:induction false} SinceInOrder(times: seq<real>, from: real)
    requires InOrder(times)
    ensures InOrder(Since(times, from))
  {
    if times != [] {
      var rest := Since(times[1..], from);
      SinceInOrder(times[1..], from);
      SinceMembers(times[1..], from);
      forall i | 0 <= i < |rest| ensures times[0] <= rest[i] {
        assert rest[i] in rest;
        var k :| 0 <= k < |times[1..]| && times[1..][k] == rest[i];
        assert times[k + 1] == rest[i];
      }
    }
  }

  lemma {:induction false} HistoryInOrder(calls: seq<real>, n: nat, limit: int, windowSeconds: int)
    requires n <= |calls| && InOrder(calls)
    ensures InOrder(History(calls, n, limit, windowSeconds))
    ensures forall t | t in History(calls, n, limit, windowSeconds) :: exists i :: 0 <= i < n && calls[i] == t
  {
    if n > 0 {
      HistoryInOrder(calls, n - 1, limit, windowSeconds);
      hide Since;
      var before := History(calls, n - 1, limit, windowSeconds);
      forall i | 0 <= i < |before| ensures before[i] <= calls[n - 1] {
        assert before[i] in before;
      }
    }
  }

  /**
    The pruned queue refines the full history: at every call it holds exactly the
    accepted calls of the window, so both rules decide alike.
   */
  lemma {:induction false} QueueRefinesHistory(calls: seq<real>, n: nat, limit: int, windowSeconds: int)
    requires n <= |calls| && InOrder(calls)
    ensures n > 0 ==>
      Queue(calls, n, limit, windowSeconds) == Since(History(calls, n, limit, windowSeconds), calls[n - 1] - Span(windowSeconds))
  {
    if n > 0 {
      var before, now, from := History(calls, n - 1, limit, windowSeconds), calls[n - 1], calls[n - 1] - Span(windowSeconds);
      var queue := Queue(calls, n - 1, limit, windowSeconds);
      QueueRefinesHistory(calls, n - 1, limit, windowSeconds);
      HistoryInOrder(calls, n - 1, limit, windowSeconds);
      assert Span(windowSeconds) >= 1.0;
      hide Since, History, Span;
      if n > 1 {
        var earlier := calls[n - 2] - Span(windowSeconds);
        SinceInOrder(before, earlier);
        SinceTwice(before, earlier, from);
      }
      StartsEmpty(calls, limit, windowSeconds);
      PrunedIsSince(queue, from);
      NowIsSince(now, from);
      SinceAppend(before, [now], from);
      HistoryStep(calls, n - 1, limit, windowSeconds);
    }
  }

  lemma StartsEmpty(calls: seq<real>, limit: int, windowSeconds: int)
    ensures History(calls, 0, limit, windowSeconds) == [] && Queue(calls, 0, limit, windowSeconds) == []
    ensures forall from: real :: Since([], from) == []
  {
  }

  lemma NowIsSince(now: real, from: real)
    requires from <= now
    ensures Since([now], from) == [now]
  {
  }

  lemma HistoryStep(calls: seq<real>, n: nat, limit: int, windowSeconds: int)
    requires n < |calls|
    ensures var before := History(calls, n, limit, windowSeconds);
      History(calls, n + 1, limit, windowSeconds) ==
        if |Since(before, calls[n] - Span(windowSeconds))| < Bound(limit) then before + [calls[n]] else before
  {
    hide Since;
  }

  /** A call is rejected exactly when the full history already has the limit's worth of calls in its window. */
  lemma RejectedExactly(calls: seq<real>, n: nat, limit: int, windowSeconds: int)
    requires n < |calls| && InOrder(calls)
    ensures |Pruned(Queue(calls, n, limit, windowSeconds), calls[n] - Span(windowSeconds))| >= Bound(limit) <==>
      |Since(History(calls, n, limit, windowSeconds), calls[n] - Span(windowSeconds))| >= Bound(limit)
  {
    hide Since, History, Queue, Pruned, Span;
    QueueRefinesHistory(calls, n, limit, windowSeconds);
    StartsEmpty(calls, limit, windowSeconds);
    HistoryInOrder(calls, n, limit, windowSeconds);
    var history, from := History(calls, n, limit, windowSeconds), calls[n] - Span(windowSeconds);
    if n > 0 {
      SinceInOrder(history, calls[n - 1] - Span(windowSeconds));
      SinceTwice(history, calls[n - 1] - Span(windowSeconds), from);
    }
    PrunedIsSince(Queue(calls, n, limit, windowSeconds), from);
  }

  // ------------------------------------------------------------ every window

  /** The times of the closed window from `from` to `to`. */
  function Within(times: seq<real>, from: real, to: real): seq<real> {
    if times == [] then []
    else if from <= times[0] <= to then [times[0]] + Within(times[1..], from, to)
    else Within(times[1..], from, to)
  }

  lemma {:induction false} WithinAppend(times: seq<real>, t: real, from: real, to: real)
    ensures Within(times + [t], from, to) == if from <= t <= to then Within(times, from, to) + [t] else Within(times, from, to)
  {
    if times == [] { assert times + [t] == [t]; }
    else {
      assert (times + [t])[1..] == times[1..] + [t];
      WithinAppend(times[1..], t, from, to);
    }
  }

  lemma {:induction false} WithinAtMostSince(times: seq<real>, from: real, to: real, earlier: real)
    requires earlier <= from
    ensures |Within(times, from, to)| <= |Since(times, earlier)|
  {
    if times != [] { WithinAtMostSince(times[1..], from, to, earlier); }
  }

  /** Never more than the limit's worth of accepted calls falls into any closed window of that length. */
  lemma {:induction false} AtMostPerWindow(calls: seq<real>, n: nat, limit: int, windowSeconds: int, from: real)
    requires n <= |calls|
    ensures |Within(History(calls, n, limit, windowSeconds), from, from + Span(windowSeconds))| <= Bound(limit)
  {
    hide *;
    if n == 0 {
      NothingWithin(calls, limit, windowSeconds, from, from + Span(windowSeconds));
    } else {
      var before, now := History(calls, n - 1, limit, windowSeconds), calls[n - 1];
      AtMostPerWindow(calls, n - 1, limit, windowSeconds, from);
      HistoryStep(calls, n - 1, limit, windowSeconds);
      WithinAppend(before, now, from, from + Span(windowSeconds));
      if from <= now <= from + Span(windowSeconds) {
        WithinAtMostSince(before, from, from + Span(windowSeconds), now - Span(windowSeconds));
      }
    }
  }

  lemma NothingWithin(calls: seq<real>, limit: int, windowSeconds: int, from: real, to: real)
    ensures |Within(History(calls, 0, limit, windowSeconds), from, to)| <= Bound(limit)
  {
  }
}
