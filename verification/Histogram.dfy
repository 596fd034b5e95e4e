/** A histogram of atomic counters, scraped while observations are being recorded. */
module Histogram {
  import opened Wrappers

  // ----- steps ----------------------------------------------------------------------

  /** One call of `reconciled`: which of its additions it has made so far, counting the
      total, then the sum, then each bucket in turn. */
  datatype Call = Call(millis: nat, done: nat)

  datatype Scrape =
    | Idle
    | Reading(first: Option<nat>, cumulative: nat, printed: seq<nat>)
    | Printed(printed: seq<nat>, count: nat)

  /** The counters and the calls; and, which no reader sees, the calls as they were when the
      scrape opened and when it read each bucket. */
  datatype State = State(
    count: nat,
    sum: nat,
    buckets: seq<nat>,
    calls: seq<Call>,
    scrape: Scrape,
    atOpen: seq<Call>,
    seen: seq<seq<Call>>)

  /** The agent's scrape reads its buckets before the count; the webhook's, after. */
  datatype Order = BucketsFirst | CountFirst

  datatype Step =
    | Observe(millis: nat)
    | Continue(call: nat)
    | Open
    | Read
    | Close

  predicate Ascending(ceilings: seq<nat>) {
    forall i, j :: 0 <= i < j < |ceilings| ==> ceilings[i] < ceilings[j]
  }

  predicate Enabled(ceilings: seq<nat>, s: State, step: Step) {
    |s.buckets| == |ceilings| &&
    match step
    case Observe(_) => true
    case Continue(k) => k < |s.calls| && s.calls[k].done < 2 + |ceilings|
    case Open => !s.scrape.Reading?
    case Read => s.scrape.Reading? && |s.scrape.printed| < |ceilings|
    case Close => s.scrape.Reading? && |s.scrape.printed| == |ceilings|
  }

  /** One atomic addition of one call. */
  function Add(ceilings: seq<nat>, s: State, k: nat): State
    requires Enabled(ceilings, s, Continue(k))
  {
    var call := s.calls[k];
    var moved := s.(calls := s.calls[k := call.(done := call.done + 1)]);
    if call.done == 0 then moved.(count := s.count + 1)
    else if call.done == 1 then moved.(sum := s.sum + call.millis)
    else if call.millis <= ceilings[call.done - 2] then
      moved.(buckets := s.buckets[call.done - 2 := s.buckets[call.done - 2] + 1])
    else moved
  }

  function Max(a: nat, b: nat): nat {
    if a >= b then a else b
  }

  function Apply(ceilings: seq<nat>, order: Order, s: State, step: Step): State
    requires Enabled(ceilings, s, step)
  {
    match step
    case Observe(millis) => s.(calls := s.calls + [Call(millis, 0)])
    case Continue(k) => Add(ceilings, s, k)
    case Open =>
      s.(scrape := Reading(if order.CountFirst? then Some(s.count) else None, 0, []), atOpen := s.calls, seen := [])
    case Read =>
      var next := Max(s.scrape.cumulative, s.buckets[|s.scrape.printed|]);
      s.(scrape := s.scrape.(cumulative := next, printed := s.scrape.printed + [next]), seen := s.seen + [s.calls])
    case Close => s.(scrape := Printed(s.scrape.printed, s.scrape.first.GetOr(s.count)))
  }

  ghost predicate Init(ceilings: seq<nat>, s: State) {
    s == State(0, 0, seq(|ceilings|, _ => 0), [], Idle, [], [])
  }

  ghost predicate ReachableIn(ceilings: seq<nat>, order: Order, n: nat, s: State) {
    if n == 0 then Init(ceilings, s)
    else exists p, step :: ReachableIn(ceilings, order, n - 1, p) && Enabled(ceilings, p, step) &&
                           s == Apply(ceilings, order, p, step)
  }

  ghost predicate Reachable(ceilings: seq<nat>, order: Order, s: State) {
    exists n: nat :: ReachableIn(ceilings, order, n, s)
  }

  // ----- counting calls -------------------------------------------------------------

  /** How many calls have made at least `done` additions and lasted at most `ceiling`. */
  function Past(calls: seq<Call>, done: nat, ceiling: Option<nat>): nat {
    if calls == [] then 0
    else
      (if calls[0].done >= done && calls[0].millis <= ceiling.GetOr(calls[0].millis) then 1 else 0) +
      Past(calls[1..], done, ceiling)
  }

  function Total(calls: seq<Call>): nat {
    if calls == [] then 0
    else (if calls[0].done >= 2 then calls[0].millis else 0) + Total(calls[1..])
  }

  lemma {:induction false} PastMoves(calls: seq<Call>, k: nat, done: nat, ceiling: Option<nat>)
    requires k < |calls|
    ensures var call := calls[k];
            var moved := calls[k := call.(done := call.done + 1)];
            Past(moved, done, ceiling) == Past(calls, done, ceiling) +
              if call.done + 1 == done && call.millis <= ceiling.GetOr(call.millis) then 1 else 0
  {
    var moved := calls[k := calls[k].(done := calls[k].done + 1)];
    if k > 0 {
      assert moved[1..] == calls[1..][k - 1 := moved[k]];
      PastMoves(calls[1..], k - 1, done, ceiling);
    } else {
      assert moved[1..] == calls[1..];
    }
  }

  lemma {:induction false} TotalMoves(calls: seq<Call>, k: nat)
    requires k < |calls|
    ensures var call := calls[k];
            Total(calls[k := call.(done := call.done + 1)]) == Total(calls) + if call.done == 1 then call.millis else 0
  {
    var moved := calls[k := calls[k].(done := calls[k].done + 1)];
    if k > 0 {
      assert moved[1..] == calls[1..][k - 1 := moved[k]];
      TotalMoves(calls[1..], k - 1);
    } else {
      assert moved[1..] == calls[1..];
    }
  }

  lemma {:induction false} PastStarts(calls: seq<Call>, call: Call, done: nat, ceiling: Option<nat>)
    requires call.done == 0 && done > 0
    ensures Past(calls + [call], done, ceiling) == Past(calls, done, ceiling)
    ensures Total(calls + [call]) == Total(calls)
  {
    if calls != [] {
      assert (calls + [call])[1..] == calls[1..] + [call];
      PastStarts(calls[1..], call, done, ceiling);
    }
  }

  lemma {:induction false} PastShrinks(calls: seq<Call>, done: nat, fewer: nat, ceiling: Option<nat>)
    requires fewer <= done
    ensures Past(calls, done, ceiling) <= Past(calls, fewer, None)
  {
    if calls != [] {
      PastShrinks(calls[1..], done, fewer, ceiling);
    }
  }

  // ----- what every step keeps ------------------------------------------------------

  /** Every counter is the number of calls past its own addition. */
  predicate Counted(ceilings: seq<nat>, s: State) {
    && |s.buckets| == |ceilings|
    && s.count == Past(s.calls, 1, None)
    && s.sum == Total(s.calls)
    && (forall i :: 0 <= i < |ceilings| ==> s.buckets[i] == Past(s.calls, i + 3, Some(ceilings[i])))
    && (forall k :: 0 <= k < |s.calls| ==> s.calls[k].done <= 2 + |ceilings|)
  }

  predicate Rising(printed: seq<nat>) {
    forall i, j :: 0 <= i < j < |printed| ==> printed[i] <= printed[j]
  }

  predicate Under(printed: seq<nat>, top: nat) {
    forall i :: 0 <= i < |printed| ==> printed[i] <= top
  }

  predicate ScrapeOk(order: Order, s: State) {
    match s.scrape
    case Idle => true
    case Reading(first, cumulative, printed) =>
      Rising(printed) && Under(printed, cumulative) &&
      (order.BucketsFirst? ==> first.None? && cumulative <= s.count)
    case Printed(printed, count) =>
      Rising(printed) && (order.BucketsFirst? ==> Under(printed, count))
  }

  /** The running maximum of what was read. */
  function Running(ceilings: seq<nat>, seen: seq<seq<Call>>): (printed: seq<nat>)
    requires |seen| <= |ceilings|
    ensures |printed| == |seen|
    decreases |seen|
  {
    if seen == [] then []
    else
      var n := |seen| - 1;
      var before := Running(ceilings, seen[..n]);
      before + [Max(Top(before), Past(seen[n], n + 3, Some(ceilings[n])))]
  }

  function Top(printed: seq<nat>): nat {
    if printed == [] then 0 else printed[|printed| - 1]
  }

  /** What was printed is the running maximum of the buckets as they were read, and a count
      read first is that of the calls there were. */
  predicate Recorded(ceilings: seq<nat>, order: Order, s: State) {
    && |s.seen| <= |ceilings|
    && (forall i :: 0 <= i < |s.seen| ==> |s.atOpen| <= |s.seen[i]|)
    && match s.scrape
       case Idle => true
       case Reading(first, cumulative, printed) =>
         && |s.atOpen| <= |s.calls|
         && printed == Running(ceilings, s.seen) && cumulative == Top(printed)
         && (order.CountFirst? ==> first == Some(Past(s.atOpen, 1, None)))
       case Printed(printed, count) =>
         && |s.seen| == |ceilings| && printed == Running(ceilings, s.seen)
         && (order.CountFirst? ==> count == Past(s.atOpen, 1, None))
  }

  lemma RecordedOk(ceilings: seq<nat>, order: Order, s: State, step: Step)
    requires Counted(ceilings, s) && Recorded(ceilings, order, s) && Enabled(ceilings, s, step)
    ensures Recorded(ceilings, order, Apply(ceilings, order, s, step))
  {
    hide Past, Running, Top;
    match step
    case Observe(_) =>
    case Continue(_) =>
    case Open => NothingRead(ceilings);
    case Read => ReadRecorded(ceilings, s.seen, s.calls);
    case Close =>
  }

  lemma NothingRead(ceilings: seq<nat>)
    ensures Running(ceilings, []) == [] && Top([]) == 0
  {
  }

  lemma ReadRecorded(ceilings: seq<nat>, seen: seq<seq<Call>>, calls: seq<Call>)
    requires |seen| < |ceilings|
    ensures var before, n := Running(ceilings, seen), |seen|;
            var next := Max(Top(before), Past(calls, n + 3, Some(ceilings[n])));
            Running(ceilings, seen + [calls]) == before + [next] && Top(before + [next]) == next
  {
    hide Past;
    assert (seen + [calls])[..|seen|] == seen;
  }

  lemma InitOk(ceilings: seq<nat>, order: Order, s: State)
    requires Init(ceilings, s)
    ensures Counted(ceilings, s) && ScrapeOk(order, s) && Recorded(ceilings, order, s)
  {
  }

  lemma ContinueOk(ceilings: seq<nat>, s: State, k: nat)
    requires Counted(ceilings, s) && Enabled(ceilings, s, Continue(k))
    ensures Counted(ceilings, Add(ceilings, s, k))
  {
    var s' := Add(ceilings, s, k);
    PastMoves(s.calls, k, 1, None);
    TotalMoves(s.calls, k);
    forall i | 0 <= i < |ceilings|
      ensures s'.buckets[i] == Past(s'.calls, i + 3, Some(ceilings[i]))
    {
      PastMoves(s.calls, k, i + 3, Some(ceilings[i]));
    }
  }

  lemma ObserveOk(ceilings: seq<nat>, s: State, millis: nat)
    requires Counted(ceilings, s)
    ensures Counted(ceilings, s.(calls := s.calls + [Call(millis, 0)]))
  {
    PastStarts(s.calls, Call(millis, 0), 1, None);
    forall i | 0 <= i < |ceilings|
      ensures Past(s.calls + [Call(millis, 0)], i + 3, Some(ceilings[i])) == Past(s.calls, i + 3, Some(ceilings[i]))
    {
      PastStarts(s.calls, Call(millis, 0), i + 3, Some(ceilings[i]));
    }
  }

  /** A bucket never runs ahead of the total: each call counts itself first. */
  lemma BucketUnderCount(ceilings: seq<nat>, s: State, i: nat)
    requires Counted(ceilings, s) && i < |ceilings|
    ensures s.buckets[i] <= s.count
  {
    PastShrinks(s.calls, i + 3, 1, Some(ceilings[i]));
  }

  lemma StepOk(ceilings: seq<nat>, order: Order, s: State, step: Step)
    requires Counted(ceilings, s) && ScrapeOk(order, s) && Enabled(ceilings, s, step)
    ensures Counted(ceilings, Apply(ceilings, order, s, step))
    ensures ScrapeOk(order, Apply(ceilings, order, s, step))
  {
    match step
    case Observe(millis) => ObserveOk(ceilings, s, millis);
    case Continue(k) => ContinueOk(ceilings, s, k);
    case Open =>
    case Read => BucketUnderCount(ceilings, s, |s.scrape.printed|);
    case Close =>
  }

  lemma {:induction false} ReachableInOk(ceilings: seq<nat>, order: Order, n: nat, s: State)
    requires ReachableIn(ceilings, order, n, s)
    ensures Counted(ceilings, s) && ScrapeOk(order, s) && Recorded(ceilings, order, s)
  {
    if n == 0 {
      InitOk(ceilings, order, s);
    } else {
      var p, step :| ReachableIn(ceilings, order, n - 1, p) && Enabled(ceilings, p, step) &&
                     s == Apply(ceilings, order, p, step);
      ReachableInOk(ceilings, order, n - 1, p);
      StepOk(ceilings, order, p, step);
      RecordedOk(ceilings, order, p, step);
    }
  }

  lemma ReachableOk(ceilings: seq<nat>, order: Order, s: State)
    requires Reachable(ceilings, order, s)
    ensures Counted(ceilings, s) && ScrapeOk(order, s) && Recorded(ceilings, order, s)
  {
    var n: nat :| ReachableIn(ceilings, order, n, s);
    ReachableInOk(ceilings, order, n, s);
  }

  // ----- what a scrape prints -------------------------------------------------------

  /** A printed histogram no consumer refuses: buckets that never fall, under `+Inf`. */
  predicate WellFormed(printed: seq<nat>, count: nat) {
    Rising(printed) && Under(printed, count)
  }

  ghost predicate NeverTorn(ceilings: seq<nat>, order: Order) {
    forall s :: Reachable(ceilings, order, s) && s.scrape.Printed? ==>
      WellFormed(s.scrape.printed, s.scrape.count)
  }

  lemma ReachableStep(ceilings: seq<nat>, order: Order, s: State, step: Step)
    requires Reachable(ceilings, order, s) && Enabled(ceilings, s, step)
    ensures Reachable(ceilings, order, Apply(ceilings, order, s, step))
  {
    var n: nat :| ReachableIn(ceilings, order, n, s);
    assert ReachableIn(ceilings, order, n + 1, Apply(ceilings, order, s, step));
  }

  /** Read every bucket that is left and close the scrape. */
  lemma {:induction false} FinishScrape(ceilings: seq<nat>, s: State, count: nat) returns (s': State)
    requires Reachable(ceilings, CountFirst, s) && |s.buckets| == |ceilings|
    requires s.scrape.Reading? && s.scrape.first == Some(count) && |s.scrape.printed| <= |ceilings|
    ensures Reachable(ceilings, CountFirst, s') && s'.scrape.Printed? && s'.scrape.count == count
    ensures s.scrape.printed <= s'.scrape.printed
    decreases |ceilings| - |s.scrape.printed|
  {
    if |s.scrape.printed| == |ceilings| {
      ReachableStep(ceilings, CountFirst, s, Close);
      s' := Apply(ceilings, CountFirst, s, Close);
    } else {
      ReachableStep(ceilings, CountFirst, s, Read);
      s' := FinishScrape(ceilings, Apply(ceilings, CountFirst, s, Read), count);
    }
  }

  lemma Then(ceilings: seq<nat>, s: State, step: Step) returns (s': State)
    requires Reachable(ceilings, CountFirst, s) && Enabled(ceilings, s, step)
    ensures s' == Apply(ceilings, CountFirst, s, step) && Reachable(ceilings, CountFirst, s')
  {
    ReachableStep(ceilings, CountFirst, s, step);
    s' := Apply(ceilings, CountFirst, s, step);
  }

  /** A scrape that has read a count of zero, and a call that has only just begun. */
  lemma Opened(ceilings: seq<nat>) returns (s: State)
    requires ceilings != []
    ensures Reachable(ceilings, CountFirst, s)
    ensures s == State(0, 0, seq(|ceilings|, _ => 0), [Call(0, 0)], Reading(Some(0), 0, []), [], [])
  {
    s := State(0, 0, seq(|ceilings|, _ => 0), [], Idle, [], []);
    assert ReachableIn(ceilings, CountFirst, 0, s);
    s := Then(ceilings, s, Open);
    s := Then(ceilings, s, Observe(0));
  }

  lemma CallRecorded(ceilings: seq<nat>, s: State) returns (s': State)
    requires ceilings != [] && Reachable(ceilings, CountFirst, s)
    requires s == State(0, 0, seq(|ceilings|, _ => 0), [Call(0, 0)], Reading(Some(0), 0, []), [], [])
    ensures Reachable(ceilings, CountFirst, s')
    ensures |s'.buckets| == |ceilings| && s'.buckets[0] == 1 && s'.scrape == s.scrape
  {
    var moved := Then(ceilings, s, Continue(0));
    moved := Then(ceilings, moved, Continue(0));
    assert moved.calls == [Call(0, 2)];
    s' := Then(ceilings, moved, Continue(0));
  }

  /** One call recorded after the count was read and before the first bucket was. */
  lemma TornScrape(ceilings: seq<nat>) returns (s: State)
    requires ceilings != []
    ensures Reachable(ceilings, CountFirst, s) && s.scrape.Printed?
    ensures !WellFormed(s.scrape.printed, s.scrape.count)
  {
    hide Reachable;
    s := Opened(ceilings);
    s := CallRecorded(ceilings, s);
    s := Then(ceilings, s, Read);
    assert s.scrape.printed == [1];
    s := FinishScrape(ceilings, s, 0);
    assert s.scrape.printed[0] == 1;
  }

  /** Whatever calls are in flight, a scrape prints a well-formed histogram exactly when
      it reads its buckets before the count. The agent does; the webhook does not. */
  lemma ScrapeOrder(ceilings: seq<nat>, order: Order)
    requires ceilings != []
    ensures NeverTorn(ceilings, order) <==> order == BucketsFirst
  {
    if order == BucketsFirst {
      forall s | Reachable(ceilings, order, s) && s.scrape.Printed?
        ensures WellFormed(s.scrape.printed, s.scrape.count)
      {
        ReachableOk(ceilings, order, s);
      }
    } else {
      var s := TornScrape(ceilings);
    }
  }

  // ----- which count-first scrapes are torn -----------------------------------------

  predicate InBucket(call: Call, done: nat, ceiling: nat) {
    call.done >= done && call.millis <= ceiling
  }

  /** The calls in a bucket when it was read that had not counted themselves when the scrape
      opened. */
  function Late(atOpen: seq<Call>, seen: seq<Call>, done: nat, ceiling: nat): nat {
    if seen == [] then 0
    else
      (if InBucket(seen[0], done, ceiling) && (atOpen == [] || atOpen[0].done == 0) then 1 else 0) +
      Late(if atOpen == [] then [] else atOpen[1..], seen[1..], done, ceiling)
  }

  /** The calls that had, and were not in the bucket when it was read: they lasted longer, or
      had not got to it. */
  function Missing(atOpen: seq<Call>, seen: seq<Call>, done: nat, ceiling: nat): nat
    requires |atOpen| <= |seen|
  {
    if atOpen == [] then 0
    else
      (if atOpen[0].done >= 1 && !InBucket(seen[0], done, ceiling) then 1 else 0) +
      Missing(atOpen[1..], seen[1..], done, ceiling)
  }

  lemma {:induction false} LateAndMissing(atOpen: seq<Call>, seen: seq<Call>, done: nat, ceiling: nat)
    requires |atOpen| <= |seen|
    ensures Past(seen, done, Some(ceiling)) + Missing(atOpen, seen, done, ceiling) ==
              Past(atOpen, 1, None) + Late(atOpen, seen, done, ceiling)
  {
    if seen != [] {
      LateAndMissing(if atOpen == [] then [] else atOpen[1..], seen[1..], done, ceiling);
    }
  }

  lemma {:induction false} RunningUnder(ceilings: seq<nat>, seen: seq<seq<Call>>, top: nat)
    requires |seen| <= |ceilings|
    ensures Under(Running(ceilings, seen), top) <==>
              forall i :: 0 <= i < |seen| ==> Past(seen[i], i + 3, Some(ceilings[i])) <= top
    decreases |seen|
  {
    hide Past;
    if seen != [] {
      var n := |seen| - 1;
      var before := Running(ceilings, seen[..n]);
      RunningUnder(ceilings, seen[..n], top);
      assert Running(ceilings, seen)[n] == Max(Top(before), Past(seen[n], n + 3, Some(ceilings[n])));
      assert forall i :: 0 <= i < n ==> Running(ceilings, seen)[i] == before[i];
    }
  }

  /** A scrape that reads the count first prints a well-formed histogram exactly when, for
      each bucket, the calls in it that came too late for the count are no more than the
      counted calls that are not in it. */
  lemma CountFirstExactly(ceilings: seq<nat>, s: State)
    requires Reachable(ceilings, CountFirst, s) && s.scrape.Printed?
    ensures |s.seen| == |ceilings| && forall i :: 0 <= i < |ceilings| ==> |s.atOpen| <= |s.seen[i]|
    ensures WellFormed(s.scrape.printed, s.scrape.count) <==>
              forall i :: 0 <= i < |ceilings| ==>
                Late(s.atOpen, s.seen[i], i + 3, ceilings[i]) <= Missing(s.atOpen, s.seen[i], i + 3, ceilings[i])
  {
    ReachableOk(ceilings, CountFirst, s);
    RunningUnder(ceilings, s.seen, s.scrape.count);
    hide Past, Late, Missing, Running;
    forall i | 0 <= i < |ceilings|
      ensures Past(s.seen[i], i + 3, Some(ceilings[i])) <= s.scrape.count <==>
                Late(s.atOpen, s.seen[i], i + 3, ceilings[i]) <= Missing(s.atOpen, s.seen[i], i + 3, ceilings[i])
    {
      LateAndMissing(s.atOpen, s.seen[i], i + 3, ceilings[i]);
    }
  }

  // ----- with nothing in flight -----------------------------------------------------

  /** How many observations lasted at most `ceiling`. */
  function AtMost(observed: seq<nat>, ceiling: nat): nat {
    if observed == [] then 0
    else (if observed[0] <= ceiling then 1 else 0) + AtMost(observed[1..], ceiling)
  }

  function Sum(observed: seq<nat>): nat {
    if observed == [] then 0 else observed[0] + Sum(observed[1..])
  }

  function Millis(calls: seq<Call>): seq<nat> {
    if calls == [] then [] else [calls[0].millis] + Millis(calls[1..])
  }

  lemma {:induction false} SettledPast(calls: seq<Call>, done: nat, ceiling: nat)
    requires done >= 2 && forall k :: 0 <= k < |calls| ==> calls[k].done >= done
    ensures Past(calls, done, Some(ceiling)) == AtMost(Millis(calls), ceiling)
    ensures Past(calls, 1, None) == |Millis(calls)| == |calls|
    ensures Total(calls) == Sum(Millis(calls))
  {
    if calls != [] {
      SettledPast(calls[1..], done, ceiling);
      assert Millis(calls)[1..] == Millis(calls[1..]);
    }
  }

  /** Once no call is in flight every counter is exact. */
  lemma SettledExact(ceilings: seq<nat>, order: Order, s: State)
    requires Reachable(ceilings, order, s)
    requires forall k :: 0 <= k < |s.calls| ==> s.calls[k].done == 2 + |ceilings|
    ensures s.count == |s.calls| && s.sum == Sum(Millis(s.calls))
    ensures |s.buckets| == |ceilings|
    ensures forall i :: 0 <= i < |ceilings| ==> s.buckets[i] == AtMost(Millis(s.calls), ceilings[i])
  {
    ReachableOk(ceilings, order, s);
    SettledPast(s.calls, 2, 0);
    forall i | 0 <= i < |ceilings| ensures s.buckets[i] == AtMost(Millis(s.calls), ceilings[i]) {
      SettledPast(s.calls, i + 3, ceilings[i]);
    }
  }

  // ----- the same code, one call at a time ------------------------------------------

  lemma {:induction false} AtMostGrows(observed: seq<nat>, millis: nat, ceiling: nat)
    ensures AtMost(observed + [millis], ceiling) == AtMost(observed, ceiling) + if millis <= ceiling then 1 else 0
    ensures Sum(observed + [millis]) == Sum(observed) + millis
  {
    if observed != [] {
      assert (observed + [millis])[1..] == observed[1..] + [millis];
      AtMostGrows(observed[1..], millis, ceiling);
    }
  }

  lemma {:induction false} AtMostRises(observed: seq<nat>, low: nat, high: nat)
    requires low <= high
    ensures AtMost(observed, low) <= AtMost(observed, high)
  {
    if observed != [] {
      AtMostRises(observed[1..], low, high);
    }
  }

  /** The agent's static counters. */
  class Metrics {
    const ceilings: seq<nat>
    var total: nat
    var sumMillis: nat
    var buckets: array<nat>
    ghost var observed: seq<nat>

    ghost predicate Valid()
      reads this, buckets
    {
      && Ascending(ceilings)
      && buckets.Length == |ceilings|
      && total == |observed|
      && sumMillis == Sum(observed)
      && forall i :: 0 <= i < |ceilings| ==> buckets[i] == AtMost(observed, ceilings[i])
    }

    constructor (ceilings: seq<nat>)
      requires Ascending(ceilings)
      ensures Valid() && observed == [] && this.ceilings == ceilings && fresh(buckets)
    {
      this.ceilings := ceilings;
      total, sumMillis, observed := 0, 0, [];
      buckets := new nat[|ceilings|](_ => 0);
    }

    method Reconciled(millis: nat)
      requires Valid()
      modifies this, buckets
      ensures Valid() && observed == old(observed) + [millis] && buckets == old(buckets)
    {
      total := total + 1;
      sumMillis := sumMillis + millis;
      ghost var before := observed;
      for i := 0 to |ceilings|
        invariant buckets == old(buckets) && buckets.Length == |ceilings|
        invariant total == |before| + 1 && sumMillis == Sum(before) + millis && observed == before
        invariant forall j :: 0 <= j < i ==>
                    buckets[j] == AtMost(before, ceilings[j]) + if millis <= ceilings[j] then 1 else 0
        invariant forall j :: i <= j < |ceilings| ==> buckets[j] == AtMost(before, ceilings[j])
      {
        if millis <= ceilings[i] {
          buckets[i] := buckets[i] + 1;
        }
      }
      observed := observed + [millis];
      AtMostGrows(before, millis, 0);
      forall i | 0 <= i < |ceilings| ensures buckets[i] == AtMost(observed, ceilings[i]) {
        AtMostGrows(before, millis, ceilings[i]);
      }
    }

    /** With nobody recording meanwhile, the running maximum changes nothing. */
    method Scraped() returns (printed: seq<nat>, count: nat, sum: nat)
      requires Valid()
      ensures count == |observed| && sum == Sum(observed) && |printed| == |ceilings|
      ensures forall i :: 0 <= i < |ceilings| ==> printed[i] == AtMost(observed, ceilings[i])
    {
      printed := [];
      var cumulative := 0;
      for i := 0 to |ceilings|
        invariant |printed| == i
        invariant forall j :: 0 <= j < i ==> printed[j] == AtMost(observed, ceilings[j])
        invariant cumulative == if i == 0 then 0 else AtMost(observed, ceilings[i - 1])
      {
        if i > 0 {
          AtMostRises(observed, ceilings[i - 1], ceilings[i]);
        }
        cumulative := Max(cumulative, buckets[i]);
        printed := printed + [cumulative];
      }
      count, sum := total, sumMillis;
    }
  }
}
