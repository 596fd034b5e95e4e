/** What a pod that joins another's watch is shown of the documents that arrive. The watch
    renders each for its starter first, and tells the others only of those that change what
    it serves there. */
module SharedDelivery {
  import opened Wrappers

  type Document = string

  /** How the starter and the pod that joins it render a document, if they can. */
  datatype Pair = Pair(own: Document -> Option<string>, theirs: Document -> Option<string>)

  /** `works` says whether the starter's own file could be written. */
  datatype Delivery = Delivery(document: Document, works: bool)

  /** What the loop takes to be served to its starter, and what the other pod is shown. */
  datatype Shown = Shown(served: string, other: string)

  /** What a pod finds when it claims: the document the watch last published for its starter,
      and the one the pod itself fetched and wrote before it claimed. Nothing makes them
      one: the watch may move on in between, or not have seen what the pod fetched. */
  datatype Join = Join(serving: Document, fetched: Document)

  predicate Joins(pair: Pair, start: Join) {
    pair.own(start.serving).Some? && pair.theirs(start.fetched).Some?
  }

  /** One turn of the loop: nothing where the starter cannot render or sees no change, and
      the others told before its own file is written. */
  function Turn(pair: Pair, s: Shown, delivery: Delivery): Shown {
    match pair.own(delivery.document)
    case None => s
    case Some(made) =>
      if made == s.served then s
      else
        Shown(if delivery.works then made else s.served, pair.theirs(delivery.document).GetOr(s.other))
  }

  /** After what the watch takes once the pod has claimed. */
  function After(pair: Pair, start: Join, deliveries: seq<Delivery>): Shown
    requires Joins(pair, start)
    decreases |deliveries|
  {
    if deliveries == [] then Shown(pair.own(start.serving).value, pair.theirs(start.fetched).value)
    else Turn(pair, After(pair, start, deliveries[..|deliveries| - 1]), deliveries[|deliveries| - 1])
  }

  /** The last document that a pod can render. */
  function Latest(render: Document -> Option<string>, first: Document, deliveries: seq<Delivery>): Document
    decreases |deliveries|
  {
    if deliveries == [] then first
    else
      var last := deliveries[|deliveries| - 1].document;
      if render(last).Some? then last else Latest(render, first, deliveries[..|deliveries| - 1])
  }

  /** The pod that joined is shown the last document it can render. */
  predicate UpToDate(pair: Pair, start: Join, deliveries: seq<Delivery>)
    requires Joins(pair, start)
  {
    Some(After(pair, start, deliveries).other) == pair.theirs(Latest(pair.theirs, start.fetched, deliveries))
  }

  predicate AllWork(deliveries: seq<Delivery>) {
    forall k :: 0 <= k < |deliveries| ==> deliveries[k].works
  }

  /** In every run from this join, with the starter's writes all working or not. */
  ghost predicate AlwaysUpToDate(pair: Pair, start: Join, working: bool)
    requires Joins(pair, start)
  {
    forall deliveries :: (working ==> AllWork(deliveries)) ==> UpToDate(pair, start, deliveries)
  }

  /** The others are told before the starter's own file is written, so whether that works is
      nothing to them: a document that changes what is served is shown to the pod if it can
      render it. What is served changes only when it works. */
  lemma ToldRegardless(pair: Pair, start: Join, deliveries: seq<Delivery>, last: Delivery)
    requires Joins(pair, start) && pair.own(last.document).Some?
    requires pair.own(last.document) != Some(After(pair, start, deliveries).served)
    ensures var before, after := After(pair, start, deliveries), After(pair, start, deliveries + [last]);
            && Some(after.other) ==
                 (if pair.theirs(last.document).Some? then pair.theirs(last.document) else Some(before.other))
            && Some(after.served) == (if last.works then pair.own(last.document) else Some(before.served))
  {
    assert (deliveries + [last])[..|deliveries|] == deliveries;
  }

  // ----- when the starter's rendering decides the other's ---------------------------

  /** Every document the other pod can render gives it the same. */
  ghost predicate Constant(pair: Pair) {
    forall a, b :: pair.theirs(a).Some? && pair.theirs(b).Some? ==> pair.theirs(a) == pair.theirs(b)
  }

  /** The starter can render what the other pod can. */
  ghost predicate Covers(pair: Pair) {
    forall a :: pair.theirs(a).Some? ==> pair.own(a).Some?
  }

  /** Documents the starter renders alike are alike for the other pod too. */
  ghost predicate Decides(pair: Pair) {
    forall a, b :: pair.own(a).Some? && pair.own(a) == pair.own(b) ==> pair.theirs(a) == pair.theirs(b)
  }

  /** What the watch is serving looks to the pod like what it fetched, or is nothing to it. */
  predicate InStep(pair: Pair, start: Join) {
    pair.theirs(start.serving).Some? ==> pair.theirs(start.serving) == pair.theirs(start.fetched)
  }

  lemma {:induction false} LatestRenders(render: Document -> Option<string>, first: Document, deliveries: seq<Delivery>)
    requires render(first).Some?
    ensures render(Latest(render, first, deliveries)).Some?
    decreases |deliveries|
  {
    if deliveries != [] {
      LatestRenders(render, first, deliveries[..|deliveries| - 1]);
    }
  }

  lemma {:induction false} ShownIsTheirs(pair: Pair, start: Join, deliveries: seq<Delivery>) returns (document: Document)
    requires Joins(pair, start)
    ensures pair.theirs(document) == Some(After(pair, start, deliveries).other)
    decreases |deliveries|
  {
    document := start.fetched;
    if deliveries != [] {
      document := ShownIsTheirs(pair, start, deliveries[..|deliveries| - 1]);
      var last := deliveries[|deliveries| - 1].document;
      if pair.theirs(last) == Some(After(pair, start, deliveries).other) {
        document := last;
      }
    }
  }

  lemma ConstantShown(pair: Pair, start: Join, deliveries: seq<Delivery>)
    requires Joins(pair, start) && Constant(pair)
    ensures UpToDate(pair, start, deliveries)
  {
    var document := ShownIsTheirs(pair, start, deliveries);
    LatestRenders(pair.theirs, start.fetched, deliveries);
  }

  /** The starter has been given a document it renders differently from what was served. */
  predicate Moved(pair: Pair, start: Join, deliveries: seq<Delivery>)
    decreases |deliveries|
  {
    deliveries != [] &&
    (Moved(pair, start, deliveries[..|deliveries| - 1]) ||
     var made := pair.own(deliveries[|deliveries| - 1].document);
     made.Some? && made != pair.own(start.serving))
  }

  /** And then, or by that very one, the pod one it can render. */
  predicate Refreshed(pair: Pair, start: Join, deliveries: seq<Delivery>)
    decreases |deliveries|
  {
    deliveries != [] &&
    (Refreshed(pair, start, deliveries[..|deliveries| - 1]) ||
     (Moved(pair, start, deliveries) && pair.theirs(deliveries[|deliveries| - 1].document).Some?))
  }

  /** Nothing the pod can render has arrived. */
  predicate Silent(pair: Pair, deliveries: seq<Delivery>) {
    forall k :: 0 <= k < |deliveries| ==> pair.theirs(deliveries[k].document).None?
  }

  lemma {:induction false} DecidedRun(pair: Pair, start: Join, deliveries: seq<Delivery>)
    requires Joins(pair, start) && AllWork(deliveries) && Covers(pair) && Decides(pair)
    ensures var s, last := After(pair, start, deliveries), Latest(pair.own, start.serving, deliveries);
            var latest := pair.theirs(Latest(pair.theirs, start.fetched, deliveries));
            && pair.own(last) == Some(s.served)
            && (if Refreshed(pair, start, deliveries) then
                  Some(s.other) == latest && (pair.theirs(last).Some? ==> pair.theirs(last) == latest)
                else
                  && Some(s.other) == pair.theirs(start.fetched)
                  && (if Moved(pair, start, deliveries) then pair.theirs(last).None?
                      else pair.own(last) == pair.own(start.serving))
                  && latest == pair.theirs(if Silent(pair, deliveries) then start.fetched else start.serving))
    decreases |deliveries|
  {
    if deliveries != [] {
      DecidedRun(pair, start, deliveries[..|deliveries| - 1]);
    }
  }

  /** Where the starter's rendering decides the pod's and its writes work, a run leaves the
      pod up to date exactly when the join was in step, or the starter has since seen a
      change and the pod a document, or nothing the pod can render has arrived. */
  lemma CaughtUpExactly(pair: Pair, start: Join, deliveries: seq<Delivery>)
    requires Joins(pair, start) && AllWork(deliveries) && Covers(pair) && Decides(pair)
    ensures UpToDate(pair, start, deliveries) <==>
              InStep(pair, start) || Refreshed(pair, start, deliveries) || Silent(pair, deliveries)
  {
    DecidedRun(pair, start, deliveries);
    LatestRenders(pair.theirs, start.fetched, deliveries);
  }

  // ----- and otherwise a run that shows it ------------------------------------------

  lemma OneLater(pair: Pair, start: Join, a: Delivery)
    requires Joins(pair, start)
    ensures After(pair, start, [a]) ==
              Turn(pair, Shown(pair.own(start.serving).value, pair.theirs(start.fetched).value), a)
    ensures pair.theirs(a.document).Some? ==> Latest(pair.theirs, start.fetched, [a]) == a.document
  {
    assert [a][..0] == [];
  }

  lemma TwoLater(pair: Pair, start: Join, a: Delivery, b: Delivery)
    requires Joins(pair, start)
    ensures After(pair, start, [a, b]) == Turn(pair, After(pair, start, [a]), b)
    ensures pair.theirs(b.document).Some? ==> Latest(pair.theirs, start.fetched, [a, b]) == b.document
  {
    assert [a, b][..1] == [a];
  }

  lemma ThreeLater(pair: Pair, start: Join, a: Delivery, b: Delivery, c: Delivery)
    requires Joins(pair, start)
    ensures After(pair, start, [a, b, c]) == Turn(pair, After(pair, start, [a, b]), c)
    ensures pair.theirs(c.document).Some? ==> Latest(pair.theirs, start.fetched, [a, b, c]) == c.document
  {
    assert [a, b, c][..2] == [a, b];
  }

  /** A document the starter cannot render, or sees no change in, is not shown. */
  lemma Missed(pair: Pair, start: Join, next: Document)
    requires Joins(pair, start) && pair.theirs(next).Some? && pair.theirs(next) != pair.theirs(start.fetched)
    requires pair.own(next).None? || pair.own(next) == pair.own(start.serving)
    ensures !AlwaysUpToDate(pair, start, true)
  {
    var delivery := Delivery(next, true);
    OneLater(pair, start, delivery);
    assert AllWork([delivery]) && !UpToDate(pair, start, [delivery]);
  }

  /** The same after another document. */
  lemma MissedSecond(pair: Pair, start: Join, first: Document, next: Document)
    requires Joins(pair, start) && pair.theirs(first).Some? && pair.own(first).Some?
    requires pair.theirs(next).Some? && pair.theirs(next) != pair.theirs(first)
    requires pair.own(next).None? || pair.own(next) == pair.own(first)
    ensures !AlwaysUpToDate(pair, start, true)
  {
    var a, b := Delivery(first, true), Delivery(next, true);
    OneLater(pair, start, a);
    TwoLater(pair, start, a, b);
    assert AllWork([a]) && AllWork([a, b]);
    assert !UpToDate(pair, start, [a]) || !UpToDate(pair, start, [a, b]);
  }

  /** A document that only the starter can render hides the next it renders alike. */
  lemma MissedBehind(pair: Pair, start: Join, shown: Document, between: Document, next: Document)
    requires Joins(pair, start) && pair.theirs(shown).Some? && pair.own(shown).Some?
    requires pair.theirs(next).Some? && pair.theirs(next) != pair.theirs(shown) && pair.own(next) != pair.own(shown)
    requires pair.own(between).Some? && pair.own(between) == pair.own(next) && pair.theirs(between).None?
    ensures !AlwaysUpToDate(pair, start, true)
  {
    var a, b, c := Delivery(shown, true), Delivery(between, true), Delivery(next, true);
    OneLater(pair, start, a);
    TwoLater(pair, start, a, b);
    ThreeLater(pair, start, a, b, c);
    assert AllWork([a]) && AllWork([a, b, c]);
    assert !UpToDate(pair, start, [a]) || !UpToDate(pair, start, [a, b, c]);
  }

  /** The starter cannot render `c`, which the pod can; `a` and `b` differ for the pod. */
  lemma Uncovered(pair: Pair, start: Join, a: Document, b: Document, c: Document)
    requires Joins(pair, start) && pair.theirs(a).Some? && pair.theirs(b).Some? && pair.theirs(a) != pair.theirs(b)
    requires pair.theirs(c).Some? && pair.own(c).None?
    ensures !AlwaysUpToDate(pair, start, true)
  {
    var other := if pair.theirs(a) == pair.theirs(c) then b else a;
    if pair.theirs(c) != pair.theirs(start.fetched) {
      Missed(pair, start, c);
    } else if pair.own(other).None? {
      Missed(pair, start, other);
    } else {
      MissedSecond(pair, start, other, c);
    }
  }

  /** `a` and `b` are alike for the starter and not for the pod; `p` and `q` differ for it. */
  lemma Undecided(pair: Pair, start: Join, a: Document, b: Document, p: Document, q: Document)
    requires Joins(pair, start) && Covers(pair)
    requires pair.theirs(p).Some? && pair.theirs(q).Some? && pair.theirs(p) != pair.theirs(q)
    requires pair.own(a).Some? && pair.own(a) == pair.own(b) && pair.theirs(a) != pair.theirs(b)
    ensures !AlwaysUpToDate(pair, start, true)
  {
    if pair.theirs(a).Some? && pair.theirs(b).Some? {
      MissedSecond(pair, start, a, b);
    } else {
      var next, between := if pair.theirs(a).Some? then a else b, if pair.theirs(a).Some? then b else a;
      var shown := if pair.theirs(p) == pair.theirs(next) then q else p;
      if pair.own(shown) == pair.own(next) {
        MissedSecond(pair, start, shown, next);
      } else {
        MissedBehind(pair, start, shown, between, next);
      }
    }
  }

  /** While the starter's writes work, a pod is shown every document it can render, in every
      run from its join on, exactly when the join was in step and either the starter's
      rendering decides the pod's (the starter can render what the pod can, and what it
      renders alike is alike for the pod) or the pod's never changes. */
  lemma JoinedShownExactly(pair: Pair, start: Join)
    requires Joins(pair, start)
    ensures AlwaysUpToDate(pair, start, true) <==>
              InStep(pair, start) && (Constant(pair) || (Covers(pair) && Decides(pair)))
  {
    if !InStep(pair, start) {
      Missed(pair, start, start.serving);
    } else if Constant(pair) {
      forall deliveries ensures UpToDate(pair, start, deliveries) {
        ConstantShown(pair, start, deliveries);
      }
    } else if Covers(pair) && Decides(pair) {
      forall deliveries | AllWork(deliveries) ensures UpToDate(pair, start, deliveries) {
        CaughtUpExactly(pair, start, deliveries);
      }
    } else {
      var p, q :| pair.theirs(p).Some? && pair.theirs(q).Some? && pair.theirs(p) != pair.theirs(q);
      if Covers(pair) {
        var a, b :| pair.own(a).Some? && pair.own(a) == pair.own(b) && pair.theirs(a) != pair.theirs(b);
        Undecided(pair, start, a, b, p, q);
      } else {
        var c :| pair.theirs(c).Some? && pair.own(c).None?;
        Uncovered(pair, start, p, q, c);
      }
    }
  }

  /** A return to what the starter was last given is no change, though the pod was shown
      another in between. */
  lemma Returned(pair: Pair, start: Join, p: Document, q: Document)
    requires Joins(pair, start) && pair.own(p).Some? && pair.theirs(p).Some? && pair.own(q).Some?
    requires pair.own(p) != pair.own(q) && pair.theirs(q).Some? && pair.theirs(p) != pair.theirs(q)
    requires pair.own(q) != pair.own(start.serving)
    ensures !AlwaysUpToDate(pair, start, false)
  {
    var a, b, c := Delivery(p, true), Delivery(q, false), Delivery(p, true);
    OneLater(pair, start, a);
    TwoLater(pair, start, a, b);
    ThreeLater(pair, start, a, b, c);
    assert !UpToDate(pair, start, [a]) || !UpToDate(pair, start, [a, b]) || !UpToDate(pair, start, [a, b, c]);
  }

  /** When the starter's writes can fail, as they do once it is gone with its directory, it is
      so exactly when the pod's rendering never changes: the loop goes on comparing with the
      last set it wrote. */
  lemma JoinedToFailingExactly(pair: Pair, start: Join)
    requires Joins(pair, start)
    ensures AlwaysUpToDate(pair, start, false) <==> Constant(pair)
  {
    if Constant(pair) {
      forall deliveries ensures UpToDate(pair, start, deliveries) {
        ConstantShown(pair, start, deliveries);
      }
    } else if AlwaysUpToDate(pair, start, true) {
      JoinedShownExactly(pair, start);
      var p, q :| pair.theirs(p).Some? && pair.theirs(q).Some? && pair.theirs(p) != pair.theirs(q);
      if pair.own(q) != pair.own(start.serving) {
        Returned(pair, start, p, q);
      } else {
        Returned(pair, start, q, p);
      }
    } else {
      assert AlwaysUpToDate(pair, start, false) ==> AlwaysUpToDate(pair, start, true);
    }
  }

  /** And over every join there can be it is so exactly when the pod's rendering never
      changes, even if the starter's decides it: nothing keeps a join in step. */
  lemma AnyJoinExactly(pair: Pair, some: Join)
    requires Joins(pair, some)
    ensures (forall start :: Joins(pair, start) ==> AlwaysUpToDate(pair, start, true)) <==> Constant(pair)
  {
    if Constant(pair) {
      forall start | Joins(pair, start) ensures AlwaysUpToDate(pair, start, true) {
        JoinedShownExactly(pair, start);
      }
    } else {
      var p, q :| pair.theirs(p).Some? && pair.theirs(q).Some? && pair.theirs(p) != pair.theirs(q);
      var start := if pair.own(p).Some? then Join(p, q) else Join(some.serving, q);
      Missed(pair, start, p);
    }
  }

  // ----- a join that was overtaken --------------------------------------------------

  /** What the loop takes to be served to the starter, whoever else reads. */
  function Serving(pair: Pair, served: string, deliveries: seq<Delivery>): string
    decreases |deliveries|
  {
    if deliveries == [] then served
    else
      var before := Serving(pair, served, deliveries[..|deliveries| - 1]);
      var last := deliveries[|deliveries| - 1];
      match pair.own(last.document)
      case None => before
      case Some(made) => if last.works then made else before
  }

  /** The pod fetches `earlier`, the watch takes `later`, and only then the pod claims: however
      often the store says `later` again, with every write working, the pod stays on `earlier`,
      though both pods render everything alike. */
  lemma {:induction false} OvertakenStays(pair: Pair, earlier: Document, later: Document, again: seq<Delivery>)
    requires pair.own == pair.theirs && pair.own(earlier).Some? && pair.own(later).Some?
    requires pair.own(earlier) != pair.own(later)
    requires forall k :: 0 <= k < |again| ==> again[k].document == later
    ensures Covers(pair) && Decides(pair)
    ensures Serving(pair, pair.own(earlier).value, [Delivery(later, true)]) == pair.own(later).value
    ensures var start := Join(later, earlier);
            && Joins(pair, start)
            && After(pair, start, again) == Shown(pair.own(later).value, pair.own(earlier).value)
            && (again != [] ==> !UpToDate(pair, start, again))
    decreases |again|
  {
    assert [Delivery(later, true)][..0] == [];
    if again != [] {
      OvertakenStays(pair, earlier, later, again[..|again| - 1]);
    }
  }
}
