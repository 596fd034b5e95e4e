/** The node agent's registry: one watch per document, however many pods read it. */
module SharedRegistry {
  type Path = string

  datatype Document = Document(source: string, endpoint: string, key: string, credential: string)

  /** How a pod wants its document rendered: its own, and of no meaning here. */
  type Spec = string

  datatype Reader = Reader(path: Path, spec: Spec)

  /** Watches are numbered in the order they are started. */
  datatype Watched = Watched(targets: seq<Reader>, watch: nat)

  /** `told[w]` is how many times watch `w`, of the `started` there have been, was told to
      stop. */
  datatype State = State(watched: map<Document, Watched>, started: nat, told: multiset<nat>)

  datatype Claim = Started(watch: nat) | Joined

  // ----- what claim and release do --------------------------------------------------

  predicate Holds(targets: seq<Reader>, target: Path) {
    exists k :: 0 <= k < |targets| && targets[k].path == target
  }

  /** `retain(|held| held.path != target)`. */
  function Without(targets: seq<Reader>, target: Path): seq<Reader> {
    if targets == [] then []
    else (if targets[0].path == target then [] else [targets[0]]) + Without(targets[1..], target)
  }

  function Claimed(s: State, document: Document, reader: Reader): (State, Claim) {
    if document in s.watched then
      var held := s.watched[document];
      (if Holds(held.targets, reader.path) then s
       else s.(watched := s.watched[document := held.(targets := held.targets + [reader])]), Joined)
    else
      (s.(watched := s.watched[document := Watched([reader], s.started)], started := s.started + 1), Started(s.started))
  }

  predicate Empties(s: State, target: Path, document: Document) {
    document in s.watched && Without(s.watched[document].targets, target) == []
  }

  /** The watches whose last reader a release takes away. */
  function Ended(s: State, target: Path): set<nat> {
    set d | d in s.watched && Empties(s, target, d) :: s.watched[d].watch
  }

  /** `watched.retain`: what is left of each document's readers, where somebody is. */
  function Kept(s: State, target: Path): map<Document, Watched> {
    map d | d in s.watched && !Empties(s, target, d) ::
      s.watched[d].(targets := Without(s.watched[d].targets, target))
  }

  function Released(s: State, target: Path): State {
    s.(watched := Kept(s, target), told := s.told + multiset(Ended(s, target)))
  }

  // ----- the relation it stands for -------------------------------------------------

  /** Which target reads which document. */
  function Pairs(s: State): set<(Document, Path)> {
    set d, k | d in s.watched && 0 <= k < |s.watched[d].targets| :: (d, s.watched[d].targets[k].path)
  }

  ghost predicate Distinct(targets: seq<Reader>) {
    forall j, k :: 0 <= j < k < |targets| ==> targets[j].path != targets[k].path
  }

  ghost predicate Inv(s: State) {
    && (forall d :: d in s.watched ==>
          && s.watched[d].targets != []
          && Distinct(s.watched[d].targets)
          && s.watched[d].watch < s.started
          && s.told[s.watched[d].watch] == 0)
    && (forall d, e :: d in s.watched && e in s.watched && d != e ==> s.watched[d].watch != s.watched[e].watch)
    && (forall w :: w in s.told ==> w < s.started && s.told[w] == 1)
    && (forall w :: 0 <= w < s.started && w !in s.told ==> exists d :: d in s.watched && s.watched[d].watch == w)
  }

  lemma PairHolds(s: State, d: Document, p: Path)
    ensures (d, p) in Pairs(s) <==> d in s.watched && Holds(s.watched[d].targets, p)
  {
    if d in s.watched && Holds(s.watched[d].targets, p) {
      var k :| 0 <= k < |s.watched[d].targets| && s.watched[d].targets[k].path == p;
    }
  }

  lemma HoldsAppended(targets: seq<Reader>, reader: Reader, p: Path)
    ensures Holds(targets + [reader], p) <==> Holds(targets, p) || p == reader.path
    ensures Holds([reader] + targets, p) <==> Holds(targets, p) || p == reader.path
  {
    var more, again := targets + [reader], [reader] + targets;
    if Holds(targets, p) {
      var k :| 0 <= k < |targets| && targets[k].path == p;
      assert more[k].path == p && again[k + 1].path == p;
    }
    assert more[|targets|].path == reader.path && again[0].path == reader.path;
  }

  /** What is left holds everybody but the target. */
  lemma {:induction false} WithoutHolds(targets: seq<Reader>, target: Path, p: Path)
    ensures Holds(Without(targets, target), p) <==> Holds(targets, p) && p != target
  {
    if targets != [] {
      var rest := Without(targets[1..], target);
      WithoutHolds(targets[1..], target, p);
      hide Holds;
      HoldsAppended(targets[1..], targets[0], p);
      HoldsAppended(rest, targets[0], p);
      assert targets == [targets[0]] + targets[1..];
      assert Without(targets, target) == if targets[0].path == target then rest else [targets[0]] + rest;
    } else {
      assert !Holds(targets, p);
    }
  }

  lemma {:induction false} WithoutDistinct(targets: seq<Reader>, target: Path)
    requires Distinct(targets)
    ensures Distinct(Without(targets, target))
  {
    if targets != [] {
      var rest := Without(targets[1..], target);
      WithoutDistinct(targets[1..], target);
      WithoutHolds(targets[1..], target, targets[0].path);
      assert forall k :: 0 <= k < |rest| ==> rest[k].path != targets[0].path;
    }
  }

  /** What is left holds everybody but the target, each still once. */
  lemma WithoutIs(targets: seq<Reader>, target: Path)
    ensures forall p: Path :: Holds(Without(targets, target), p) <==> Holds(targets, p) && p != target
    ensures Distinct(targets) ==> Distinct(Without(targets, target))
  {
    forall p: Path ensures Holds(Without(targets, target), p) <==> Holds(targets, p) && p != target {
      WithoutHolds(targets, target, p);
    }
    if Distinct(targets) {
      WithoutDistinct(targets, target);
    }
  }

  lemma ClaimStarts(s: State, document: Document, reader: Reader)
    requires Inv(s) && document !in s.watched
    ensures Inv(Claimed(s, document, reader).0)
  {
    hide Holds;
    var s' := Claimed(s, document, reader).0;
    forall w | 0 <= w < s'.started && w !in s'.told
      ensures exists d :: d in s'.watched && s'.watched[d].watch == w
    {
      var d :| if w == s.started then d == document else d in s.watched && s.watched[d].watch == w;
      assert s'.watched[d].watch == w;
    }
  }

  lemma ClaimJoins(s: State, document: Document, reader: Reader)
    requires Inv(s) && document in s.watched
    requires !Holds(s.watched[document].targets, reader.path)
    ensures Inv(Claimed(s, document, reader).0)
  {
    var s' := Claimed(s, document, reader).0;
    var targets, more := s.watched[document].targets, s'.watched[document].targets;
    forall j, k | 0 <= j < k < |more| ensures more[j].path != more[k].path {
      if k == |targets| {
        assert Holds(targets, targets[j].path);
      }
    }
    forall w | 0 <= w < s'.started && w !in s'.told
      ensures exists d :: d in s'.watched && s'.watched[d].watch == w
    {
      var d :| d in s.watched && s.watched[d].watch == w;
      assert s'.watched[d].watch == w;
    }
  }

  lemma ClaimKeeps(s: State, document: Document, reader: Reader)
    requires Inv(s)
    ensures Inv(Claimed(s, document, reader).0)
  {
    if document !in s.watched {
      ClaimStarts(s, document, reader);
    } else if !Holds(s.watched[document].targets, reader.path) {
      ClaimJoins(s, document, reader);
    }
  }

  /** A claim adds one pair, and answers Started exactly when nobody read the document. */
  lemma ClaimRefines(s: State, document: Document, reader: Reader)
    requires Inv(s)
    ensures Pairs(Claimed(s, document, reader).0) == Pairs(s) + {(document, reader.path)}
    ensures Claimed(s, document, reader).1.Started? <==> forall p :: (document, p) !in Pairs(s)
    ensures Claimed(s, document, reader).0.told == s.told
  {
    var s' := Claimed(s, document, reader).0;
    forall d, p ensures (d, p) in Pairs(s') <==> (d, p) in Pairs(s) || (d, p) == (document, reader.path) {
      PairHolds(s, d, p);
      PairHolds(s', d, p);
      HoldsAppended(if d in s.watched then s.watched[d].targets else [], reader, p);
      assert [] + [reader] == [reader];
    }
    forall p ensures (document, p) in Pairs(s) ==> document in s.watched {
      PairHolds(s, document, p);
    }
    if document in s.watched {
      PairHolds(s, document, s.watched[document].targets[0].path);
    }
  }

  lemma ReleaseKeeps(s: State, target: Path)
    requires Inv(s)
    ensures Inv(Released(s, target))
  {
    var s' := Released(s, target);
    forall d | d in s'.watched
      ensures Distinct(s'.watched[d].targets) && s'.told[s'.watched[d].watch] == 0
    {
      WithoutIs(s.watched[d].targets, target);
      assert s.watched[d].watch !in Ended(s, target);
    }
    forall w | w in s'.told ensures w < s'.started && s'.told[w] == 1 {
      if w in Ended(s, target) {
        assert w !in s.told;
      }
    }
    forall w | 0 <= w < s'.started && w !in s'.told
      ensures exists d :: d in s'.watched && s'.watched[d].watch == w
    {
      assert w !in s.told;
      var d :| d in s.watched && s.watched[d].watch == w;
      assert !Empties(s, target, d) && s'.watched[d].watch == w;
    }
  }

  /** The last reader of `document` is `target`. */
  ghost predicate LastReader(pairs: set<(Document, Path)>, document: Document, target: Path) {
    (document, target) in pairs && forall p :: (document, p) in pairs ==> p == target
  }

  lemma EmptiesExactly(s: State, target: Path, d: Document)
    requires Inv(s)
    ensures Empties(s, target, d) <==> LastReader(Pairs(s), d, target)
  {
    if d in s.watched {
      var targets := s.watched[d].targets;
      PairHolds(s, d, targets[0].path);
      PairHolds(s, d, target);
      var left := Without(targets, target);
      WithoutIs(targets, target);
      if left == [] {
        forall p | (d, p) in Pairs(s) ensures p == target {
          PairHolds(s, d, p);
          assert !Holds(left, p);
        }
      } else {
        PairHolds(s, d, left[0].path);
      }
    } else {
      PairHolds(s, d, target);
    }
  }

  lemma EndedExactly(s: State, target: Path)
    requires Inv(s)
    ensures Ended(s, target) != {} <==> exists d :: LastReader(Pairs(s), d, target)
  {
    hide Pairs, LastReader, Inv;
    forall d ensures Empties(s, target, d) <==> LastReader(Pairs(s), d, target) {
      EmptiesExactly(s, target, d);
    }
    forall d | Empties(s, target, d) ensures s.watched[d].watch in Ended(s, target) {
    }
  }

  /** A release removes the target's pairs and nobody else's, and tells a watch to stop
      exactly when its document's last reader was this target. */
  lemma ReleaseRefines(s: State, target: Path)
    requires Inv(s)
    ensures forall d, p :: (d, p) in Pairs(Released(s, target)) <==> (d, p) in Pairs(s) && p != target
    ensures forall d :: d in s.watched ==>
              Released(s, target).told[s.watched[d].watch] == if LastReader(Pairs(s), d, target) then 1 else 0
    ensures forall w :: w in s.told ==> Released(s, target).told[w] == s.told[w]
  {
    var s' := Released(s, target);
    ReleaseKeeps(s, target);
    forall d, p ensures (d, p) in Pairs(s') <==> (d, p) in Pairs(s) && p != target {
      PairHolds(s, d, p);
      PairHolds(s', d, p);
      if d in s.watched {
        WithoutIs(s.watched[d].targets, target);
        assert Empties(s, target, d) ==> !Holds(Without(s.watched[d].targets, target), p);
      }
    }
    forall d | d in s.watched
      ensures s'.told[s.watched[d].watch] == if LastReader(Pairs(s), d, target) then 1 else 0
    {
      EmptiesExactly(s, target, d);
      if Empties(s, target, d) {
        assert s.watched[d].watch in Ended(s, target);
      }
    }
  }

  // ----- over whole runs ------------------------------------------------------------

  datatype Op = Claims(document: Document, reader: Reader) | Releases(target: Path)

  function After(s: State, op: Op): State {
    match op
    case Claims(document, reader) => Claimed(s, document, reader).0
    case Releases(target) => Released(s, target)
  }

  function Run(ops: seq<Op>): State {
    if ops == [] then State(map[], 0, multiset{}) else After(Run(ops[..|ops| - 1]), ops[|ops| - 1])
  }

  /** The relation by itself: add a pair, or drop a target's pairs. */
  function Relation(ops: seq<Op>): set<(Document, Path)> {
    if ops == [] then {}
    else
      var before := Relation(ops[..|ops| - 1]);
      match ops[|ops| - 1]
      case Claims(document, reader) => before + {(document, reader.path)}
      case Releases(target) => set pair | pair in before && pair.1 != target
  }

  lemma {:induction false} RunRefines(ops: seq<Op>)
    ensures Inv(Run(ops)) && Pairs(Run(ops)) == Relation(ops)
  {
    if ops != [] {
      var before := ops[..|ops| - 1];
      RunRefines(before);
      match ops[|ops| - 1]
      case Claims(document, reader) =>
        ClaimKeeps(Run(before), document, reader);
        ClaimRefines(Run(before), document, reader);
      case Releases(target) =>
        ReleaseKeeps(Run(before), target);
        ReleaseRefines(Run(before), target);
    }
  }

  /** After any run the documents watched are those somebody reads, each by one watch that
      has not been told to stop; every other watch ever started was told exactly once. */
  lemma WatchesMatchReaders(ops: seq<Op>)
    ensures forall d :: d in Run(ops).watched <==> exists p :: (d, p) in Relation(ops)
    ensures forall d :: d in Run(ops).watched ==>
              Run(ops).watched[d].watch < Run(ops).started && Run(ops).told[Run(ops).watched[d].watch] == 0
    ensures forall w :: 0 <= w < Run(ops).started ==>
              Run(ops).told[w] == if exists d :: d in Run(ops).watched && Run(ops).watched[d].watch == w then 0 else 1
  {
    RunRefines(ops);
    var s := Run(ops);
    forall d ensures d in s.watched <==> exists p :: (d, p) in Relation(ops) {
      if d in s.watched {
        PairHolds(s, d, s.watched[d].targets[0].path);
      } else {
        forall p ensures (d, p) !in Pairs(s) {
          PairHolds(s, d, p);
        }
      }
    }
  }

  lemma {:induction false} TargetsCount(d: Document, targets: seq<Reader>)
    requires Distinct(targets)
    ensures |set k | 0 <= k < |targets| :: (d, targets[k].path)| == |targets|
  {
    var all := set k | 0 <= k < |targets| :: (d, targets[k].path);
    if targets == [] {
      assert all == {};
    } else {
      var n := |targets| - 1;
      TargetsCount(d, targets[..n]);
      var fewer := set k | 0 <= k < n :: (d, targets[..n][k].path);
      assert all == fewer + {(d, targets[n].path)};
    }
  }

  /** The pairs of some of the documents. */
  ghost function PairsOf(s: State, documents: set<Document>): set<(Document, Path)> {
    set d, k | d in documents && d in s.watched && 0 <= k < |s.watched[d].targets| ::
      (d, s.watched[d].targets[k].path)
  }

  lemma OneMoreCount(s: State, documents: set<Document>, d: Document)
    requires d in s.watched && d !in documents && Distinct(s.watched[d].targets)
    ensures |PairsOf(s, documents + {d})| == |PairsOf(s, documents)| + |s.watched[d].targets|
  {
    var mine := set k | 0 <= k < |s.watched[d].targets| :: (d, s.watched[d].targets[k].path);
    TargetsCount(d, s.watched[d].targets);
    assert PairsOf(s, documents + {d}) == PairsOf(s, documents) + mine;
    assert PairsOf(s, documents) !! mine;
  }

  // ----- the registry itself --------------------------------------------------------

  method Known(targets: seq<Reader>, target: Path) returns (known: bool)
    ensures known <==> Holds(targets, target)
  {
    known := false;
    for k := 0 to |targets|
      invariant known <==> exists j :: 0 <= j < k && targets[j].path == target
    {
      known := known || targets[k].path == target;
    }
  }

  lemma WithoutFrom(targets: seq<Reader>, target: Path, k: nat)
    requires k < |targets|
    ensures Without(targets[k..], target) ==
              (if targets[k].path == target then [] else [targets[k]]) + Without(targets[k + 1..], target)
  {
    assert targets[k..][0] == targets[k] && targets[k..][1..] == targets[k + 1..];
  }

  lemma WithoutNone(target: Path)
    ensures Without([], target) == []
  {
  }

  /** The inner `retain`: everybody but the target, in order. */
  method Retain(targets: seq<Reader>, target: Path) returns (left: seq<Reader>)
    ensures left == Without(targets, target)
  {
    hide Without;
    left := [];
    assert targets[0..] == targets;
    for k := 0 to |targets|
      invariant left + Without(targets[k..], target) == Without(targets, target)
    {
      WithoutFrom(targets, target, k);
      ghost var rest := Without(targets[k + 1..], target);
      if targets[k].path != target {
        assert left + ([targets[k]] + rest) == left + [targets[k]] + rest;
        left := left + [targets[k]];
      } else {
        assert [] + rest == rest;
      }
    }
    WithoutNone(target);
    assert targets[|targets|..] == [];
  }

  /** One entry of the outer `retain`: what is left of its readers, or, where nobody is,
      nothing, and its watch told. */
  function Swept(s: State, target: Path, d: Document): State {
    if d !in s.watched then s
    else
      var left := Without(s.watched[d].targets, target);
      if left == [] then s.(watched := s.watched - {d}, told := s.told + multiset{s.watched[d].watch})
      else s.(watched := s.watched[d := s.watched[d].(targets := left)])
  }

  /** The entries one after another. */
  function Sweep(s: State, target: Path, documents: seq<Document>): State
    decreases |documents|
  {
    if documents == [] then s
    else Swept(Sweep(s, target, documents[..|documents| - 1]), target, documents[|documents| - 1])
  }

  ghost predicate Once(documents: seq<Document>) {
    forall j, k :: 0 <= j < k < |documents| ==> documents[j] != documents[k]
  }

  /** Which entries have been through, and what is left of them. */
  lemma {:induction false} SweepWatched(s: State, target: Path, documents: seq<Document>, d: Document)
    requires Once(documents) && d in s.watched
    ensures var swept := Sweep(s, target, documents).watched;
            if d !in documents then d in swept && swept[d] == s.watched[d]
            else
              && (d in swept <==> !Empties(s, target, d))
              && (d in swept ==> swept[d] == s.watched[d].(targets := Without(s.watched[d].targets, target)))
    decreases |documents|
  {
    hide Without;
    if documents != [] {
      var before, last := documents[..|documents| - 1], documents[|documents| - 1];
      SweepWatched(s, target, before, d);
      assert last !in before && (d in documents <==> d in before || d == last);
    }
  }

  lemma {:induction false} SweepOnly(s: State, target: Path, documents: seq<Document>)
    ensures Sweep(s, target, documents).watched.Keys <= s.watched.Keys
    ensures Sweep(s, target, documents).started == s.started
    decreases |documents|
  {
    hide Without;
    if documents != [] {
      SweepOnly(s, target, documents[..|documents| - 1]);
    }
  }

  /** How often a sweep tells a watch. */
  lemma {:induction false} SweepTold(s: State, target: Path, documents: seq<Document>, w: nat)
    requires Inv(s) && Once(documents) && forall d :: d in documents ==> d in s.watched
    ensures Sweep(s, target, documents).told[w] ==
              s.told[w] + if exists d :: d in documents && Empties(s, target, d) && s.watched[d].watch == w then 1 else 0
    decreases |documents|
  {
    hide Without;
    if documents != [] {
      var before, last := documents[..|documents| - 1], documents[|documents| - 1];
      SweepTold(s, target, before, w);
      assert last !in before && last in documents;
      assert forall d :: d in documents <==> d in before || d == last;
      SweepWatched(s, target, before, last);
    }
  }

  /** Sweeping every document is what a release is meant to be: one signal for each watch
      whose last reader goes. */
  lemma SweepReleases(s: State, target: Path, documents: seq<Document>)
    requires Inv(s) && Once(documents) && forall d :: d in documents <==> d in s.watched
    ensures Sweep(s, target, documents) == Released(s, target)
  {
    var swept := Sweep(s, target, documents);
    SweepOnly(s, target, documents);
    SweepKeeps(s, target, documents);
    forall w ensures swept.told[w] == (s.told + multiset(Ended(s, target)))[w] {
      SweepTold(s, target, documents, w);
      EndedOne(s, target, w);
    }
  }

  lemma SweepKeeps(s: State, target: Path, documents: seq<Document>)
    requires Once(documents) && forall d :: d in documents <==> d in s.watched
    ensures Sweep(s, target, documents).watched == Kept(s, target)
  {
    var swept := Sweep(s, target, documents).watched;
    SweepOnly(s, target, documents);
    hide Sweep, Without, Once;
    forall d | d in s.watched
      ensures d in swept <==> !Empties(s, target, d)
      ensures d in swept ==> swept[d] == s.watched[d].(targets := Without(s.watched[d].targets, target))
    {
      SweepWatched(s, target, documents, d);
    }
  }

  lemma EndedOne(s: State, target: Path, w: nat)
    ensures multiset(Ended(s, target))[w] ==
              if exists d :: d in s.watched && Empties(s, target, d) && s.watched[d].watch == w then 1 else 0
  {
    hide Without;
  }

  /** Every document is before the sweep or through it, once. */
  ghost predicate Parted(s: State, left: set<Document>, through: seq<Document>) {
    && Once(through) && (forall d :: d in s.watched <==> d in left || d in through)
    && forall d :: d in left ==> d !in through
  }

  ghost predicate EndsOne(s: State, target: Path, through: seq<Document>) {
    exists d :: d in through && Empties(s, target, d)
  }

  lemma SweepOneMore(s: State, target: Path, left: set<Document>, through: seq<Document>, d: Document)
    requires Parted(s, left, through) && d in left
    ensures Parted(s, left - {d}, through + [d])
    ensures var now := Sweep(s, target, through);
            && d in now.watched && now.watched[d] == s.watched[d]
            && Sweep(s, target, through + [d]) == Swept(now, target, d)
    ensures EndsOne(s, target, through + [d]) <==>
              EndsOne(s, target, through) || Without(s.watched[d].targets, target) == []
  {
    SweepWatched(s, target, through, d);
    hide Swept, Without;
    assert (through + [d])[..|through|] == through;
    assert forall e :: e in through + [d] <==> e in through || e == d;
  }

  lemma NoneThrough(s: State)
    ensures Parted(s, s.watched.Keys, [])
  {
  }

  lemma AnyEnded(s: State, target: Path, through: seq<Document>)
    requires forall d :: d in through <==> d in s.watched
    ensures Ended(s, target) != {} <==> EndsOne(s, target, through)
  {
    hide Without;
    if d :| d in through && Empties(s, target, d) {
      assert s.watched[d].watch in Ended(s, target);
    }
  }

  lemma AllThrough(s: State, target: Path, left: set<Document>, through: seq<Document>)
    requires Inv(s) && Parted(s, left, through)
    ensures left == {} ==> Sweep(s, target, through) == Released(s, target)
    ensures left == {} ==> (EndsOne(s, target, through) <==> Ended(s, target) != {})
    ensures through == [] ==> !EndsOne(s, target, through) && Sweep(s, target, through) == s
  {
    if left == {} {
      SweepReleases(s, target, through);
      AnyEnded(s, target, through);
    }
  }

  class Registry {
    var watched: map<Document, Watched>
    var started: nat
    var told: multiset<nat>

    ghost function Contents(): State
      reads this
    {
      State(watched, started, told)
    }

    ghost predicate Valid()
      reads this
    {
      Inv(Contents())
    }

    constructor ()
      ensures Valid() && Contents() == State(map[], 0, multiset{})
    {
      watched, started, told := map[], 0, multiset{};
    }

    method Claim(document: Document, target: Path, spec: Spec) returns (claim: Claim)
      requires Valid()
      modifies this
      ensures Valid() && (Contents(), claim) == Claimed(old(Contents()), document, Reader(target, spec))
      ensures Pairs(Contents()) == old(Pairs(Contents())) + {(document, target)}
    {
      var reader := Reader(target, spec);
      ClaimKeeps(Contents(), document, reader);
      ClaimRefines(Contents(), document, reader);
      hide Inv, Pairs;
      if document in watched {
        var held := watched[document];
        var known := Known(held.targets, target);
        if !known {
          watched := watched[document := held.(targets := held.targets + [reader])];
        }
        return Joined;
      }
      watched := watched[document := Watched([reader], started)];
      started := started + 1;
      claim := Started(started - 1);
    }

    method Readers(document: Document) returns (readers: seq<Reader>)
      requires Valid()
      ensures forall r :: r in readers ==> document in watched && r in watched[document].targets
      ensures forall p :: Holds(readers, p) <==> (document, p) in Pairs(Contents())
    {
      readers := if document in watched then watched[document].targets else [];
      forall p ensures Holds(readers, p) <==> (document, p) in Pairs(Contents()) {
        PairHolds(Contents(), document, p);
      }
    }

    /** Drop the target from every document's readers; where nobody is left, drop the
        document and tell its watch to stop. */
    method Release(target: Path) returns (ended: bool)
      requires Valid()
      modifies this
      ensures Valid() && Contents() == Released(old(Contents()), target)
      ensures ended <==> exists d :: LastReader(old(Pairs(Contents())), d, target)
    {
      hide Pairs, LastReader, Without, Ended, Kept, Released, Inv, Parted, EndsOne, Sweep, Empties;
      ghost var before := State(watched, started, told);
      ReleaseKeeps(before, target);
      EndedExactly(before, target);
      NoneThrough(before);
      ended := false;
      var left := watched.Keys;
      ghost var through: seq<Document> := [];
      AllThrough(before, target, left, through);
      while left != {}
        invariant Parted(before, left, through)
        invariant State(watched, started, told) == Sweep(before, target, through)
        invariant ended <==> EndsOne(before, target, through)
        decreases left
      {
        var d :| d in left;
        SweepOneMore(before, target, left, through, d);
        var held := watched[d];
        var targets := Retain(held.targets, target);
        if targets == [] {
          told := told + multiset{held.watch};
          watched := watched - {d};
          ended := true;
        } else {
          watched := watched[d := held.(targets := targets)];
        }
        through := through + [d];
        left := left - {d};
      }
      AllThrough(before, target, left, through);
    }

    /** Documents watched, and pairs of a document and a target. */
    method Counts() returns (documents: nat, targets: nat)
      requires Valid()
      ensures documents == |watched| && targets == |Pairs(Contents())|
    {
      documents, targets := |watched|, 0;
      var left := watched.Keys;
      while left != {}
        invariant left <= watched.Keys
        invariant targets == |PairsOf(Contents(), watched.Keys - left)|
        decreases left
      {
        var d :| d in left;
        OneMoreCount(Contents(), watched.Keys - left, d);
        assert watched.Keys - (left - {d}) == watched.Keys - left + {d};
        targets := targets + |watched[d].targets|;
        left := left - {d};
      }
      assert PairsOf(Contents(), watched.Keys - {}) == Pairs(Contents());
    }
  }
}
