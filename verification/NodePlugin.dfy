/** The node plugin's publish and unpublish calls over the shared registry, and the watches
    they start. Calls for different targets and the steps of the watches interleave; the
    kubelet makes one call at a time for each target. The registry is the relation it
    refines, and the number of the watch last started for each document it has an entry for. */
module NodePlugin {
  import opened Wrappers
  import opened SharedRegistry

  datatype Call =
    | Checked(document: Document)
    | Prepared(document: Document)
    | Written(document: Document)
    | Claiming(document: Document)
    | Releasing
    | Removing

  /** A running watch and the target that started it. Of the document it has in hand it
      still owes `due` their files, and, after them, `own` its starter's; while it is
      `first`, that is the one it started with, which its starter gets before the others. */
  datatype Watch = Watch(document: Document, owner: Path, due: set<Path>, own: bool, first: bool)
  {
    predicate Idle() {
      due == {} && !own
    }
  }

  datatype NodeState = NodeState(
    pairs: set<(Document, Path)>,
    current: map<Document, nat>,
    published: set<Path>,
    dirs: set<Path>,
    files: set<Path>,
    calls: map<Path, Call>,
    watches: map<nat, Watch>,
    started: nat)

  /** A write that fails leaves the file as it was. */
  datatype Step =
    | Publish(target: Path, document: Document)
    | Prepare(target: Path)
    | Render(target: Path)
    | Join(target: Path)
    | Refuse(target: Path)
    | Answer(target: Path)
    | Unpublish(target: Path)
    | Forget(target: Path)
    | Clear(target: Path)
    | RemoveDirectory(target: Path)
    | Take(watch: nat)
    | Spread(watch: nat, reader: Path, ok: bool)
    | Own(watch: nat, ok: bool)
    | Notice(watch: nat)

  /** The stop was sent: the registry no longer has this watch for its document. */
  predicate Told(s: NodeState, w: nat)
    requires w in s.watches
  {
    s.watches[w].document !in s.current || s.current[s.watches[w].document] != w
  }

  predicate Enabled(s: NodeState, step: Step) {
    match step
    case Publish(t, _) => t !in s.calls
    case Prepare(t) => t in s.calls && s.calls[t].Checked?
    case Render(t) => t in s.calls && s.calls[t].Prepared?
    case Join(t) => t in s.calls && s.calls[t].Written?
    case Refuse(t) => t in s.calls && (s.calls[t].Checked? || s.calls[t].Prepared?)
    case Answer(t) => t in s.calls && s.calls[t].Claiming?
    case Unpublish(t) => t !in s.calls
    case Forget(t) => t in s.calls && s.calls[t].Releasing?
    case Clear(t) => t in s.calls && s.calls[t].Removing?
    case RemoveDirectory(t) => t !in s.calls && t !in s.published
    case Take(w) => w in s.watches && s.watches[w].Idle()
    case Spread(w, r, _) => w in s.watches && r in s.watches[w].due
    case Own(w, _) => w in s.watches && s.watches[w].due == {} && s.watches[w].own
    case Notice(w) => w in s.watches && s.watches[w].Idle() && Told(s, w)
  }

  /** A write lands where there is a directory. */
  function Land(s: NodeState, t: Path, ok: bool): NodeState {
    if ok && t in s.dirs then s.(files := s.files + {t}) else s
  }

  function Readers(s: NodeState, document: Document): set<Path> {
    set pair | pair in s.pairs && pair.0 == document :: pair.1
  }

  /** The claim: one pair more, and a watch where the document has no entry. */
  function Joined(s: NodeState, t: Path, d: Document): NodeState {
    var paired := s.(pairs := s.pairs + {(d, t)});
    if d in s.current then paired
    else
      paired.(current := s.current[d := s.started],
              watches := s.watches[s.started := Watch(d, t, {}, true, true)],
              started := s.started + 1)
  }

  function Left(s: NodeState, t: Path): NodeState {
    var kept := s.(pairs := set pair | pair in s.pairs && pair.1 != t);
    kept.(current := map d | d in s.current && Readers(kept, d) != {} :: s.current[d])
  }

  function Apply(s: NodeState, step: Step): NodeState
    requires Enabled(s, step)
  {
    match step
    case Publish(t, d) =>
      // The retry case, checked before anything is done.
      if t in s.published then s else s.(calls := s.calls[t := Checked(d)])
    case Prepare(t) => s.(dirs := s.dirs + {t}, calls := s.calls[t := Prepared(s.calls[t].document)])
    case Render(t) => s.(files := s.files + {t}, calls := s.calls[t := Written(s.calls[t].document)])
    case Join(t) => Joined(s, t, s.calls[t].document).(calls := s.calls[t := Claiming(s.calls[t].document)])
    case Refuse(t) => s.(calls := s.calls - {t})
    case Answer(t) => s.(published := s.published + {t}, calls := s.calls - {t})
    case Unpublish(t) => Left(s, t).(calls := s.calls[t := Releasing])
    case Forget(t) => s.(published := s.published - {t}, calls := s.calls[t := Removing])
    case Clear(t) => s.(files := s.files - {t}, calls := s.calls - {t})
    case RemoveDirectory(t) => s.(dirs := s.dirs - {t}, files := s.files - {t})
    case Take(w) =>
      var watch := s.watches[w];
      s.(watches := s.watches[w := watch.(due := Readers(s, watch.document) - {watch.owner}, own := true)])
    case Spread(w, r, ok) =>
      var watch := s.watches[w];
      Land(s, r, ok).(watches := s.watches[w := watch.(due := watch.due - {r})])
    case Own(w, ok) =>
      var watch := s.watches[w];
      if FailsFirst(s, step, w) then s.(watches := s.watches - {w})
      else
        var others := if watch.first then Readers(s, watch.document) - {watch.owner} else {};
        Land(s, watch.owner, ok).(watches := s.watches[w := watch.(due := others, own := false, first := false)])
    case Notice(w) => s.(watches := s.watches - {w})
  }

  /** The first document of a watch cannot be rendered or written: its loop returns, which is
      logged and no more. */
  predicate FailsFirst(s: NodeState, step: Step, w: nat) {
    step.Own? && step.watch == w && w in s.watches && s.watches[w].first &&
    !(step.ok && s.watches[w].owner in s.dirs)
  }

  ghost predicate Reads(s: NodeState, target: Path) {
    exists d :: (d, target) in s.pairs
  }

  function Empty(): NodeState {
    NodeState({}, map[], {}, {}, {}, map[], map[], 0)
  }

  function RunFrom(s: NodeState, steps: seq<Step>): Option<NodeState>
    decreases |steps|
  {
    if steps == [] then Some(s)
    else if Enabled(s, steps[0]) then RunFrom(Apply(s, steps[0]), steps[1..])
    else None
  }

  // ----- what every step keeps ------------------------------------------------------

  /** How far each target's call has got says what is recorded for it. */
  ghost predicate TargetOk(s: NodeState, t: Path) {
    if t !in s.calls then (t in s.published <==> Reads(s, t)) && (t in s.published ==> t in s.files)
    else
      match s.calls[t]
      case Checked(_) => t !in s.published && !Reads(s, t)
      case Prepared(_) => t !in s.published && !Reads(s, t) && t in s.dirs
      case Written(_) => t !in s.published && !Reads(s, t) && t in s.files
      case Claiming(d) => t !in s.published && (d, t) in s.pairs && t in s.files
      case Releasing => !Reads(s, t)
      case Removing => !Reads(s, t) && t !in s.published
  }

  /** The registry has an entry for exactly the documents with a reader, each with a watch of
      its own, which may have ended. */
  ghost predicate WatchesOk(s: NodeState) {
    && (forall d :: d in s.current <==> exists t :: (d, t) in s.pairs)
    && (forall d :: d in s.current ==> s.current[d] < s.started)
    && (forall w :: w in s.watches ==> w < s.started)
    && (forall d :: d in s.current && s.current[d] in s.watches ==> s.watches[s.current[d]].document == d)
    && (forall w :: w in s.watches && s.watches[w].first ==> s.watches[w].own && s.watches[w].due == {})
  }

  ghost predicate PairsOk(s: NodeState) {
    forall d, e, t :: (d, t) in s.pairs && (e, t) in s.pairs ==> d == e
  }

  ghost predicate Inv(s: NodeState) {
    && (forall t :: TargetOk(s, t))
    && PairsOk(s)
    && s.files <= s.dirs
    && WatchesOk(s)
  }

  predicate OfWatch(step: Step) {
    step.Take? || step.Spread? || step.Own? || step.Notice?
  }

  lemma TargetsStepOk(s: NodeState, step: Step)
    requires Inv(s) && Enabled(s, step)
    ensures forall t :: TargetOk(Apply(s, step), t)
    ensures Apply(s, step).files <= Apply(s, step).dirs
  {
    var s' := Apply(s, step);
    if step.Render? {
      assert TargetOk(s, step.target);
    }
    forall t ensures TargetOk(s', t) {
      assert TargetOk(s, t);
      assert Reads(s', t) <==>
             (Reads(s, t) && step != Unpublish(t)) || step == Join(t) by {
        if Reads(s, t) {
          var d :| (d, t) in s.pairs;
          assert step != Unpublish(t) ==> (d, t) in s'.pairs;
        }
        if step == Join(t) {
          assert (s.calls[t].document, t) in s'.pairs;
        }
      }
    }
  }

  lemma PairsStepOk(s: NodeState, step: Step)
    requires Inv(s) && Enabled(s, step)
    ensures PairsOk(Apply(s, step))
    ensures WatchesOk(Apply(s, step))
  {
    hide Enabled, Apply;
    match step
    case Join(t) => JoinOk(s, t);
    case Unpublish(t) => LeaveOk(s, t);
    case _ => if OfWatch(step) { WatchOk(s, step); } else { OtherOk(s, step); }
  }

  lemma JoinOk(s: NodeState, t: Path)
    requires Inv(s) && Enabled(s, Join(t))
    ensures PairsOk(Apply(s, Join(t))) && WatchesOk(Apply(s, Join(t)))
  {
    assert TargetOk(s, t);
    var d, s' := s.calls[t].document, Apply(s, Join(t));
    assert (d, t) in s'.pairs;
    forall e ensures e in s'.current <==> exists r :: (e, r) in s'.pairs {
      if r :| (e, r) in s.pairs {
        assert (e, r) in s'.pairs;
      }
    }
  }

  lemma LeaveOk(s: NodeState, t: Path)
    requires Inv(s) && Enabled(s, Unpublish(t))
    ensures PairsOk(Apply(s, Unpublish(t))) && WatchesOk(Apply(s, Unpublish(t)))
  {
    var s' := Apply(s, Unpublish(t));
    forall e ensures e in s'.current <==> exists r :: (e, r) in s'.pairs {
      if r :| (e, r) in s'.pairs {
        assert r in Readers(s', e) && (e, r) in s.pairs;
      }
    }
  }

  lemma OtherOk(s: NodeState, step: Step)
    requires Inv(s) && Enabled(s, step) && !step.Join? && !step.Unpublish? && !OfWatch(step)
    ensures PairsOk(Apply(s, step)) && WatchesOk(Apply(s, step))
  {
    hide TargetOk;
  }

  lemma WatchOk(s: NodeState, step: Step)
    requires Inv(s) && Enabled(s, step) && OfWatch(step)
    ensures PairsOk(Apply(s, step)) && WatchesOk(Apply(s, step))
  {
    hide Readers, TargetOk;
  }

  lemma StepOk(s: NodeState, step: Step)
    requires Inv(s) && Enabled(s, step)
    ensures Inv(Apply(s, step))
  {
    TargetsStepOk(s, step);
    PairsStepOk(s, step);
    hide TargetOk, WatchesOk, PairsOk, Apply;
  }

  lemma {:induction false} RunOk(s: NodeState, steps: seq<Step>)
    requires Inv(s) && RunFrom(s, steps).Some?
    ensures Inv(RunFrom(s, steps).value)
    decreases |steps|
  {
    hide Apply, Inv;
    if steps != [] {
      StepOk(s, steps[0]);
      RunOk(Apply(s, steps[0]), steps[1..]);
    }
  }

  ghost predicate Reachable(s: NodeState) {
    exists steps :: RunFrom(Empty(), steps) == Some(s)
  }

  lemma ReachableOk(s: NodeState)
    requires Reachable(s)
    ensures Inv(s)
  {
    var steps :| RunFrom(Empty(), steps) == Some(s);
    assert Inv(Empty()) by {
      forall t ensures TargetOk(Empty(), t) {
      }
    }
    RunOk(Empty(), steps);
  }

  /** Whenever no call is in flight for a target it is published exactly when it reads a
      document, which is then one document, and it has its file. And the registry has an
      entry for a document exactly when somebody reads it. */
  lemma Settled(s: NodeState, t: Path)
    requires Reachable(s) && t !in s.calls
    ensures t in s.published <==> exists d :: (d, t) in s.pairs
    ensures forall d, e :: (d, t) in s.pairs && (e, t) in s.pairs ==> d == e
    ensures t in s.published ==> t in s.files && t in s.dirs
    ensures forall d :: d in s.current <==> exists r :: (d, r) in s.pairs
  {
    ReachableOk(s);
    assert TargetOk(s, t);
  }

  // ----- the file of an unpublished target ------------------------------------------

  /** Not a step of a call for this target. */
  predicate Elsewhere(step: Step, t: Path) {
    OfWatch(step) || step.RemoveDirectory? || step.target != t
  }

  /** However the other targets, the watches and the kubelet go on, or stop, without another
      call for this one. */
  ghost predicate CanHaveFile(s: NodeState, t: Path) {
    exists steps :: (forall k :: 0 <= k < |steps| ==> Elsewhere(steps[k], t)) &&
                    RunFrom(s, steps).Some? && t in RunFrom(s, steps).value.files
  }

  /** A running watch that will write this target's file: it started the watch, or is owed
      the document the watch has in hand. */
  ghost predicate Owed(s: NodeState, t: Path) {
    exists w :: w in s.watches && (s.watches[w].owner == t || t in s.watches[w].due)
  }

  ghost predicate Inert(s: NodeState, t: Path) {
    t !in s.files && !Reads(s, t) && t !in s.calls && (t !in s.dirs || !Owed(s, t))
  }

  lemma InertStays(s: NodeState, step: Step, t: Path)
    requires Inert(s, t) && Enabled(s, step) && Elsewhere(step, t)
    ensures Inert(Apply(s, step), t)
  {
  }

  lemma {:induction false} InertRuns(s: NodeState, steps: seq<Step>, t: Path)
    requires Inert(s, t) && RunFrom(s, steps).Some?
    requires forall k :: 0 <= k < |steps| ==> Elsewhere(steps[k], t)
    ensures Inert(RunFrom(s, steps).value, t)
    decreases |steps|
  {
    hide Apply, Elsewhere, Enabled;
    if steps != [] {
      InertStays(s, steps[0], t);
      hide Inert;
      InertRuns(Apply(s, steps[0]), steps[1..], t);
    }
  }

  lemma {:induction false} RunJoin(s: NodeState, a: seq<Step>, b: seq<Step>)
    ensures RunFrom(s, a + b) == match RunFrom(s, a) { case None => None case Some(next) => RunFrom(next, b) }
    decreases |a|
  {
    hide Apply, Enabled;
    if a == [] {
      assert a + b == b;
    } else {
      assert (a + b)[1..] == a[1..] + b;
      if Enabled(s, a[0]) {
        RunJoin(Apply(s, a[0]), a[1..], b);
      }
    }
  }

  /** The writes a watch still owes its readers, all failing. */
  lemma {:induction false} Flushed(s: NodeState, w: nat) returns (steps: seq<Step>)
    requires w in s.watches
    ensures forall k :: 0 <= k < |steps| ==> OfWatch(steps[k])
    ensures RunFrom(s, steps) == Some(s.(watches := s.watches[w := s.watches[w].(due := {})]))
    decreases s.watches[w].due
  {
    var watch := s.watches[w];
    if watch.due == {} {
      steps := [];
      assert s.watches[w := watch.(due := {})] == s.watches;
    } else {
      var r :| r in watch.due;
      var next := Apply(s, Spread(w, r, false));
      var rest := Flushed(next, w);
      steps := [Spread(w, r, false)] + rest;
      assert steps[1..] == rest;
      assert next.watches[w := watch.(due := {})] == s.watches[w := watch.(due := {})];
    }
  }

  /** A watch that owes its starter a file whose directory is there can write it. */
  lemma OwesOwner(s: NodeState, w: nat) returns (steps: seq<Step>)
    requires w in s.watches && s.watches[w].own && s.watches[w].owner in s.dirs
    ensures forall k :: 0 <= k < |steps| ==> OfWatch(steps[k])
    ensures RunFrom(s, steps).Some? && s.watches[w].owner in RunFrom(s, steps).value.files
  {
    var first := Flushed(s, w);
    var flushed := RunFrom(s, first).value;
    OneStep(flushed, Own(w, true));
    RunJoin(s, first, [Own(w, true)]);
    steps := first + [Own(w, true)];
  }

  /** A watch whose starter still has its directory can write its file. */
  lemma OwnerWrites(s: NodeState, w: nat) returns (steps: seq<Step>)
    requires w in s.watches && s.watches[w].owner in s.dirs
    ensures forall k :: 0 <= k < |steps| ==> OfWatch(steps[k])
    ensures RunFrom(s, steps).Some? && s.watches[w].owner in RunFrom(s, steps).value.files
  {
    if s.watches[w].own {
      steps := OwesOwner(s, w);
    } else {
      var first := Flushed(s, w);
      var flushed := RunFrom(s, first).value;
      var taken := Apply(flushed, Take(w));
      OneStep(flushed, Take(w));
      var rest := OwesOwner(taken, w);
      hide Apply, Enabled;
      RunJoin(flushed, [Take(w)], rest);
      RunJoin(s, first, [Take(w)] + rest);
      steps := first + ([Take(w)] + rest);
    }
  }

  lemma OneStep(s: NodeState, step: Step)
    requires Enabled(s, step)
    ensures RunFrom(s, [step]) == Some(Apply(s, step))
    ensures step.Own? && step.ok && s.watches[step.watch].owner in s.dirs ==>
              s.watches[step.watch].owner in Apply(s, step).files
  {
    assert [step][1..] == [];
  }

  /** Without a further call for it, an unpublished target can have a file exactly when it
      has one already, or its directory is still there and a running watch is its own or
      still owes it the document in hand. */
  lemma FileExactly(s: NodeState, t: Path)
    requires Reachable(s) && t !in s.calls && t !in s.published
    ensures CanHaveFile(s, t) <==> t in s.files || (t in s.dirs && Owed(s, t))
  {
    ReachableOk(s);
    assert TargetOk(s, t);
    if t in s.files {
      assert RunFrom(s, []) == Some(s);
    } else if t in s.dirs && Owed(s, t) {
      var w :| w in s.watches && (s.watches[w].owner == t || t in s.watches[w].due);
      var steps: seq<Step>;
      if t in s.watches[w].due {
        steps := [Spread(w, t, true)];
        assert steps[1..] == [];
        assert RunFrom(s, steps) == Some(Apply(s, steps[0]));
      } else {
        steps := OwnerWrites(s, w);
      }
      assert forall k :: 0 <= k < |steps| ==> Elsewhere(steps[k], t);
    } else if CanHaveFile(s, t) {
      var steps :| (forall k :: 0 <= k < |steps| ==> Elsewhere(steps[k], t)) &&
                   RunFrom(s, steps).Some? && t in RunFrom(s, steps).value.files;
      InertRuns(s, steps, t);
    }
  }

  /** Every watch told to stop has noticed, and none has a document in hand. */
  ghost predicate Rested(s: NodeState) {
    forall w :: w in s.watches ==> s.watches[w].Idle() && !Told(s, w)
  }

  /** It started a watch that another target still reads. */
  ghost predicate StartedAnothers(s: NodeState, t: Path) {
    exists d, r :: (d, r) in s.pairs && r != t && d in s.current && s.current[d] in s.watches &&
                   s.watches[s.current[d]].owner == t
  }

  /** At rest, that watch is one another target still reads. */
  lemma FileAtRestExactly(s: NodeState, t: Path)
    requires Reachable(s) && Rested(s) && t !in s.calls && t !in s.published
    ensures CanHaveFile(s, t) <==> t in s.files || (t in s.dirs && StartedAnothers(s, t))
  {
    FileExactly(s, t);
    ReachableOk(s);
    assert TargetOk(s, t);
    hide CanHaveFile, TargetOk;
    if Owed(s, t) {
      var w :| w in s.watches && (s.watches[w].owner == t || t in s.watches[w].due);
      var d := s.watches[w].document;
      assert s.watches[w].Idle() && !Told(s, w);
      var r :| (d, r) in s.pairs;
      assert r != t;
    }
    if StartedAnothers(s, t) {
      var d, r :| (d, r) in s.pairs && r != t && d in s.current && s.current[d] in s.watches &&
                  s.watches[s.current[d]].owner == t;
      assert s.current[d] in s.watches;
    }
  }

  /** Publishing again changes nothing. Unpublishing a target that is not published runs to
      its end, and changes nothing but that a file left behind goes. */
  lemma RetriesAreNoOps(s: NodeState, t: Path, d: Document)
    requires Reachable(s) && t !in s.calls
    ensures t in s.published ==> Apply(s, Publish(t, d)) == s
    ensures t !in s.published ==>
              var released := Apply(s, Unpublish(t));
              var forgotten := Apply(released, Forget(t));
              Apply(forgotten, Clear(t)) == s.(files := s.files - {t})
  {
    ReachableOk(s);
    assert TargetOk(s, t);
    if t !in s.published {
      NothingLeft(s, t);
      hide Left, Inv, TargetOk, WatchesOk;
      assert s.calls[t := Releasing][t := Removing] - {t} == s.calls;
    }
  }

  lemma NothingLeft(s: NodeState, t: Path)
    requires WatchesOk(s) && !Reads(s, t)
    ensures Left(s, t) == s
  {
    var kept := s.(pairs := set pair | pair in s.pairs && pair.1 != t);
    assert forall pair :: pair in s.pairs ==> (pair.0, pair.1) in s.pairs;
    assert kept == s;
    forall e | e in s.current ensures Readers(s, e) != {} {
      var r :| (e, r) in s.pairs;
      assert r in Readers(s, e);
    }
    assert Left(s, t).current == s.current;
  }

  // ----- a file left behind ---------------------------------------------------------

  lemma Then(s: NodeState, step: Step)
    requires Reachable(s) && Enabled(s, step)
    ensures Reachable(Apply(s, step))
  {
    hide Apply, Enabled;
    var steps :| RunFrom(Empty(), steps) == Some(s);
    RunJoin(Empty(), steps, [step]);
    assert [step][1..] == [];
    assert RunFrom(s, [step]) == Some(Apply(s, step));
  }

  /** A publish call from beginning to end, with nothing else in between. */
  lemma PublishCall(s: NodeState, t: Path, d: Document) returns (s': NodeState)
    requires Reachable(s) && t !in s.calls && t !in s.published
    ensures Reachable(s')
    ensures s' == Joined(s.(dirs := s.dirs + {t}, files := s.files + {t}), t, d).(published := s.published + {t})
  {
    hide Reachable, Joined;
    s' := s;
    Then(s', Publish(t, d));
    s' := Apply(s', Publish(t, d));
    Then(s', Prepare(t));
    s' := Apply(s', Prepare(t));
    Then(s', Render(t));
    s' := Apply(s', Render(t));
    Then(s', Join(t));
    JoinedCalls(s', s.calls, t, d);
    s' := Apply(s', Join(t));
    Then(s', Answer(t));
    s' := Apply(s', Answer(t));
    assert s.calls[t := Checked(d)][t := Prepared(d)][t := Written(d)][t := Claiming(d)] - {t} == s.calls;
  }

  lemma JoinedCalls(s: NodeState, calls: map<Path, Call>, t: Path, d: Document)
    ensures Joined(s, t, d).calls == s.calls && Joined(s, t, d).published == s.published
    ensures Joined(s, t, d).(calls := calls) == Joined(s.(calls := calls), t, d)
  {
  }

  lemma UnpublishCall(s: NodeState, t: Path) returns (s': NodeState)
    requires Reachable(s) && t !in s.calls
    ensures Reachable(s')
    ensures s' == Left(s, t).(published := s.published - {t}, files := s.files - {t})
  {
    hide Reachable;
    s' := s;
    Then(s', Unpublish(t));
    s' := Apply(s', Unpublish(t));
    Then(s', Forget(t));
    s' := Apply(s', Forget(t));
    Then(s', Clear(t));
    s' := Apply(s', Clear(t));
    assert s.calls[t := Releasing][t := Removing] - {t} == s.calls;
  }

  /** Two targets published to read one document, and the first one's watch only begun. */
  lemma BothPublished(d: Document) returns (s: NodeState)
    ensures Reachable(s) && s.pairs == {(d, "/a"), (d, "/b")} && s.calls == map[]
    ensures s.current == map[d := 0] && s.dirs == {"/a", "/b"} && s.published == {"/a", "/b"}
    ensures s.watches == map[0 := Watch(d, "/a", {}, true, true)]
  {
    s := Empty();
    assert RunFrom(Empty(), []) == Some(s);
    s := PublishCall(s, "/a", d);
    assert s.watches == map[0 := Watch(d, "/a", {}, true, true)];
    s := PublishCall(s, "/b", d);
  }

  /** The same once the watch has given both of them the document it started with. */
  lemma BothServed(d: Document) returns (s: NodeState)
    ensures Reachable(s) && s.pairs == {(d, "/a"), (d, "/b")} && s.calls == map[]
    ensures s.current == map[d := 0] && s.dirs == {"/a", "/b"}
    ensures s.watches == map[0 := Watch(d, "/a", {}, false, false)]
  {
    hide Reachable;
    s := BothPublished(d);
    assert Readers(s, d) == {"/a", "/b"};
    hide Readers;
    Then(s, Own(0, true));
    s := Apply(s, Own(0, true));
    assert {"/a", "/b"} - {"/a"} == {"/b"} && {"/b"} - {"/b"} == {};
    assert s.watches == map[0 := Watch(d, "/a", {"/b"}, false, false)];
    Then(s, Spread(0, "/b", true));
    s := Apply(s, Spread(0, "/b", true));
  }

  /** The claim that an unpublished target has no file fails: it started the watch, another
      target reads it still, and the next document is written into its directory too. */
  lemma FileLeftBehind(d: Document) returns (s: NodeState)
    ensures Reachable(s) && "/a" !in s.calls && "/a" !in s.published && "/a" in s.files
  {
    hide Reachable;
    s := BothServed(d);
    s := UnpublishCall(s, "/a");
    assert s.pairs == {(d, "/b")} && Readers(s, d) == {"/b"};
    hide Left, Readers;
    Then(s, Take(0));
    s := Apply(s, Take(0));
    Then(s, Spread(0, "/b", true));
    s := Apply(s, Spread(0, "/b", true));
    Then(s, Own(0, true));
    s := Apply(s, Own(0, true));
  }

  // ----- what a delivery owes -------------------------------------------------------

  /** A watch that takes a document owes it to every reader of that moment and to its starter,
      each once; and once its first document is written for its starter, to the others. */
  lemma DeliveryOwes(s: NodeState, w: nat, t: Path)
    requires w in s.watches
    ensures Enabled(s, Take(w)) ==>
              var after := Apply(s, Take(w));
              && w in after.watches && after.watches[w].own && after.files == s.files
              && (t in after.watches[w].due <==> (s.watches[w].document, t) in s.pairs && t != s.watches[w].owner)
    ensures Enabled(s, Own(w, true)) && s.watches[w].first && s.watches[w].owner in s.dirs ==>
              var after := Apply(s, Own(w, true));
              && w in after.watches && !after.watches[w].own && !after.watches[w].first
              && (t in after.watches[w].due <==> (s.watches[w].document, t) in s.pairs && t != s.watches[w].owner)
  {
    if (s.watches[w].document, t) in s.pairs {
      assert t in Readers(s, s.watches[w].document);
    }
  }

  /** A write that works puts the file there and owes it no more; one that fails leaves the
      files, and is owed no more either. */
  lemma WritesLand(s: NodeState, w: nat, t: Path, ok: bool)
    requires w in s.watches
    ensures Enabled(s, Spread(w, t, ok)) ==>
              var after := Apply(s, Spread(w, t, ok));
              && after.files == (if ok && t in s.dirs then s.files + {t} else s.files)
              && after == s.(files := after.files, watches := after.watches)
              && after.watches == s.watches[w := s.watches[w].(due := s.watches[w].due - {t})]
    ensures Enabled(s, Own(w, ok)) && !s.watches[w].first ==>
              var after := Apply(s, Own(w, ok));
              && after.files == (if ok && s.watches[w].owner in s.dirs then s.files + {s.watches[w].owner} else s.files)
              && after == s.(files := after.files, watches := after.watches)
              && after.watches == s.watches[w := s.watches[w].(due := {}, own := false)]
  {
  }

  /** A watch that was told to stop, and has written what it owes, can end; no other can. */
  lemma StopsWhenTold(s: NodeState, w: nat)
    requires w in s.watches
    ensures Enabled(s, Notice(w)) <==>
              s.watches[w].due == {} && !s.watches[w].own &&
              !(s.watches[w].document in s.current && s.current[s.watches[w].document] == w)
    ensures Enabled(s, Notice(w)) ==> Apply(s, Notice(w)) == s.(watches := s.watches - {w})
  {
  }

  // ----- a document nobody watches --------------------------------------------------

  /** Its entry's watch is still running, so its readers will be given what arrives. */
  predicate Heard(s: NodeState, d: Document) {
    d in s.current && s.current[d] in s.watches
  }

  /** Somebody reads the document from here to the end. */
  predicate ReadThroughout(s: NodeState, steps: seq<Step>, d: Document)
    requires RunFrom(s, steps).Some?
    decreases |steps|
  {
    d in s.current && (steps == [] || ReadThroughout(Apply(s, steps[0]), steps[1..], d))
  }

  predicate FirstWriteFails(s: NodeState, steps: seq<Step>, w: nat)
    requires RunFrom(s, steps).Some?
    decreases |steps|
  {
    steps != [] && (FailsFirst(s, steps[0], w) || FirstWriteFails(Apply(s, steps[0]), steps[1..], w))
  }

  lemma HeardOneMore(s: NodeState, step: Step, d: Document)
    requires Inv(s) && Enabled(s, step) && d in s.current && d in Apply(s, step).current
    ensures Apply(s, step).current[d] == s.current[d]
    ensures Heard(Apply(s, step), d) <==> Heard(s, d) && !FailsFirst(s, step, s.current[d])
  {
    hide Readers, TargetOk, PairsOk;
    assert s.current[d] < s.started;
  }

  /** While a document has readers, whoever comes and goes, its watch keeps running exactly
      when its first render and write for its starter succeed; nothing starts another. */
  lemma {:induction false} HeardThroughout(s: NodeState, steps: seq<Step>, d: Document)
    requires Inv(s) && RunFrom(s, steps).Some? && ReadThroughout(s, steps, d)
    ensures var last := RunFrom(s, steps).value;
            && d in last.current && last.current[d] == s.current[d]
            && (Heard(last, d) <==> Heard(s, d) && !FirstWriteFails(s, steps, s.current[d]))
    decreases |steps|
  {
    hide Apply, Enabled, Inv, Heard, FailsFirst;
    if steps != [] {
      StepOk(s, steps[0]);
      HeardOneMore(s, steps[0], d);
      HeardThroughout(Apply(s, steps[0]), steps[1..], d);
    }
  }

  /** From any reachable state, and the first reader of a document starts its watch. */
  lemma HeardExactly(s: NodeState, steps: seq<Step>, d: Document)
    requires Reachable(s) && RunFrom(s, steps).Some? && ReadThroughout(s, steps, d)
    ensures Heard(RunFrom(s, steps).value, d) <==>
              Heard(s, d) && !FirstWriteFails(s, steps, s.current[d])
    ensures forall t :: Enabled(s, Join(t)) && s.calls[t].document !in s.current ==>
              Heard(Apply(s, Join(t)), s.calls[t].document)
  {
    ReachableOk(s);
    HeardThroughout(s, steps, d);
  }

  /** The claim that a target which joined a watch has one running while it reads fails: the
      starter's first render or write failed, the entry stayed, and as long as the document is read
      no watch runs for it. */
  lemma JoinedUnheard(d: Document) returns (s: NodeState)
    ensures Reachable(s) && "/b" !in s.calls && "/b" in s.published && (d, "/b") in s.pairs
    ensures forall steps :: RunFrom(s, steps).Some? && ReadThroughout(s, steps, d) ==>
              !Heard(RunFrom(s, steps).value, d)
  {
    s := Empty();
    assert RunFrom(Empty(), []) == Some(s);
    s := PublishCall(s, "/a", d);
    hide Reachable;
    Then(s, Own(0, false));
    s := Apply(s, Own(0, false));
    assert s.watches == map[];
    s := PublishCall(s, "/b", d);
    forall steps | RunFrom(s, steps).Some? && ReadThroughout(s, steps, d)
      ensures !Heard(RunFrom(s, steps).value, d)
    {
      HeardExactly(s, steps, d);
    }
  }

  // ----- a join that is overtaken ---------------------------------------------------

  /** One target published and given its document, another whose file is written. */
  lemma OneJoining(d: Document) returns (s: NodeState)
    ensures Reachable(s) && s.pairs == {(d, "/a")} && s.calls == map["/b" := Written(d)]
    ensures s.current == map[d := 0] && s.watches == map[0 := Watch(d, "/a", {}, false, false)]
    ensures s.dirs == {"/a", "/b"} && s.published == {"/a"}
  {
    s := Empty();
    assert RunFrom(Empty(), []) == Some(s);
    s := PublishCall(s, "/a", d);
    hide Reachable;
    assert Readers(s, d) - {"/a"} == {};
    hide Readers;
    Then(s, Own(0, true));
    s := Apply(s, Own(0, true));
    Then(s, Publish("/b", d));
    s := Apply(s, Publish("/b", d));
    Then(s, Prepare("/b"));
    s := Apply(s, Prepare("/b"));
    Then(s, Render("/b"));
    s := Apply(s, Render("/b"));
  }

  /** A target writes its file before it claims, and a document the watch takes in between is
      not owed to it: not then, and not once it has joined. */
  lemma OvertakenJoin(d: Document) returns (s: NodeState, joined: NodeState)
    ensures Reachable(s) && "/b" in s.files
    ensures RunFrom(s, [Take(0), Own(0, true), Join("/b"), Answer("/b")]) == Some(joined)
    ensures "/b" in joined.published && (d, "/b") in joined.pairs && Heard(joined, d) && !Owed(joined, "/b")
  {
    s := OneJoining(d);
    ReachableOk(s);
    assert TargetOk(s, "/b");
    hide Reachable, Inv;
    assert Readers(s, d) - {"/a"} == {};
    var s1 := Apply(s, Take(0));
    var s2 := Apply(s1, Own(0, true));
    var s3 := Apply(s2, Join("/b"));
    joined := Apply(s3, Answer("/b"));
    FourSteps(s, Take(0), Own(0, true), Join("/b"), Answer("/b"));
  }

  lemma FourSteps(s: NodeState, a: Step, b: Step, c: Step, e: Step)
    requires Enabled(s, a) && Enabled(Apply(s, a), b) && Enabled(Apply(Apply(s, a), b), c)
    requires Enabled(Apply(Apply(Apply(s, a), b), c), e)
    ensures RunFrom(s, [a, b, c, e]) == Some(Apply(Apply(Apply(Apply(s, a), b), c), e))
  {
    hide Apply, Enabled;
    var s1 := Apply(s, a);
    var s2 := Apply(s1, b);
    var s3 := Apply(s2, c);
    OneStep(s3, e);
    assert [c, e][1..] == [e] && RunFrom(s2, [c, e]) == RunFrom(s3, [e]);
    assert [b, c, e][1..] == [c, e] && RunFrom(s1, [b, c, e]) == RunFrom(s2, [c, e]);
    assert [a, b, c, e][1..] == [b, c, e];
  }

  // ----- one fetch, one render each -------------------------------------------------

  /** What a reader's spec makes of a fetched document, or that it cannot: files by path. */
  type Renderer = (string, Spec) -> Option<map<Path, string>>

  ghost predicate Separate(readers: seq<Reader>, render: Renderer, fetched: string) {
    forall j, k :: 0 <= j < k < |readers| ==>
      render(fetched, readers[j].spec).GetOr(map[]).Keys !! render(fetched, readers[k].spec).GetOr(map[]).Keys
  }

  /** A file the fan-out owes one reader. */
  predicate Due(reader: Reader, published: Path, fetched: string, render: Renderer, writable: Path -> bool, f: Path) {
    reader.path != published && f in render(fetched, reader.spec).GetOr(map[]) && writable(f)
  }

  /** Every reader but the one the watch wrote itself gets its own rendering, and a reader
      that cannot be rendered or written stops nobody else. Nothing else on disk changes. */
  method FanOut(readers: seq<Reader>, published: Path, fetched: string, render: Renderer, writable: Path -> bool,
                disk: map<Path, string>) returns (written: map<Path, string>)
    requires Separate(readers, render, fetched)
    ensures forall k, f :: 0 <= k < |readers| && readers[k].path != published && writable(f) &&
                           render(fetched, readers[k].spec).Some? && f in render(fetched, readers[k].spec).value ==>
                             f in written && written[f] == render(fetched, readers[k].spec).value[f]
    ensures forall f :: f in written &&
                        (!writable(f) ||
                         forall k :: 0 <= k < |readers| && readers[k].path != published ==>
                           render(fetched, readers[k].spec).None? || f !in render(fetched, readers[k].spec).value) ==>
                          f in disk && written[f] == disk[f]
    ensures disk.Keys <= written.Keys
  {
    written := disk;
    for k := 0 to |readers|
      invariant disk.Keys <= written.Keys
      invariant forall j, f :: 0 <= j < k && Due(readers[j], published, fetched, render, writable, f) ==>
                                 f in written && written[f] == render(fetched, readers[j].spec).value[f]
      invariant forall f :: f in written && (forall j :: 0 <= j < k ==>
                                               !Due(readers[j], published, fetched, render, writable, f)) ==>
                              f in disk && written[f] == disk[f]
    {
      if readers[k].path == published {
        continue;
      }
      var rendered := render(fetched, readers[k].spec);
      if rendered.None? {
        continue;
      }
      written := written + (map f | f in rendered.value && writable(f) :: rendered.value[f]);
    }
  }
}
