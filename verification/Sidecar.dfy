/** The sidecar's loop: what it serves, what it holds back for the canary, and the files. */
module Sidecar {
  import opened Wrappers

  type Path = string
  type Document = seq<bv8>

  /** One file, rendered and waiting to be written. */
  datatype File = File(out: Path, text: string)

  datatype OnDrift = Warn | Repair | Fail
  datatype OnDelete = Retain | Remove | End
  datatype Startup = RequireFresh | AllowCached | BestEffort

  /** What the pod asked for. `part` is resolving, validating and rendering one output,
      whatever the formats and templates do; `cohort` is set when a canary is. */
  datatype Spec = Spec(
    out: Path,
    also: seq<Path>,
    ceiling: nat,
    part: (Document, nat) -> Option<string>,
    cohort: Option<nat>,
    onDrift: OnDrift,
    onDelete: OnDelete,
    startup: Startup)
  {
    function Outs(): seq<Path> {
      [out] + also
    }
  }

  type Disk = map<Path, string>

  datatype State = State(
    rendered: Option<seq<File>>,
    withheld: Option<seq<File>>,
    disk: Disk,
    written: seq<File>,
    ended: bool)

  /** What wakes the loop. `fault` is the index of the first write that fails, if one does. */
  datatype Event =
    | Delivery(document: Document, percent: Option<nat>, fault: Option<nat>)
    | CanaryTick(percent: Option<nat>, fault: Option<nat>)
    | DriftTick(fault: Option<nat>)
    | Absent(refused: set<Path>)
    | Outsider(path: Path, text: Option<string>)

  // ----- rendering ------------------------------------------------------------------

  function RenderFrom(spec: Spec, document: Document, k: nat): Option<seq<File>>
    requires k <= |spec.Outs()|
    decreases |spec.Outs()| - k
  {
    if k == |spec.Outs()| then Some([])
    else
      match (spec.part(document, k), RenderFrom(spec, document, k + 1))
      case (Some(text), Some(rest)) => Some([File(spec.Outs()[k], text)] + rest)
      case _ => None
  }

  function RenderAll(spec: Spec, document: Document): Option<seq<File>> {
    if |document| > spec.ceiling then None else RenderFrom(spec, document, 0)
  }

  lemma {:induction false} RenderFromExactly(spec: Spec, document: Document, k: nat)
    requires k <= |spec.Outs()|
    ensures RenderFrom(spec, document, k).Some? <==>
              forall j :: k <= j < |spec.Outs()| ==> spec.part(document, j).Some?
    ensures RenderFrom(spec, document, k).Some? ==>
              var files := RenderFrom(spec, document, k).value;
              && |files| == |spec.Outs()| - k
              && forall j :: k <= j < |spec.Outs()| ==>
                   files[j - k] == File(spec.Outs()[j], spec.part(document, j).value)
    decreases |spec.Outs()| - k
  {
    if k < |spec.Outs()| {
      RenderFromExactly(spec, document, k + 1);
    }
  }

  /** All or none: a set exists exactly when every output of the document renders, and then
      it is that document's text for each output, in order. */
  lemma RenderAllExactly(spec: Spec, document: Document)
    ensures RenderAll(spec, document).Some? <==>
              |document| <= spec.ceiling &&
              forall j :: 0 <= j < |spec.Outs()| ==> spec.part(document, j).Some?
    ensures RenderAll(spec, document).Some? ==>
              var files := RenderAll(spec, document).value;
              && |files| == |spec.Outs()|
              && forall j :: 0 <= j < |spec.Outs()| ==>
                   files[j] == File(spec.Outs()[j], spec.part(document, j).value)
  {
    RenderFromExactly(spec, document, 0);
  }

  /** A set is the main output and then each of the extra ones, under their own paths. */
  lemma SetIsOutputs(spec: Spec, document: Document)
    requires RenderAll(spec, document).Some?
    ensures var files := RenderAll(spec, document).value;
            && |files| == 1 + |spec.also| && files[0].out == spec.out
            && forall k :: 0 <= k < |spec.also| ==> files[k + 1].out == spec.also[k]
  {
    RenderAllExactly(spec, document);
    hide RenderAll;
    assert forall k :: 0 <= k < |spec.also| ==> spec.Outs()[k + 1] == spec.also[k];
  }

  method Render(spec: Spec, document: Document) returns (files: Option<seq<File>>)
    ensures files == RenderAll(spec, document)
  {
    RenderAllExactly(spec, document);
    if |document| > spec.ceiling {
      return None;
    }
    var published: seq<File> := [];
    for k := 0 to |spec.Outs()|
      invariant |published| == k
      invariant forall j :: 0 <= j < k ==>
                  spec.part(document, j).Some? &&
                  published[j] == File(spec.Outs()[j], spec.part(document, j).value)
    {
      match spec.part(document, k)
      case None => return None;
      case Some(text) => published := published + [File(spec.Outs()[k], text)];
    }
    files := Some(published);
    assert RenderAll(spec, document).value == published;
  }

  // ----- the files ------------------------------------------------------------------

  /** The files a publish writes before its first fault. */
  function Prefix(files: seq<File>, fault: Option<nat>): seq<File> {
    if fault.Some? && fault.value < |files| then files[..fault.value] else files
  }

  predicate Succeeds(files: seq<File>, fault: Option<nat>) {
    fault.None? || |files| <= fault.value
  }

  /** The disk after the files are written one by one. */
  function Write(disk: Disk, files: seq<File>): Disk
    decreases |files|
  {
    if files == [] then disk
    else Write(disk, files[..|files| - 1])[files[|files| - 1].out := files[|files| - 1].text]
  }

  /** Every file of the set is on disk as it was rendered. */
  predicate OnDisk(disk: Disk, files: seq<File>) {
    forall k :: 0 <= k < |files| ==> Holds(disk, files[k])
  }

  predicate Holds(disk: Disk, file: File) {
    file.out in disk && disk[file.out] == file.text
  }

  ghost predicate Distinct(spec: Spec) {
    forall j, k :: 0 <= j < k < |spec.Outs()| ==> spec.Outs()[j] != spec.Outs()[k]
  }

  /** Files of one path hold one text. */
  ghost predicate Consistent(files: seq<File>) {
    forall j, k :: 0 <= j < k < |files| && files[j].out == files[k].out ==> files[j].text == files[k].text
  }

  lemma {:induction false} WriteElsewhere(disk: Disk, files: seq<File>, path: Path)
    requires forall k :: 0 <= k < |files| ==> files[k].out != path
    ensures path in Write(disk, files) <==> path in disk
    ensures path in disk ==> Write(disk, files)[path] == disk[path]
    decreases |files|
  {
    if files != [] {
      WriteElsewhere(disk, files[..|files| - 1], path);
    }
  }

  /** What is read after the writes: the last file written there. */
  lemma {:induction false} WriteReads(disk: Disk, files: seq<File>, k: nat)
    requires k < |files| && forall j :: k < j < |files| ==> files[j].out != files[k].out
    ensures Holds(Write(disk, files), files[k])
    decreases |files|
  {
    if k < |files| - 1 {
      WriteReads(disk, files[..|files| - 1], k);
    }
  }

  lemma {:induction false} WriteConsistent(disk: Disk, files: seq<File>)
    requires Consistent(files)
    ensures OnDisk(Write(disk, files), files)
    decreases |files|
  {
    if files != [] {
      var before := files[..|files| - 1];
      WriteConsistent(disk, before);
      forall k | 0 <= k < |before| ensures Holds(Write(disk, files), files[k]) {
        assert Holds(Write(disk, before), before[k]);
      }
    }
  }

  /** A publish in which every write succeeds leaves its set on disk exactly when no two of
      its files share a path and differ; nothing checks that the outputs are distinct. */
  lemma WholeSetOnDiskExactly(disk: Disk, files: seq<File>)
    ensures OnDisk(Write(disk, files), files) <==> Consistent(files)
  {
    if Consistent(files) {
      WriteConsistent(disk, files);
    } else {
      var j, k :| 0 <= j < k < |files| && files[j].out == files[k].out && files[j].text != files[k].text;
      assert !(Holds(Write(disk, files), files[j]) && Holds(Write(disk, files), files[k]));
    }
  }

  // ----- one step -------------------------------------------------------------------

  /** Strictly below the percentage, and everybody when there is none. */
  predicate Admitted(spec: Spec, percent: Option<nat>) {
    spec.cohort.None? || percent.None? || spec.cohort.value < percent.value
  }

  /** `publish`, and what the loop then says it serves. */
  function Publish(s: State, files: seq<File>, fault: Option<nat>): State {
    s.(disk := Write(s.disk, Prefix(files, fault)),
       written := s.written + Prefix(files, fault),
       rendered := if Succeeds(files, fault) then Some(files) else s.rendered)
  }

  /** The files a deletion empties, one after another; a refused one is warned about. */
  function Emptied(outs: seq<Path>, refused: set<Path>): (files: seq<File>)
    ensures forall file :: file in files ==> file.text == ""
    decreases |outs|
  {
    if outs == [] then []
    else
      var before, path := Emptied(outs[..|outs| - 1], refused), outs[|outs| - 1];
      if path in refused then before else before + [File(path, "")]
  }

  lemma EmptiedNone(disk: Disk, refused: set<Path>)
    ensures Emptied([], refused) == [] && Write(disk, []) == disk
  {
  }

  lemma EmptiedOneMore(disk: Disk, outs: seq<Path>, refused: set<Path>, k: nat)
    requires k < |outs|
    ensures var before, after := Emptied(outs[..k], refused), Emptied(outs[..k + 1], refused);
            && after == (if outs[k] in refused then before else before + [File(outs[k], "")])
            && Write(disk, after) ==
                 if outs[k] in refused then Write(disk, before) else Write(disk, before)[outs[k] := ""]
  {
    var before := Emptied(outs[..k], refused);
    assert outs[..k + 1][..k] == outs[..k];
    assert (before + [File(outs[k], "")])[..|before|] == before;
  }

  function Delivered(spec: Spec, s: State, made: seq<File>, percent: Option<nat>, fault: Option<nat>): State {
    if s.rendered == Some(made) then s
    else if !Admitted(spec, percent) then s.(withheld := Some(made))
    else Publish(s, made, fault)
  }

  function Checked(spec: Spec, s: State, fault: Option<nat>): State {
    if s.rendered.None? || OnDisk(s.disk, s.rendered.value) then s
    else
      match spec.onDrift
      case Warn => s
      case Repair => Publish(s, s.rendered.value, fault)
      case Fail => s.(ended := true)
  }

  function Deleted(spec: Spec, s: State, refused: set<Path>): State {
    match spec.onDelete
    case Retain => s
    case Remove =>
      var files := Emptied(spec.Outs(), refused);
      s.(disk := Write(s.disk, files), written := s.written + files)
    case End => s.(ended := true)
  }

  function Step(spec: Spec, s: State, event: Event): State {
    if s.ended then s
    else
      match event
      case Delivery(document, percent, fault) =>
        var made := RenderAll(spec, document);
        if made.None? then s else Delivered(spec, s, made.value, percent, fault)
      case CanaryTick(percent, fault) =>
        if s.withheld.Some? && Admitted(spec, percent)
        then Publish(s.(withheld := None), s.withheld.value, fault)
        else s
      case DriftTick(fault) => Checked(spec, s, fault)
      case Absent(refused) => Deleted(spec, s, refused)
      case Outsider(path, text) =>
        if text.Some? then s.(disk := s.disk[path := text.value]) else s.(disk := s.disk - {path})
  }

  function Run(spec: Spec, s: State, events: seq<Event>): State
    decreases |events|
  {
    if events == [] then s else Step(spec, Run(spec, s, events[..|events| - 1]), events[|events| - 1])
  }

  /** The agent after a first fetch that rendered and was written. */
  function Started(disk: Disk, files: seq<File>): State {
    State(Some(files), None, Write(disk, files), files, false)
  }

  /** The loop's own variables, and the files it writes. */
  class Agent {
    const spec: Spec
    var rendered: Option<seq<File>>
    var withheld: Option<seq<File>>
    var disk: Disk
    var written: seq<File>
    var ended: bool

    ghost function Now(): State
      reads this
    {
      State(rendered, withheld, disk, written, ended)
    }

    constructor (spec: Spec, files: seq<File>, disk: Disk)
      ensures this.spec == spec && Now() == Started(disk, files)
    {
      this.spec := spec;
      rendered, withheld := Some(files), None;
      this.disk, written := Write(disk, files), files;
      ended := false;
    }

    /** Each file in turn; the first fault ends it. */
    method WriteFiles(files: seq<File>, fault: Option<nat>) returns (ok: bool)
      modifies this`disk, this`written
      ensures ok == Succeeds(files, fault)
      ensures disk == Write(old(disk), Prefix(files, fault))
      ensures written == old(written) + Prefix(files, fault)
    {
      for k := 0 to |files|
        invariant fault.Some? ==> k <= fault.value
        invariant disk == Write(old(disk), files[..k])
        invariant written == old(written) + files[..k]
      {
        if fault == Some(k) {
          return false;
        }
        disk := disk[files[k].out := files[k].text];
        written := written + [files[k]];
        assert files[..k + 1][..k] == files[..k];
      }
      assert files[..|files|] == files;
      ok := true;
    }

    method Unchanged(made: seq<File>) returns (same: bool)
      ensures same <==> rendered == Some(made)
    {
      if rendered.None? || |rendered.value| != |made| {
        return false;
      }
      for k := 0 to |made|
        invariant forall j :: 0 <= j < k ==> rendered.value[j] == made[j]
      {
        if rendered.value[k].out != made[k].out || rendered.value[k].text != made[k].text {
          return false;
        }
      }
      assert rendered.value == made;
      same := true;
    }

    method Deliver(document: Document, percent: Option<nat>, fault: Option<nat>)
      requires !ended
      modifies this
      ensures Now() == Step(spec, old(Now()), Delivery(document, percent, fault))
    {
      var made := Render(spec, document);
      if made.None? {
        return;
      }
      var same := Unchanged(made.value);
      if same {
        return;
      }
      if !Admitted(spec, percent) {
        withheld := made;
        return;
      }
      var ok := WriteFiles(made.value, fault);
      if ok {
        rendered := made;
      }
    }

    method Canary(percent: Option<nat>, fault: Option<nat>)
      requires !ended
      modifies this
      ensures Now() == Step(spec, old(Now()), CanaryTick(percent, fault))
    {
      if withheld.None? || !Admitted(spec, percent) {
        return;
      }
      var made := withheld.value;
      withheld := None;
      var ok := WriteFiles(made, fault);
      if ok {
        rendered := Some(made);
      }
    }

    /** The first file that is not as it was written. */
    method Drifted(files: seq<File>) returns (path: Option<Path>)
      ensures path.None? <==> OnDisk(disk, files)
      ensures path.Some? ==>
                exists k :: 0 <= k < |files| && files[k].out == path.value && !Holds(disk, files[k]) &&
                            OnDisk(disk, files[..k])
    {
      for k := 0 to |files|
        invariant OnDisk(disk, files[..k])
      {
        if !Holds(disk, files[k]) {
          return Some(files[k].out);
        }
        assert forall j :: 0 <= j < k ==> Holds(disk, files[..k][j]);
      }
      assert files[..|files|] == files;
      path := None;
    }

    method Drift(fault: Option<nat>)
      requires !ended
      modifies this
      ensures Now() == Step(spec, old(Now()), DriftTick(fault))
    {
      if rendered.None? {
        return;
      }
      var path := Drifted(rendered.value);
      if path.Some? {
        match spec.onDrift
        case Warn =>
        case Repair => var _ := WriteFiles(rendered.value, fault);
        case Fail => ended := true;
      }
    }

    method Gone(refused: set<Path>)
      requires !ended
      modifies this
      ensures Now() == Step(spec, old(Now()), Absent(refused))
    {
      hide Emptied, Write;
      match spec.onDelete
      case Retain =>
      case Remove =>
        var outs := spec.Outs();
        EmptiedNone(disk, refused);
        for k := 0 to |outs|
          invariant disk == Write(old(disk), Emptied(outs[..k], refused))
          invariant written == old(written) + Emptied(outs[..k], refused)
          invariant rendered == old(rendered) && withheld == old(withheld) && !ended
        {
          EmptiedOneMore(old(disk), outs, refused, k);
          if outs[k] !in refused {
            disk, written := disk[outs[k] := ""], written + [File(outs[k], "")];
          }
        }
        assert outs[..|outs|] == outs;
      case End => ended := true;
    }
  }

  // ----- one generation on disk -----------------------------------------------------

  /** The documents that arrived, the first fetch among them. */
  function Arrived(first: Document, events: seq<Event>): seq<Document>
    decreases |events|
  {
    if events == [] then [first]
    else
      var before := Arrived(first, events[..|events| - 1]);
      var last := events[|events| - 1];
      if last.Delivery? then before + [last.document] else before
  }

  ghost predicate FromOne(spec: Spec, files: seq<File>, documents: seq<Document>) {
    exists k :: 0 <= k < |documents| && RenderAll(spec, documents[k]) == Some(files)
  }

  lemma FromOneOfMore(spec: Spec, files: seq<File>, documents: seq<Document>, more: seq<Document>)
    requires FromOne(spec, files, documents)
    ensures FromOne(spec, files, documents + more)
  {
    var k :| 0 <= k < |documents| && RenderAll(spec, documents[k]) == Some(files);
    assert (documents + more)[k] == documents[k];
  }

  /** What is served, and what is held back, is always the whole set of one document that
      arrived: whatever writes fail and whoever else writes. */
  lemma {:induction false} ServedIsWhole(spec: Spec, first: Document, disk: Disk, events: seq<Event>)
    requires RenderAll(spec, first).Some?
    ensures var s := Run(spec, Started(disk, RenderAll(spec, first).value), events);
            && s.rendered.Some? && FromOne(spec, s.rendered.value, Arrived(first, events))
            && (s.withheld.Some? ==> FromOne(spec, s.withheld.value, Arrived(first, events)))
    decreases |events|
  {
    var start := Started(disk, RenderAll(spec, first).value);
    if events == [] {
      assert RenderAll(spec, Arrived(first, events)[0]) == start.rendered;
    } else {
      var before := events[..|events| - 1];
      ServedIsWhole(spec, first, disk, before);
      hide RenderAll, Write;
      var s, last := Run(spec, start, before), events[|events| - 1];
      var documents := Arrived(first, before);
      if last.Delivery? {
        FromOneOfMore(spec, s.rendered.value, documents, [last.document]);
        if s.withheld.Some? {
          FromOneOfMore(spec, s.withheld.value, documents, [last.document]);
        }
        assert Arrived(first, events)[|documents|] == last.document;
      }
    }
  }

  /** No write fails, nobody else writes, and a deletion does not empty the files. */
  predicate Quiet(spec: Spec, event: Event) {
    match event
    case Delivery(_, _, fault) => fault.None?
    case CanaryTick(_, fault) => fault.None?
    case DriftTick(fault) => fault.None?
    case Absent(_) => !spec.onDelete.Remove?
    case Outsider(_, _) => false
  }

  predicate AllQuiet(spec: Spec, events: seq<Event>) {
    forall k :: 0 <= k < |events| ==> Quiet(spec, events[k])
  }

  lemma SetConsistent(spec: Spec, document: Document)
    requires Distinct(spec) && RenderAll(spec, document).Some?
    ensures Consistent(RenderAll(spec, document).value)
  {
    RenderAllExactly(spec, document);
    var files := RenderAll(spec, document).value;
    assert forall j :: 0 <= j < |files| ==> files[j].out == spec.Outs()[j];
  }

  lemma FromOneConsistent(spec: Spec, files: seq<File>, documents: seq<Document>)
    requires Distinct(spec) && FromOne(spec, files, documents)
    ensures Consistent(files) && |files| == |spec.Outs()|
    ensures forall k :: 0 <= k < |files| ==> files[k].out == spec.Outs()[k]
  {
    var k :| 0 <= k < |documents| && RenderAll(spec, documents[k]) == Some(files);
    SetConsistent(spec, documents[k]);
    RenderAllExactly(spec, documents[k]);
  }

  /** One generation on disk: after every step the files are exactly what is served, which
      is the whole set of one document. */
  lemma {:induction false} OneGeneration(spec: Spec, first: Document, disk: Disk, events: seq<Event>)
    requires Distinct(spec) && RenderAll(spec, first).Some? && AllQuiet(spec, events)
    ensures var s := Run(spec, Started(disk, RenderAll(spec, first).value), events);
            s.rendered.Some? && OnDisk(s.disk, s.rendered.value)
    decreases |events|
  {
    var start := Started(disk, RenderAll(spec, first).value);
    if events == [] {
      SetConsistent(spec, first);
      WriteConsistent(disk, start.rendered.value);
    } else {
      var before := events[..|events| - 1];
      OneGeneration(spec, first, disk, before);
      ServedIsWhole(spec, first, disk, before);
      var s, last := Run(spec, start, before), events[|events| - 1];
      assert Quiet(spec, last);
      if s.withheld.Some? {
        FromOneConsistent(spec, s.withheld.value, Arrived(first, before));
        WriteConsistent(s.disk, s.withheld.value);
      }
      if last.Delivery? && RenderAll(spec, last.document).Some? {
        SetConsistent(spec, last.document);
        WriteConsistent(s.disk, RenderAll(spec, last.document).value);
      }
    }
  }

  /** A delivery writes exactly when it changes the files: a set that is already served
      touches nothing, and one that is written moves at least one of them. */
  lemma WritesOnlyChanges(spec: Spec, first: Document, disk: Disk, events: seq<Event>, event: Event)
    requires Distinct(spec) && RenderAll(spec, first).Some? && AllQuiet(spec, events)
    requires event.Delivery? && Quiet(spec, event)
    ensures var s := Run(spec, Started(disk, RenderAll(spec, first).value), events);
            var t := Step(spec, s, event);
            (t.written != s.written) <==> (t.disk != s.disk)
  {
    var start := Started(disk, RenderAll(spec, first).value);
    var s := Run(spec, start, events);
    var t := Step(spec, s, event);
    OneGeneration(spec, first, disk, events);
    ServedIsWhole(spec, first, disk, events);
    FromOneConsistent(spec, s.rendered.value, Arrived(first, events));
    hide Run, Started;
    if t != s && t.withheld == s.withheld {
      var made := RenderAll(spec, event.document).value;
      SetConsistent(spec, event.document);
      RenderAllExactly(spec, event.document);
      hide RenderAll;
      WriteConsistent(s.disk, made);
      assert |t.written| > |s.written|;
      SomeFileMoves(s.disk, s.rendered.value, made);
    }
  }

  /** Two sets for the same outputs are on one disk only if they are one set. */
  lemma SomeFileMoves(disk: Disk, held: seq<File>, made: seq<File>)
    requires OnDisk(disk, held) && held != made && |held| == |made|
    requires forall k :: 0 <= k < |held| ==> held[k].out == made[k].out
    ensures !OnDisk(disk, made)
  {
    var k :| 0 <= k < |held| && held[k] != made[k];
    assert Holds(disk, held[k]) && !Holds(disk, made[k]);
  }

  /** A publish that fails still serves the old set. It leaves that set on disk exactly when
      the files it had already written are ones that did not change, the new set exactly
      when the others are, and one generation or the other exactly in those two cases. */
  lemma FailedPublishTearsExactly(spec: Spec, s: State, made: seq<File>, fault: nat)
    requires Distinct(spec) && s.rendered.Some? && OnDisk(s.disk, s.rendered.value)
    requires |made| == |s.rendered.value| == |spec.Outs()| && fault < |made|
    requires forall k :: 0 <= k < |made| ==>
               made[k].out == spec.Outs()[k] && s.rendered.value[k].out == spec.Outs()[k]
    ensures var t := Publish(s, made, Some(fault));
            && t.rendered == s.rendered
            && (OnDisk(t.disk, s.rendered.value) <==>
                forall k :: 0 <= k < fault ==> made[k].text == s.rendered.value[k].text)
            && (OnDisk(t.disk, made) <==>
                forall k :: fault <= k < |made| ==> made[k].text == s.rendered.value[k].text)
  {
    var t := Publish(s, made, Some(fault));
    var files, held := made[..fault], s.rendered.value;
    forall k | 0 <= k < fault
      ensures Holds(t.disk, made[k])
      ensures Holds(t.disk, held[k]) <==> made[k].text == held[k].text
    {
      assert forall j :: k < j < fault ==> spec.Outs()[k] != spec.Outs()[j];
      WriteReads(s.disk, files, k);
      assert Holds(t.disk, files[k]);
    }
    forall k | fault <= k < |held|
      ensures Holds(t.disk, held[k])
      ensures Holds(t.disk, made[k]) <==> made[k].text == held[k].text
    {
      forall j | 0 <= j < |files| ensures files[j].out != held[k].out {
        assert spec.Outs()[j] != spec.Outs()[k];
      }
      WriteElsewhere(s.disk, files, held[k].out);
      assert Holds(s.disk, held[k]);
    }
  }

  /** The next drift check under `repair` mends it, from any disk at all. */
  lemma RepairRestores(spec: Spec, s: State)
    requires spec.onDrift.Repair? && !s.ended && s.rendered.Some?
    requires Consistent(s.rendered.value)
    ensures var t := Step(spec, s, DriftTick(None));
            t.rendered == s.rendered && OnDisk(t.disk, s.rendered.value)
  {
    WriteConsistent(s.disk, s.rendered.value);
  }

  // ----- the canary -----------------------------------------------------------------

  predicate Outside(spec: Spec, event: Event) {
    match event
    case Delivery(_, percent, _) => !Admitted(spec, percent)
    case CanaryTick(percent, _) => !Admitted(spec, percent)
    case _ => true
  }

  /** Outside the cohort a step leaves what is served, and what it writes is that or empty. */
  lemma OutsideWrites(spec: Spec, s: State, event: Event) returns (more: seq<File>)
    requires s.rendered.Some? && Outside(spec, event)
    ensures var t := Step(spec, s, event); t.rendered == s.rendered && t.written == s.written + more
    ensures forall k :: 0 <= k < |more| ==>
              more[k] in s.rendered.value || (spec.onDelete.Remove? && more[k].text == "")
  {
    hide RenderAll, Write;
    var t := Step(spec, s, event);
    if event.Absent? && t.written != s.written {
      more := Emptied(spec.Outs(), event.refused);
    } else if event.DriftTick? && t.written != s.written {
      more := Prefix(s.rendered.value, event.fault);
    } else {
      more := [];
    }
  }

  /** While the pod stays outside the cohort, what it serves is its first render, and every
      file written since is that render's, put back by a repair, or empty, after a deletion
      under `remove`. */
  lemma {:induction false} HeldOutside(spec: Spec, s: State, events: seq<Event>)
    requires s.rendered.Some?
    requires forall k :: 0 <= k < |events| ==> Outside(spec, events[k])
    ensures var t := Run(spec, s, events);
            && t.rendered == s.rendered
            && |s.written| <= |t.written| && t.written[..|s.written|] == s.written
            && forall k :: |s.written| <= k < |t.written| ==>
                 t.written[k] in s.rendered.value || (spec.onDelete.Remove? && t.written[k].text == "")
    decreases |events|
  {
    if events != [] {
      HeldOutside(spec, s, events[..|events| - 1]);
      var u := Run(spec, s, events[..|events| - 1]);
      var more := OutsideWrites(spec, u, events[|events| - 1]);
      hide Run, RenderAll, Write;
    }
  }

  /** The set of the last document that rendered. */
  function Newest(spec: Spec, first: Document, events: seq<Event>): Option<seq<File>>
    decreases |events|
  {
    if events == [] then RenderAll(spec, first)
    else
      var last := events[|events| - 1];
      if last.Delivery? && RenderAll(spec, last.document).Some? then RenderAll(spec, last.document)
      else Newest(spec, first, events[..|events| - 1])
  }

  /** What a cohort that opened now, and a write that worked, would leave served. */
  predicate Current(s: State, newest: Option<seq<File>>) {
    if s.withheld.Some? then s.withheld == newest else s.rendered == newest
  }

  lemma CurrentIsServed(spec: Spec, s: State, newest: Option<seq<File>>, percent: Option<nat>)
    requires !s.ended && Admitted(spec, percent)
    ensures Current(s, newest) <==> Step(spec, s, CanaryTick(percent, None)).rendered == newest
  {
  }

  /** A document arrives while an older one is held, and is not itself held: because it is
      what is served already, or because the pod is admitted by now. */
  predicate Overtakes(spec: Spec, s: State, event: Event) {
    && event.Delivery? && s.withheld.Some?
    && RenderAll(spec, event.document).Some?
    && RenderAll(spec, event.document) != s.withheld
    && (RenderAll(spec, event.document) == s.rendered || Admitted(spec, event.percent))
  }

  /** A document that should be written now is not, and nothing keeps it: a new one with
      nothing held, or the held one, which the loop lets go of before it writes. */
  predicate Drops(spec: Spec, s: State, event: Event) {
    match event
    case Delivery(document, percent, fault) =>
      var made := RenderAll(spec, document);
      made.Some? && made != s.rendered && s.withheld.None? && Admitted(spec, percent) && !Succeeds(made.value, fault)
    case CanaryTick(percent, fault) =>
      s.withheld.Some? && s.withheld != s.rendered && Admitted(spec, percent) && !Succeeds(s.withheld.value, fault)
    case _ => false
  }

  /** The steps that lose the newest document, both ways, whatever writes fail. */
  lemma CurrentExactly(spec: Spec, s: State, newest: Option<seq<File>>, event: Event)
    requires !s.ended && s.rendered.Some? && newest.Some? && Current(s, newest)
    ensures var next := if event.Delivery? && RenderAll(spec, event.document).Some?
                        then RenderAll(spec, event.document) else newest;
            Current(Step(spec, s, event), next) <==> !Overtakes(spec, s, event) && !Drops(spec, s, event)
  {
  }

  function At(spec: Spec, first: Document, disk: Disk, events: seq<Event>): State
    requires RenderAll(spec, first).Some?
  {
    Run(spec, Started(disk, RenderAll(spec, first).value), events)
  }

  ghost predicate CurrentAt(spec: Spec, first: Document, disk: Disk, events: seq<Event>)
    requires RenderAll(spec, first).Some?
  {
    Current(At(spec, first, disk, events), Newest(spec, first, events))
  }

  /** Throughout a run the newest document is what opening the cohort would leave served
      exactly when no step in it overtakes a held document or drops one. Events reach an
      agent that has not ended. */
  lemma {:induction false} AlwaysCurrentExactly(spec: Spec, first: Document, disk: Disk, events: seq<Event>)
    requires RenderAll(spec, first).Some?
    requires events != [] ==> !At(spec, first, disk, events[..|events| - 1]).ended
    ensures (forall n :: 0 <= n <= |events| ==> CurrentAt(spec, first, disk, events[..n])) <==>
              forall n :: 0 <= n < |events| ==>
                !Overtakes(spec, At(spec, first, disk, events[..n]), events[n]) &&
                !Drops(spec, At(spec, first, disk, events[..n]), events[n])
    decreases |events|
  {
    hide At, CurrentAt, Overtakes, Drops, RenderAll;
    StillRunning(spec, first, disk, events);
    if events != [] {
      var before := events[..|events| - 1];
      StillRunning(spec, first, disk, before);
      AlwaysCurrentExactly(spec, first, disk, before);
      if CurrentAt(spec, first, disk, before) {
        CurrentOneMore(spec, first, disk, events);
      }
      assert forall n :: 0 <= n <= |before| ==> before[..n] == events[..n];
      assert events[..|events|] == events;
    } else {
      assert events[..0] == events;
    }
  }

  lemma StillRunning(spec: Spec, first: Document, disk: Disk, events: seq<Event>)
    requires RenderAll(spec, first).Some?
    ensures CurrentAt(spec, first, disk, [])
    ensures events != [] && !At(spec, first, disk, events).ended ==>
              !At(spec, first, disk, events[..|events| - 1]).ended
  {
    hide RenderAll;
  }

  lemma CurrentOneMore(spec: Spec, first: Document, disk: Disk, events: seq<Event>)
    requires RenderAll(spec, first).Some? && events != []
    requires !At(spec, first, disk, events[..|events| - 1]).ended
    requires CurrentAt(spec, first, disk, events[..|events| - 1])
    ensures CurrentAt(spec, first, disk, events) <==>
              !Overtakes(spec, At(spec, first, disk, events[..|events| - 1]), events[|events| - 1]) &&
              !Drops(spec, At(spec, first, disk, events[..|events| - 1]), events[|events| - 1])
  {
    hide Current, Overtakes, Drops, RenderAll, Step, FromOne, Arrived;
    var before, last := events[..|events| - 1], events[|events| - 1];
    ServedIsWhole(spec, first, disk, before);
    NewestExists(spec, first, before);
    CurrentExactly(spec, At(spec, first, disk, before), Newest(spec, first, before), last);
  }

  lemma {:induction false} NewestExists(spec: Spec, first: Document, events: seq<Event>)
    requires RenderAll(spec, first).Some?
    ensures Newest(spec, first, events).Some?
    decreases |events|
  {
    if events != [] {
      NewestExists(spec, first, events[..|events| - 1]);
    }
  }

  /** Once overtaken, the cohort widening puts the older document back over the newest, if
      its write works. */
  lemma OvertakenIsServed(spec: Spec, s: State, event: Event, percent: Option<nat>)
    requires !s.ended && Overtakes(spec, s, event) && Admitted(spec, percent)
    ensures var t := Step(spec, Step(spec, s, event), CanaryTick(percent, None));
            t.rendered == s.withheld && t.rendered != RenderAll(spec, event.document) && t.withheld.None?
  {
  }

  /** With nothing held, nothing but another delivery changes what is served. So a document
      that was dropped is never served until the store says it again. */
  lemma {:induction false} DroppedForGood(spec: Spec, s: State, event: Event, events: seq<Event>)
    requires s.rendered.Some? && !s.ended && Drops(spec, s, event)
    requires forall k :: 0 <= k < |events| ==> !events[k].Delivery?
    ensures var t := Run(spec, Step(spec, s, event), events);
            t.withheld.None? && t.rendered == s.rendered
    decreases |events|
  {
    if events != [] {
      DroppedForGood(spec, s, event, events[..|events| - 1]);
    }
  }

  function Sample(): (spec: Spec)
    ensures Distinct(spec)
  {
    Spec("/c/app.json", [], 9, (document: Document, _) => Some(if |document| == 1 then "1" else "2"),
         Some(40), Warn, Retain, BestEffort)
  }

  /** The claim that the newest document is always served, once the cohort is open, fails:
      a document goes back to what is served while a change is held, and the change that was
      taken back is what the widening publishes. */
  lemma NewestNotServed(disk: Disk)
    ensures var first: Document := [1];
            var events := [Delivery([1, 2], Some(10), None), Delivery(first, Some(10), None),
                           CanaryTick(Some(50), None)];
            && AllQuiet(Sample(), events)
            && RenderAll(Sample(), first).Some?
            && var s := At(Sample(), first, disk, events);
               s.rendered != Newest(Sample(), first, events) && s.rendered == RenderAll(Sample(), [1, 2])
  {
    var spec, first: Document := Sample(), [1];
    var e0 := Delivery([1, 2], Some(10), None);
    var e1 := Delivery(first, Some(10), None);
    var e2 := CanaryTick(Some(50), None);
    assert spec.Outs() == [spec.out];
    RenderAllExactly(spec, first);
    RenderAllExactly(spec, [1, 2]);
    assert RenderAll(spec, first).value[0] != RenderAll(spec, [1, 2]).value[0];
    var s0 := Started(disk, RenderAll(spec, first).value);
    hide RenderAll;
    assert [e0, e1, e2][..2] == [e0, e1] && [e0, e1][..1] == [e0] && [e0][..0] == [];
    assert Run(spec, s0, [e0]) == Step(spec, s0, e0) == s0.(withheld := RenderAll(spec, [1, 2]));
    assert Run(spec, s0, [e0, e1]) == Run(spec, s0, [e0]);
    OvertakenIsServed(spec, Run(spec, s0, [e0]), e1, Some(50));
    assert Newest(spec, first, [e0, e1]) == RenderAll(spec, first);
  }

  /** And it fails another way, with nothing overtaken: the pod is let in, the write of the
      held document fails once, and no later tick writes it. */
  lemma HeldIsDropped(disk: Disk, events: seq<Event>)
    requires forall k :: 0 <= k < |events| ==> !events[k].Delivery?
    ensures var spec, first: Document := Sample(), [1];
            && RenderAll(spec, first).Some?
            && var held := Step(spec, Started(disk, RenderAll(spec, first).value), Delivery([1, 2], Some(10), None));
               var after := Run(spec, Step(spec, held, CanaryTick(Some(50), Some(0))), events);
               && held.withheld == RenderAll(spec, [1, 2]) && held.withheld.Some?
               && after.withheld.None? && after.rendered == RenderAll(spec, first) != held.withheld
  {
    var spec, first: Document := Sample(), [1];
    assert spec.Outs() == [spec.out];
    RenderAllExactly(spec, first);
    RenderAllExactly(spec, [1, 2]);
    assert RenderAll(spec, first).value[0] != RenderAll(spec, [1, 2]).value[0];
    assert |RenderAll(spec, [1, 2]).value| == 1;
    var start := Started(disk, RenderAll(spec, first).value);
    hide RenderAll;
    var held := Step(spec, start, Delivery([1, 2], Some(10), None));
    assert held == start.(withheld := RenderAll(spec, [1, 2]));
    DroppedForGood(spec, held, CanaryTick(Some(50), Some(0)), events);
  }

  /** A publish reaches the disk file by file up to the first write that fails, and the set is
      served exactly when none of its own writes did. */
  lemma PublishExactly(s: State, files: seq<File>, fault: Option<nat>)
    ensures var t := Publish(s, files, fault);
            if fault.Some? && fault.value < |files| then
              && t.rendered == s.rendered && t.written == s.written + files[..fault.value]
              && t.disk == Write(s.disk, files[..fault.value])
            else t.rendered == Some(files) && t.written == s.written + files && t.disk == Write(s.disk, files)
    ensures Publish(s, files, fault).withheld == s.withheld && Publish(s, files, fault).ended == s.ended
  {
  }

  // ----- what ends the loop, and what goes on ---------------------------------------

  /** The event at `n` ends the agent: the document is gone under the deletion policy `fail`,
      or a drift check finds, under the drift policy `fail`, a file that is not as served. */
  predicate Ends(spec: Spec, s: State, event: Event) {
    (event.Absent? && spec.onDelete == End) ||
    (event.DriftTick? && spec.onDrift == Fail && s.rendered.Some? &&
     exists k :: 0 <= k < |s.rendered.value| &&
       !(s.rendered.value[k].out in s.disk && s.disk[s.rendered.value[k].out] == s.rendered.value[k].text))
  }

  /** Over every run of a started agent: it has ended exactly when such an event was in it. */
  lemma {:induction false} EndedExactly(spec: Spec, first: Document, disk: Disk, events: seq<Event>)
    requires RenderAll(spec, first).Some?
    ensures At(spec, first, disk, events).ended <==>
              exists n :: 0 <= n < |events| && Ends(spec, At(spec, first, disk, events[..n]), events[n])
    decreases |events|
  {
    if events == [] {
      assert !At(spec, first, disk, events).ended;
    } else {
      var before, last := events[..|events| - 1], events[|events| - 1];
      EndedExactly(spec, first, disk, before);
      EndsHere(spec, At(spec, first, disk, before), last);
      assert forall n :: 0 <= n < |before| ==> before[..n] == events[..n];
      hide Ends, Step, RenderAll;
      if n :| 0 <= n < |events| && Ends(spec, At(spec, first, disk, events[..n]), events[n]) {
        if n < |before| {
          assert Ends(spec, At(spec, first, disk, before[..n]), before[n]);
        }
      }
    }
  }

  lemma EndsHere(spec: Spec, s: State, event: Event)
    ensures Step(spec, s, event).ended <==> s.ended || Ends(spec, s, event)
  {
    hide RenderAll, Write;
  }

  /** Once it has ended, nothing moves; under `retain` a deletion changes nothing, and under
      `warn` neither does a drift check; and a check of files that are as served never does. */
  lemma NothingMoves(spec: Spec, s: State, event: Event)
    requires
      || s.ended
      || (event.Absent? && spec.onDelete == Retain)
      || (event.DriftTick? && (spec.onDrift == Warn || s.rendered.None? || OnDisk(s.disk, s.rendered.value)))
      || (event.CanaryTick? && (s.withheld.None? || !Admitted(spec, event.percent)))
      || (event.Delivery? && (RenderAll(spec, event.document).None? || RenderAll(spec, event.document) == s.rendered))
    ensures Step(spec, s, event) == s
  {
    hide RenderAll, Write, Admitted;
  }

  /** After any deletions under `retain` and any drift checks under `warn` the next document
      that differs is served, and is on disk, if the pod is admitted and the writes work; and
      if the pod is not admitted it is held, and the files stay. */
  lemma {:induction false} GoesOn(spec: Spec, s: State, events: seq<Event>, document: Document, percent: Option<nat>)
    requires !s.ended && spec.onDelete == Retain && spec.onDrift == Warn
    requires forall k :: 0 <= k < |events| ==> events[k].Absent? || events[k].DriftTick?
    requires RenderAll(spec, document).Some? && RenderAll(spec, document) != s.rendered && Distinct(spec)
    ensures var t := Step(spec, Run(spec, s, events), Delivery(document, percent, None));
            if spec.cohort.None? || percent.None? || spec.cohort.value < percent.value then
              && t.rendered == RenderAll(spec, document) && OnDisk(t.disk, t.rendered.value)
              && t.withheld == s.withheld && !t.ended
            else
              t == s.(withheld := RenderAll(spec, document))
    decreases |events|
  {
    if events == [] {
      SetConsistent(spec, document);
      WriteConsistent(s.disk, RenderAll(spec, document).value);
    } else {
      GoesOn(spec, s, events[..|events| - 1], document, percent);
      Unmoved(spec, s, events);
    }
  }

  lemma {:induction false} Unmoved(spec: Spec, s: State, events: seq<Event>)
    requires !s.ended && spec.onDelete == Retain && spec.onDrift == Warn
    requires forall k :: 0 <= k < |events| ==> events[k].Absent? || events[k].DriftTick?
    ensures Run(spec, s, events) == s
    decreases |events|
  {
    if events != [] {
      Unmoved(spec, s, events[..|events| - 1]);
    }
  }

  /** A deletion under `remove` leaves every file of the pod empty, but for those that cannot
      be written, and nothing else changes: not what is served, nor what is held. */
  lemma {:induction false} RemoveEmpties(spec: Spec, s: State, refused: set<Path>, path: Path)
    requires spec.onDelete == Remove && !s.ended
    ensures var t := Step(spec, s, Absent(refused));
            && t == s.(disk := t.disk, written := t.written)
            && (if path in spec.Outs() && path !in refused then Holds(t.disk, File(path, ""))
                else (path in t.disk <==> path in s.disk) && (path in s.disk ==> t.disk[path] == s.disk[path]))
            && |t.written| >= |s.written| && t.written[..|s.written|] == s.written
            && (File(path, "") in t.written[|s.written|..] <==> path in spec.Outs() && path !in refused)
  {
    EmptiedReads(s.disk, spec.Outs(), refused, path);
    EmptiedHolds(spec.Outs(), refused, path);
    assert (s.written + Emptied(spec.Outs(), refused))[|s.written|..] == Emptied(spec.Outs(), refused);
  }

  lemma {:induction false} EmptiedHolds(outs: seq<Path>, refused: set<Path>, path: Path)
    ensures File(path, "") in Emptied(outs, refused) <==> path in outs && path !in refused
    decreases |outs|
  {
    if outs != [] {
      EmptiedHolds(outs[..|outs| - 1], refused, path);
    }
  }

  lemma {:induction false} EmptiedReads(disk: Disk, outs: seq<Path>, refused: set<Path>, path: Path)
    ensures var now := Write(disk, Emptied(outs, refused));
            if path in outs && path !in refused then Holds(now, File(path, ""))
            else (path in now <==> path in disk) && (path in disk ==> now[path] == disk[path])
    decreases |outs|
  {
    if outs == [] {
      EmptiedNone(disk, refused);
    } else {
      var k := |outs| - 1;
      EmptiedReads(disk, outs[..k], refused, path);
      EmptiedOneMore(disk, outs, refused, k);
      assert outs[..k + 1] == outs;
    }
  }

  /** The buckets from 0 to 99 that a percentage admits are as many as it says: none at 0, all
      at 100, and widening only lets more in. */
  lemma {:induction false} AdmittedCount(spec: Spec, percent: nat)
    requires percent <= 100
    ensures forall bucket: nat, less: nat :: less <= percent && Admitted(spec.(cohort := Some(bucket)), Some(less)) ==>
              Admitted(spec.(cohort := Some(bucket)), Some(percent))
    ensures |set bucket: nat | bucket < 100 && Admitted(spec.(cohort := Some(bucket)), Some(percent))| == percent
    ensures Admitted(spec.(cohort := None), Some(percent)) && Admitted(spec, None)
  {
    var admitted := set bucket: nat | bucket < 100 && Admitted(spec.(cohort := Some(bucket)), Some(percent));
    if percent == 0 {
      assert admitted == {};
    } else {
      AdmittedCount(spec, percent - 1);
      var fewer := set bucket: nat | bucket < 100 && Admitted(spec.(cohort := Some(bucket)), Some(percent - 1));
      assert admitted == fewer + {percent - 1};
    }
  }

  // ----- the first fetch ------------------------------------------------------------

  function Read(disk: Disk, path: Path): string {
    if path in disk then disk[path] else ""
  }

  function Held(disk: Disk, outs: seq<Path>): (files: seq<File>)
    ensures |files| == |outs|
    ensures forall k :: 0 <= k < |outs| ==> files[k] == File(outs[k], Read(disk, outs[k]))
  {
    if outs == [] then [] else [File(outs[0], Read(disk, outs[0]))] + Held(disk, outs[1..])
  }

  /** A file a best-effort start writes empty: one that is not there, or the main one when
      there is nothing in it. */
  predicate Needs(spec: Spec, disk: Disk, k: nat)
    requires k < |spec.Outs()|
  {
    spec.Outs()[k] !in disk || (k == 0 && Read(disk, spec.out) == "")
  }

  /** `recovered`, when the first fetch failed: what is served, and the disk it leaves.
      `blank` says whether a text is only white space; writes to `refused` fail, and the
      start with them. */
  method Recover(spec: Spec, disk: Disk, blank: string -> bool, refused: set<Path>) returns (state: Option<State>)
    requires blank("")
    ensures state.None? <==>
              match spec.startup {
                case RequireFresh => true
                case AllowCached => blank(Read(disk, spec.out))
                case BestEffort =>
                  (spec.out in refused && (spec.out !in disk || disk[spec.out] == "")) ||
                  exists k :: 0 <= k < |spec.Outs()| && spec.Outs()[k] !in disk && spec.Outs()[k] in refused
              }
    ensures state.Some? ==>
              && state.value.rendered == Some(Held(disk, spec.Outs()))
              && state.value.withheld.None? && !state.value.ended
              && (spec.startup.AllowCached? ==> state.value.disk == disk)
              && (spec.startup.BestEffort? ==> OnDisk(state.value.disk, Held(disk, spec.Outs())))
              && (forall path :: path in disk ==> Holds(state.value.disk, File(path, disk[path])))
              && (forall path :: path in state.value.disk && path !in disk ==>
                    path in spec.Outs() && state.value.disk[path] == "")
  {
    assert spec.Outs()[0] == spec.out;
    match spec.startup
    case RequireFresh => return None;
    case AllowCached =>
      if blank(Read(disk, spec.out)) {
        return None;
      }
      return Some(State(Some(Held(disk, spec.Outs())), None, disk, [], false));
    case BestEffort =>
      var now, written := disk, [];
      var outs := spec.Outs();
      for k := 0 to |outs|
        invariant forall path :: path in disk ==> Holds(now, File(path, disk[path]))
        invariant forall path :: path in now ==> now[path] == Read(disk, path) && (path !in disk ==> path !in refused)
        invariant forall j :: 0 <= j < k ==> outs[j] in now
        invariant forall path :: path in now && path !in disk ==> path in outs && now[path] == ""
        invariant forall j :: 0 <= j < k && Needs(spec, disk, j) ==> outs[j] !in refused
      {
        if (k == 0 && Read(now, outs[k]) == "") || outs[k] !in now {
          if outs[k] in refused {
            assert Needs(spec, disk, k);
            return None;
          }
          now, written := now[outs[k] := ""], written + [File(outs[k], "")];
        }
      }
      return Some(State(Some(Held(disk, outs)), None, now, written, false));
  }

  /** After a start from the files already there, they are what is served exactly when none
      is missing: under `allow-cached` a missing one reads as empty and is not written. */
  lemma CachedStartExactly(disk: Disk, outs: seq<Path>)
    ensures OnDisk(disk, Held(disk, outs)) <==> forall k :: 0 <= k < |outs| ==> outs[k] in disk
  {
    forall k | 0 <= k < |outs| ensures Holds(disk, Held(disk, outs)[k]) <==> outs[k] in disk {
    }
    assert forall k :: 0 <= k < |outs| && outs[k] !in disk ==> !Holds(disk, Held(disk, outs)[k]);
  }

  /** The set a document makes is the one read from disk exactly when each part is. */
  lemma HeldIsMadeExactly(spec: Spec, disk: Disk, document: Document)
    requires RenderAll(spec, document).Some?
    ensures RenderAll(spec, document).value == Held(disk, spec.Outs()) <==>
              forall j :: 0 <= j < |spec.Outs()| ==>
                spec.part(document, j) == Some(Read(disk, spec.Outs()[j]))
  {
    RenderAllExactly(spec, document);
    var made, held := RenderAll(spec, document).value, Held(disk, spec.Outs());
    hide RenderAll, Held, Read;
    if made != held {
      var j :| 0 <= j < |made| && made[j] != held[j];
    }
  }

  /** Every path of a set of distinct ones is there once the set is written. */
  lemma WrittenIsThere(spec: Spec, disk: Disk, document: Document, k: nat)
    requires Distinct(spec) && RenderAll(spec, document).Some? && k < |spec.Outs()|
    ensures spec.Outs()[k] in Write(disk, RenderAll(spec, document).value)
  {
    var made := RenderAll(spec, document).value;
    RenderAllExactly(spec, document);
    SetConsistent(spec, document);
    WriteConsistent(disk, made);
    hide RenderAll, Write, Consistent;
    assert Holds(Write(disk, made), made[k]);
  }

  /** A delivery to a pod with no canary, and with no fault: a change is written whole. */
  lemma UngatedDelivery(spec: Spec, s: State, document: Document)
    requires !s.ended && RenderAll(spec, document).Some?
    ensures var made := RenderAll(spec, document).value;
            Step(spec, s, Delivery(document, None, None)).disk ==
              if s.rendered == Some(made) then s.disk else Write(s.disk, made)
  {
    hide RenderAll, Write;
  }

  /** The next delivery then writes the missing file exactly when the document is not, file
      for file, what was read; one whose missing part renders empty never gets written. */
  lemma MissingFileWrittenExactly(spec: Spec, s: State, document: Document, k: nat)
    requires Distinct(spec) && k < |spec.Outs()| && spec.Outs()[k] !in s.disk
    requires !s.ended && s.rendered == Some(Held(s.disk, spec.Outs()))
    requires RenderAll(spec, document).Some?
    ensures var t := Step(spec, s, Delivery(document, None, None));
            spec.Outs()[k] in t.disk <==>
              exists j :: 0 <= j < |spec.Outs()| &&
                          spec.part(document, j) != Some(Read(s.disk, spec.Outs()[j]))
  {
    hide RenderAll, Held, Read, Distinct, Write, Step;
    UngatedDelivery(spec, s, document);
    HeldIsMadeExactly(spec, s.disk, document);
    WrittenIsThere(spec, s.disk, document, k);
  }
}
