/** The one-document slot a watch delivers into: a send replaces what is there, and a
    receive takes whatever is there now. */
module Slot {
  import opened Wrappers

  /** The channel, and beside it every document sent and which of them were received. */
  datatype State<T> = State(
    value: Option<T>,
    version: nat,
    seen: nat,
    woken: bool,
    sent: seq<T>,
    taken: seq<nat>,
    received: seq<T>)

  /** `recv` wakes on a version it has not seen and then reads the slot; a send on another
      thread can fall between the two. */
  datatype Step<T> = Send(document: T) | Wake | Take

  predicate Enabled<T>(s: State<T>, step: Step<T>) {
    match step
    case Send(_) => true
    case Wake => !s.woken && s.version != s.seen
    case Take => s.woken
  }

  function Apply<T>(s: State<T>, step: Step<T>): State<T>
    requires Enabled(s, step)
  {
    match step
    case Send(document) => s.(value := Some(document), version := s.version + 1, sent := s.sent + [document])
    case Wake => s.(woken := true, seen := s.version)
    case Take =>
      var read := s.(woken := false, seen := s.version);
      if s.value.None? || s.version == 0 then read
      else read.(taken := s.taken + [s.version - 1], received := s.received + [s.value.value])
  }

  function Fresh<T>(): State<T> {
    State(None, 0, 0, false, [], [], [])
  }

  /** The state after a whole run, if every step of it was possible. */
  function Run<T>(s: State<T>, steps: seq<Step<T>>): Option<State<T>>
    decreases |steps|
  {
    if steps == [] then Some(s)
    else if Enabled(s, steps[0]) then Run(Apply(s, steps[0]), steps[1..])
    else None
  }

  ghost predicate Inv<T>(s: State<T>) {
    && s.version == |s.sent|
    && (s.value == if s.sent == [] then None else Some(s.sent[|s.sent| - 1]))
    && s.seen <= s.version
    && |s.taken| == |s.received|
    && (forall k :: 0 <= k < |s.taken| ==> s.taken[k] < |s.sent| && s.received[k] == s.sent[s.taken[k]])
    && (forall j, k :: 0 <= j < k < |s.taken| ==> s.taken[j] < s.taken[k])
    && (var next := if s.taken == [] then 0 else s.taken[|s.taken| - 1] + 1;
        if s.woken then next < s.seen else next == s.seen)
  }

  lemma StepOk<T>(s: State<T>, step: Step<T>)
    requires Inv(s) && Enabled(s, step)
    ensures Inv(Apply(s, step))
  {
  }

  lemma {:induction false} RunOk<T>(s: State<T>, steps: seq<Step<T>>)
    requires Inv(s) && Run(s, steps).Some?
    ensures Inv(Run(s, steps).value)
    decreases |steps|
  {
    if steps != [] {
      StepOk(s, steps[0]);
      RunOk(Apply(s, steps[0]), steps[1..]);
    }
  }

  /** Over every interleaving: what is received is a strictly later-moving selection of what
      was sent, each document the newest there was when it was taken. */
  lemma LatestWins<T>(steps: seq<Step<T>>)
    requires Run(Fresh(), steps).Some?
    ensures var s := Run(Fresh<T>(), steps).value;
            && |s.taken| == |s.received|
            && (forall k :: 0 <= k < |s.taken| ==> s.taken[k] < |s.sent| && s.received[k] == s.sent[s.taken[k]])
            && (forall j, k :: 0 <= j < k < |s.taken| ==> s.taken[j] < s.taken[k])
            && (Enabled(s, Take) ==>
                  s.sent != [] && Apply(s, Take).received == s.received + [s.sent[|s.sent| - 1]])
  {
    RunOk(Fresh<T>(), steps);
  }

  /** Once sending stops, one more receive returns the last document, unless it was the one
      received last; then there is nothing to receive. */
  lemma LastArrives<T>(steps: seq<Step<T>>)
    requires Run(Fresh(), steps).Some?
    requires Run(Fresh<T>(), steps).value.sent != []
    ensures var s := Run(Fresh<T>(), steps).value;
            var last := |s.sent| - 1;
            var woken := if s.woken then s else if Enabled(s, Wake) then Apply(s, Wake) else s;
            if s.taken != [] && s.taken[|s.taken| - 1] == last then !Enabled(s, Wake) && !Enabled(s, Take)
            else Enabled(woken, Take) &&
                 Apply(woken, Take).received == s.received + [s.sent[last]] &&
                 !Enabled(Apply(woken, Take), Wake)
  {
    RunOk(Fresh<T>(), steps);
  }

  /** The channel itself. */
  class Channel<T> {
    var value: Option<T>
    var version: nat
    var seen: nat
    ghost var model: State<T>

    ghost predicate Valid()
      reads this
    {
      Inv(model) && !model.woken && value == model.value && version == model.version && seen == model.seen
    }

    constructor ()
      ensures Valid() && model == Fresh()
    {
      value, version, seen := None, 0, 0;
      model := Fresh();
    }

    method Put(document: T)
      requires Valid()
      modifies this
      ensures Valid() && model == Apply(old(model), Send(document))
    {
      value := Some(document);
      version := version + 1;
      model := Apply(model, Send(document));
    }

    /** `recv`, with `meanwhile` sent between its waking and its reading. `None` is a
        receiver still waiting. */
    method Recv(meanwhile: seq<T>) returns (document: Option<T>)
      requires Valid()
      modifies this
      ensures Valid()
      ensures old(model.version == model.seen) ==> document.None? && model == old(model)
      ensures old(model.version != model.seen) ==>
                && model.sent == old(model.sent) + meanwhile
                && document == Some(model.sent[|model.sent| - 1])
                && model.received == old(model.received) + [document.value]
    {
      if version == seen {
        return None;
      }
      ghost var was := model;
      WakeMoves(was);
      hide Inv, Apply;
      seen := version;
      model := Apply(model, Wake);
      for k := 0 to |meanwhile|
        invariant Inv(model) && model.woken
        invariant value == model.value && version == model.version && seen == model.seen
        invariant model.sent == was.sent + meanwhile[..k] && model.received == was.received
      {
        SendMoves(model, meanwhile[k]);
        assert was.sent + meanwhile[..k] + [meanwhile[k]] == was.sent + meanwhile[..k + 1];
        value, version := Some(meanwhile[k]), version + 1;
        model := Apply(model, Send(meanwhile[k]));
      }
      assert meanwhile[..|meanwhile|] == meanwhile;
      TakeMoves(model);
      seen := version;
      document := value;
      model := Apply(model, Take);
    }
  }

  lemma WakeMoves<T>(s: State<T>)
    requires Inv(s) && Enabled(s, Wake)
    ensures var t := Apply(s, Wake);
            && Inv(t) && t.woken && t.seen == s.version == t.version && t.value == s.value
            && t.sent == s.sent && t.received == s.received
  {
  }

  lemma SendMoves<T>(s: State<T>, document: T)
    requires Inv(s)
    ensures var t := Apply(s, Send(document));
            && Inv(t) && t.woken == s.woken && t.seen == s.seen && t.version == s.version + 1
            && t.value == Some(document) && t.sent == s.sent + [document] && t.received == s.received
  {
  }

  /** A receiver that has woken reads the last document sent. */
  lemma TakeMoves<T>(s: State<T>)
    requires Inv(s) && s.woken
    ensures Enabled(s, Take) && s.sent != []
    ensures var t := Apply(s, Take);
            && Inv(t) && !t.woken && t.seen == s.version == t.version && t.value == s.value
            && s.value == Some(s.sent[|s.sent| - 1]) && t.sent == s.sent
            && t.received == s.received + [s.sent[|s.sent| - 1]]
  {
  }
}
