/** Leader leases: replicas contending over one versioned object with wall-clock expiry.
    The operator elects its leader this way and the webhook the replica that rotates its
    certificates. Time is counted in microseconds, the precision a stored renewTime keeps. */
module LeaderLease {
  import opened Wrappers

  const SECOND: int := 1_000_000

  /** The two leases, and where the code around them differs: the operator's replica leads
      until it loses the term and then exits, the webhook's leads for one rotation. */
  datatype Lease = Operator | Rotation
  {
    function Seconds(): int {
      if Operator? then 15 else 30
    }

    function Term(): int {
      Seconds() * SECOND
    }

    /** Between two renewals of a leader. */
    function Renew(): int {
      if Operator? then 5 * SECOND else 10 * SECOND
    }

    /** Between two attempts of a replica that does not lead. */
    function Poll(): int {
      if Operator? then 5 * SECOND else 15 * SECOND
    }
  }

  /** A pod name. */
  type Id = nat

  datatype LeaseSpec = LeaseSpec(
    holder: Option<Id>,
    renewTime: Option<int>,
    acquireTime: Option<int>,
    transitions: Option<int>,
    durationSeconds: Option<int>)

  /** One accepted write: the spec, and when the API server took it. */
  datatype Stored = Stored(at: int, spec: LeaseSpec)

  // ----- one claim ------------------------------------------------------------------

  /** chrono's `num_seconds`: whole seconds, truncated toward zero. */
  function NumSeconds(elapsed: int): (s: int)
    ensures elapsed >= 0 ==> s * SECOND <= elapsed < (s + 1) * SECOND
    ensures elapsed < 0 ==> (s - 1) * SECOND < elapsed <= s * SECOND
  {
    if elapsed >= 0 then elapsed / SECOND else -((-elapsed) / SECOND)
  }

  predicate Expired(lease: Lease, spec: LeaseSpec, now: int) {
    spec.renewTime.None? ||
    NumSeconds(now - spec.renewTime.value) > spec.durationSeconds.GetOr(lease.Seconds())
  }

  /** The record a claim writes; the webhook's says neither when nor how often the lease
      changed hands. */
  function Mine(lease: Lease, me: Id, now: int, acquired: Option<int>, transitions: Option<int>): LeaseSpec {
    if lease.Operator? then
      LeaseSpec(Some(me), Some(now), Some(acquired.GetOr(now)), transitions, Some(lease.Seconds()))
    else
      LeaseSpec(Some(me), Some(now), None, None, Some(lease.Seconds()))
  }

  /** What a claim that began at `now` writes, having read `current` and judged its
      expiry at `later`; `None` when somebody else holds it. */
  function Decide(lease: Lease, current: Option<LeaseSpec>, me: Id, now: int, later: int): Option<LeaseSpec> {
    match current
    case None => Some(Mine(lease, me, now, None, Some(0)))
    case Some(spec) =>
      if spec.holder == Some(me) then
        Some(Mine(lease, me, now, spec.acquireTime, spec.transitions))
      else if Expired(lease, spec, later) then
        Some(Mine(lease, me, now, None, Some(spec.transitions.GetOr(0) + 1)))
      else
        None
  }

  /** What a claim answers: it holds the lease, somebody else does, or an error. */
  datatype Answer = Renewed | Taken | Errored

  /** A write refused with a 409. The webhook passes on the one of a replace as an error. */
  function Conflict(lease: Lease, version: nat): Answer {
    if lease.Operator? || version == 0 then Taken else Errored
  }

  // ----- the protocol as steps ------------------------------------------------------

  /** A create (version 0) or replace. The resource version is the number of writes the
      object has had, so the fence is `version == |history|`. */
  datatype Request = Request(version: nat, spec: LeaseSpec)

  datatype Phase =
    | Asked
    | Read(seen: nat)
    | Sent(request: Request)
    | Answered(answer: Answer)

  /** `held` and the loop position are the locals of the renewing loop, which a replica
      whose claim was answered at `won` has not entered yet. */
  datatype Replica =
    | Waiting(notBefore: int)
    | Contending(started: int, phase: Phase)
    | Elected(won: int)
    | Sleeping(held: int, since: int)
    | Renewing(held: int, started: int, phase: Phase)
    | Stopped
  {
    predicate Leads() {
      Elected? || Sleeping? || Renewing?
    }

    /** What it has in flight when it is given up. */
    function Dropped(): set<Request> {
      if Claiming() && phase.Sent? then {phase.request} else {}
    }

    predicate Claiming() {
      Contending? || Renewing?
    }

    function In(p: Phase): Replica
      requires Claiming()
    {
      if Contending? then Contending(started, p) else Renewing(held, started, p)
    }
  }

  /** `strays`: requests whose caller has given up on them and which may still arrive. */
  datatype State = State(
    clock: int,
    history: seq<Stored>,
    replicas: map<Id, Replica>,
    strays: set<Request>)

  /** A claim answers within `claim`, a sleep ends at most `wake` late, and a replica that
      was elected enters the renewing loop within `ready`. */
  datatype Timing = Timing(lease: Lease, claim: nat, wake: nat, ready: nat)

  datatype Step =
    | Advance(to: int)
    | Begin(id: Id)
    | Get(id: Id)
    | Choose(id: Id)
    | Arrive(id: Id)
    | Return(id: Id)
    | Fail(id: Id)
    | Enter(id: Id)
    | Finish(id: Id)
    | Die(id: Id)
    | Restart(id: Id)
    | Straggle(request: Request)

  function Current(history: seq<Stored>, version: nat): Option<LeaseSpec>
    requires version <= |history|
  {
    if version == 0 then None else Some(history[version - 1].spec)
  }

  predicate Patient(t: Timing, r: Replica, now: int) {
    match r
    case Elected(won) => now <= won + t.ready
    case Sleeping(_, since) => now <= since + t.lease.Renew() + t.wake
    case Contending(started, _) => now <= started + t.claim
    case Renewing(_, started, _) => now <= started + t.claim
    case _ => true
  }

  ghost predicate Enabled(t: Timing, s: State, step: Step) {
    match step
    case Advance(to) =>
      s.clock <= to && forall id :: id in s.replicas ==> Patient(t, s.replicas[id], to)
    case Begin(id) =>
      id in s.replicas &&
      (match s.replicas[id]
       case Waiting(notBefore) => notBefore <= s.clock
       case Sleeping(_, since) => since + t.lease.Renew() <= s.clock
       case _ => false)
    case Get(id) =>
      id in s.replicas && s.replicas[id].Claiming() && s.replicas[id].phase.Asked?
    case Choose(id) =>
      id in s.replicas && s.replicas[id].Claiming() && s.replicas[id].phase.Read? &&
      s.replicas[id].phase.seen <= |s.history|
    case Arrive(id) =>
      id in s.replicas && s.replicas[id].Claiming() && s.replicas[id].phase.Sent?
    case Return(id) =>
      id in s.replicas && s.replicas[id].Claiming() && s.replicas[id].phase.Answered?
    case Fail(id) =>
      id in s.replicas && s.replicas[id].Claiming()
    case Enter(id) =>
      id in s.replicas && s.replicas[id].Elected?
    case Finish(id) =>
      id in s.replicas && s.replicas[id].Leads()
    case Die(id) =>
      id in s.replicas
    case Restart(id) =>
      id in s.replicas && s.replicas[id].Stopped?
    case Straggle(request) =>
      request in s.strays
  }

  /** The API server's optimistic concurrency: a write based on another version is a 409. */
  function Land(now: int, history: seq<Stored>, request: Request): seq<Stored> {
    if request.version == |history| then history + [Stored(now, request.spec)] else history
  }

  /** A replica that no longer leads, and one whose very claim failed: the operator's
      process ends, the webhook's tries again. */
  function Ended(lease: Lease, now: int): Replica {
    if lease.Operator? then Stopped else Waiting(now + lease.Poll())
  }

  /** What a leader does about a claim that answered an error at `now`. */
  function AfterFailure(lease: Lease, held: int, now: int): Replica {
    if now - held >= lease.Term() then Ended(lease, now) else Sleeping(held, now)
  }

  /** What a replica does about an answer. */
  function Answering(lease: Lease, r: Replica, answer: Answer, now: int): Replica
    requires r.Claiming()
  {
    match answer
    case Renewed => if r.Contending? then Elected(now) else Sleeping(now, now)
    case Taken => if r.Contending? then Waiting(now + lease.Poll()) else Ended(lease, now)
    case Errored => if r.Contending? then Ended(lease, now) else AfterFailure(lease, r.held, now)
  }

  function Apply(t: Timing, s: State, step: Step): State
    requires Enabled(t, s, step)
  {
    match step
    case Advance(to) => s.(clock := to)
    case Begin(id) =>
      var r := s.replicas[id];
      s.(replicas := s.replicas[id :=
        if r.Waiting? then Contending(s.clock, Asked) else Renewing(r.held, s.clock, Asked)])
    case Get(id) =>
      s.(replicas := s.replicas[id := s.replicas[id].In(Read(|s.history|))])
    case Choose(id) =>
      var r := s.replicas[id];
      var written := Decide(t.lease, Current(s.history, r.phase.seen), id, r.started, s.clock);
      s.(replicas := s.replicas[id := r.In(
        if written.None? then Answered(Taken) else Sent(Request(r.phase.seen, written.value)))])
    case Arrive(id) =>
      var request := s.replicas[id].phase.request;
      s.(history := Land(s.clock, s.history, request),
         replicas := s.replicas[id := s.replicas[id].In(Answered(
           if request.version == |s.history| then Renewed else Conflict(t.lease, request.version)))])
    case Return(id) =>
      var r := s.replicas[id];
      s.(replicas := s.replicas[id := Answering(t.lease, r, r.phase.answer, s.clock)])
    case Fail(id) =>
      var r := s.replicas[id];
      s.(replicas := s.replicas[id := Answering(t.lease, r, Errored, s.clock)],
         strays := s.strays + r.Dropped())
    case Enter(id) =>
      s.(replicas := s.replicas[id := Sleeping(s.clock, s.clock)])
    case Finish(id) =>
      s.(replicas := s.replicas[id := Ended(t.lease, s.clock)],
         strays := s.strays + s.replicas[id].Dropped())
    case Die(id) =>
      s.(replicas := s.replicas[id := Stopped],
         strays := s.strays + s.replicas[id].Dropped())
    case Restart(id) =>
      s.(replicas := s.replicas[id := Waiting(s.clock)])
    case Straggle(request) =>
      s.(history := Land(s.clock, s.history, request), strays := s.strays - {request})
  }

  /** Nobody leads, nothing is in flight, each replica may claim from now on, and the object
      is absent or left over. */
  ghost predicate Init(s: State) {
    && s.strays == {}
    && |s.history| <= 1
    && (forall k :: 0 <= k < |s.history| ==>
          s.history[k].at <= s.clock &&
          s.history[k].spec.renewTime.GetOr(s.clock) <= s.clock)
    && (forall id :: id in s.replicas ==> s.replicas[id].Waiting? && s.replicas[id].notBefore <= s.clock)
  }

  ghost predicate ReachableIn(t: Timing, n: nat, s: State) {
    if n == 0 then Init(s)
    else exists p, step :: ReachableIn(t, n - 1, p) && Enabled(t, p, step) && s == Apply(t, p, step)
  }

  ghost predicate Reachable(t: Timing, s: State) {
    exists n: nat :: ReachableIn(t, n, s)
  }

  ghost predicate LeadTogether(s: State) {
    exists i, j :: i in s.replicas && j in s.replicas && i != j &&
                   s.replicas[i].Leads() && s.replicas[j].Leads()
  }

  /** How long after the renewTime it last wrote a leader can still be leading. */
  function LongestLead(t: Timing): int {
    t.lease.Term() + 4 * t.claim + 3 * t.wake + t.ready
  }

  // ----- what every step keeps ------------------------------------------------------

  /** `next` is a write a claim may make over `prev` no later than `now`. */
  predicate Over(lease: Lease, prev: LeaseSpec, next: LeaseSpec, now: int) {
    && next.holder.Some?
    && next.renewTime.Some?
    && next.durationSeconds == Some(lease.Seconds())
    && (prev.holder == next.holder ==>
          prev.renewTime.GetOr(next.renewTime.value) <= next.renewTime.value)
    && (prev.holder != next.holder ==> Expired(lease, prev, now))
    && (lease.Operator? ==> Recorded(prev, next))
  }

  /** The operator's record keeps count of who held the lease since when. */
  predicate Recorded(prev: LeaseSpec, next: LeaseSpec)
    requires next.renewTime.Some?
  {
    if prev.holder == next.holder then
      next.transitions == prev.transitions &&
      next.acquireTime == Some(prev.acquireTime.GetOr(next.renewTime.value))
    else
      next.transitions == Some(prev.transitions.GetOr(0) + 1) &&
      next.acquireTime == next.renewTime
  }

  predicate HistoryOk(lease: Lease, history: seq<Stored>, clock: int) {
    && (forall k :: 0 <= k < |history| ==>
          history[k].at <= clock && history[k].spec.renewTime.GetOr(clock) <= clock)
    && (forall k :: 0 < k < |history| ==> history[k-1].at <= history[k].at)
    && (forall k :: 0 < k < |history| ==>
          Over(lease, history[k-1].spec, history[k].spec, history[k].at))
  }

  predicate RequestOk(lease: Lease, request: Request, history: seq<Stored>, clock: int) {
    && request.spec.holder.Some?
    && request.spec.renewTime.Some?
    && request.spec.renewTime.value <= clock
    && request.spec.durationSeconds == Some(lease.Seconds())
    && request.version <= |history|
    && (request.version > 0 ==> Over(lease, history[request.version - 1].spec, request.spec, clock))
  }

  /** A record `id` wrote whose renewTime is `renewed`. */
  predicate Wrote(lease: Lease, history: seq<Stored>, m: nat, id: Id, renewed: int) {
    m < |history| && history[m].spec.holder == Some(id) &&
    history[m].spec.renewTime == Some(renewed) &&
    history[m].spec.durationSeconds == Some(lease.Seconds())
  }

  /** Where in its three rounds a leader asleep since `since` can be. */
  predicate Rested(t: Timing, rested: int) {
    var round := t.claim + t.wake;
    rested == 0 || t.lease.Renew() <= rested <= t.lease.Renew() + round ||
    (2 * t.lease.Renew() <= rested <= 2 * t.lease.Renew() + 2 * round && rested < t.lease.Term())
  }

  predicate Woken(t: Timing, awake: int) {
    var round := t.claim + t.wake;
    t.lease.Renew() <= awake <= t.lease.Renew() + t.wake ||
    2 * t.lease.Renew() <= awake <= 2 * t.lease.Renew() + round + t.wake ||
    t.lease.Term() <= awake <= t.lease.Term() + 2 * round + t.wake
  }

  /** What a leader counts its term from is soon after the record it wrote. */
  predicate Fresh(t: Timing, r: Replica, renewed: int)
    requires r.Leads()
  {
    if r.Elected? then r.won <= renewed + t.claim else r.held <= renewed + t.claim + t.ready
  }

  ghost predicate ReplicaOk(t: Timing, s: State, id: Id, r: Replica) {
    && Patient(t, r, s.clock)
    && (r.Claiming() ==>
          && r.started <= s.clock
          && (forall k :: 0 <= k < |s.history| && s.history[k].spec.holder == Some(id) ==>
                s.history[k].spec.renewTime.GetOr(r.started) <= r.started)
          && (forall q :: q in s.strays && q.spec.holder == Some(id) ==>
                q.spec.renewTime.GetOr(r.started) <= r.started)
          && (r.phase.Read? ==> r.phase.seen <= |s.history|)
          && (r.phase.Sent? ==>
                && RequestOk(t.lease, r.phase.request, s.history, s.clock)
                && r.phase.request.spec.holder == Some(id)
                && r.phase.request.spec.renewTime == Some(r.started))
          && (r.phase == Answered(Renewed) ==> exists m: nat :: Wrote(t.lease, s.history, m, id, r.started)))
    && (r.Leads() ==> exists m: nat, renewed ::
          Wrote(t.lease, s.history, m, id, renewed) && Fresh(t, r, renewed))
    && (r.Elected? ==> r.won <= s.clock)
    && (r.Sleeping? ==> r.since <= s.clock && Rested(t, r.since - r.held))
    && (r.Renewing? ==> Woken(t, r.started - r.held))
  }

  ghost predicate Inv(t: Timing, s: State) {
    && HistoryOk(t.lease, s.history, s.clock)
    && (forall q :: q in s.strays ==> RequestOk(t.lease, q, s.history, s.clock))
    && (forall id :: id in s.replicas ==> ReplicaOk(t, s, id, s.replicas[id]))
  }

  lemma ExpiredStays(lease: Lease, spec: LeaseSpec, now: int, later: int)
    requires Expired(lease, spec, now) && now <= later
    ensures Expired(lease, spec, later)
  {
  }

  lemma OverStays(lease: Lease, prev: LeaseSpec, next: LeaseSpec, now: int, later: int)
    requires Over(lease, prev, next, now) && now <= later
    ensures Over(lease, prev, next, later)
  {
    if prev.holder != next.holder {
      ExpiredStays(lease, prev, now, later);
    }
  }

  lemma RequestStays(lease: Lease, q: Request, history: seq<Stored>, clock: int, history': seq<Stored>, clock': int)
    requires RequestOk(lease, q, history, clock)
    requires history <= history' && clock <= clock'
    ensures RequestOk(lease, q, history', clock')
  {
    if q.version > 0 {
      OverStays(lease, history[q.version - 1].spec, q.spec, clock, clock');
    }
  }

  lemma LandOk(lease: Lease, s: State, q: Request)
    requires HistoryOk(lease, s.history, s.clock)
    requires RequestOk(lease, q, s.history, s.clock)
    ensures HistoryOk(lease, Land(s.clock, s.history, q), s.clock)
    ensures s.history <= Land(s.clock, s.history, q)
  {
  }

  /** A replica nobody touched is still in order after a step of somebody else's. */
  lemma OthersStay(t: Timing, s: State, s': State, id: Id, r: Replica)
    requires ReplicaOk(t, s, id, r)
    requires s.history <= s'.history && s.clock <= s'.clock
    requires Patient(t, r, s'.clock)
    requires r.Claiming() ==> forall k :: |s.history| <= k < |s'.history| && s'.history[k].spec.holder == Some(id) ==>
                s'.history[k].spec.renewTime.GetOr(r.started) <= r.started
    requires r.Claiming() ==> forall q :: q in s'.strays && q !in s.strays ==> q.spec.holder != Some(id)
    ensures ReplicaOk(t, s', id, r)
  {
    if r.Claiming() {
      if r.phase.Sent? {
        RequestStays(t.lease, r.phase.request, s.history, s.clock, s'.history, s'.clock);
      }
      if r.phase == Answered(Renewed) {
        var m: nat :| Wrote(t.lease, s.history, m, id, r.started);
        assert Wrote(t.lease, s'.history, m, id, r.started);
      }
    }
    if r.Leads() {
      var m: nat, renewed :| Wrote(t.lease, s.history, m, id, renewed) && Fresh(t, r, renewed);
      assert Wrote(t.lease, s'.history, m, id, renewed);
    }
  }

  lemma InitOk(t: Timing, s: State)
    requires Init(s)
    ensures Inv(t, s)
  {
  }

  lemma AdvanceOk(t: Timing, s: State, to: int)
    requires Inv(t, s) && Enabled(t, s, Advance(to))
    ensures Inv(t, Apply(t, s, Advance(to)))
  {
    var s' := Apply(t, s, Advance(to));
    forall q | q in s'.strays ensures RequestOk(t.lease, q, s'.history, s'.clock) {
      RequestStays(t.lease, q, s.history, s.clock, s'.history, s'.clock);
    }
    forall id | id in s'.replicas ensures ReplicaOk(t, s', id, s'.replicas[id]) {
      OthersStay(t, s, s', id, s.replicas[id]);
    }
  }

  /** One replica moves on, and nothing else does. */
  lemma Moves(t: Timing, s: State, id: Id, r: Replica)
    requires Inv(t, s) && id in s.replicas && ReplicaOk(t, s, id, r)
    ensures Inv(t, s.(replicas := s.replicas[id := r]))
  {
    hide HistoryOk, RequestOk, Patient, Rested, Woken;
    var s' := s.(replicas := s.replicas[id := r]);
    forall j | j in s'.replicas ensures ReplicaOk(t, s', j, s'.replicas[j]) {
      SameRecord(t, s, s', j, s'.replicas[j]);
    }
  }

  /** How one replica is does not depend on the others. */
  lemma SameRecord(t: Timing, s: State, s': State, id: Id, r: Replica)
    requires ReplicaOk(t, s, id, r)
    requires s'.clock == s.clock && s'.history == s.history && s'.strays == s.strays
    ensures ReplicaOk(t, s', id, r)
  {
  }

  lemma BeginOk(t: Timing, s: State, id: Id)
    requires Inv(t, s) && Enabled(t, s, Begin(id))
    ensures Inv(t, Apply(t, s, Begin(id)))
  {
    assert ReplicaOk(t, s, id, s.replicas[id]);
    Moves(t, s, id, Apply(t, s, Begin(id)).replicas[id]);
  }

  lemma GetOk(t: Timing, s: State, id: Id)
    requires Inv(t, s) && Enabled(t, s, Get(id))
    ensures Inv(t, Apply(t, s, Get(id)))
  {
    assert ReplicaOk(t, s, id, s.replicas[id]);
    Moves(t, s, id, Apply(t, s, Get(id)).replicas[id]);
  }

  lemma DecideOk(lease: Lease, s: State, id: Id, started: int, seen: nat)
    requires seen <= |s.history| && started <= s.clock
    requires seen > 0 && s.history[seen - 1].spec.holder == Some(id) ==>
               s.history[seen - 1].spec.renewTime.GetOr(started) <= started
    requires Decide(lease, Current(s.history, seen), id, started, s.clock).Some?
    ensures RequestOk(lease, Request(seen, Decide(lease, Current(s.history, seen), id, started, s.clock).value), s.history, s.clock)
  {
  }

  lemma ChooseOk(t: Timing, s: State, id: Id)
    requires Inv(t, s) && Enabled(t, s, Choose(id))
    ensures Inv(t, Apply(t, s, Choose(id)))
  {
    hide Rested, Woken, Over, HistoryOk;
    var r := s.replicas[id];
    assert ReplicaOk(t, s, id, r);
    if Decide(t.lease, Current(s.history, r.phase.seen), id, r.started, s.clock).Some? {
      DecideOk(t.lease, s, id, r.started, r.phase.seen);
    }
    Moves(t, s, id, Apply(t, s, Choose(id)).replicas[id]);
  }

  lemma ArriveOk(t: Timing, s: State, id: Id)
    requires Inv(t, s) && Enabled(t, s, Arrive(id))
    ensures Inv(t, Apply(t, s, Arrive(id)))
  {
    var s' := Apply(t, s, Arrive(id));
    ArrivedOk(t, s, id);
    assert ReplicaOk(t, s, id, s.replicas[id]);
    hide ReplicaOk;
    LandOk(t.lease, s, s.replicas[id].phase.request);
    forall q | q in s'.strays ensures RequestOk(t.lease, q, s'.history, s'.clock) {
      RequestStays(t.lease, q, s.history, s.clock, s'.history, s'.clock);
    }
    forall j | j in s'.replicas && j != id ensures ReplicaOk(t, s', j, s'.replicas[j]) {
      OthersStay(t, s, s', j, s.replicas[j]);
    }
  }

  lemma ArrivedOk(t: Timing, s: State, id: Id)
    requires Inv(t, s) && Enabled(t, s, Arrive(id))
    ensures var s' := Apply(t, s, Arrive(id)); ReplicaOk(t, s', id, s'.replicas[id])
  {
    hide HistoryOk, Over, Rested, Woken;
    var s' := Apply(t, s, Arrive(id));
    var r := s.replicas[id];
    assert ReplicaOk(t, s, id, r);
    LandOk(t.lease, s, r.phase.request);
    if r.phase.request.version == |s.history| {
      assert Wrote(t.lease, s'.history, |s.history|, id, r.started);
    }
    if r.Leads() {
      var m: nat, renewed :| Wrote(t.lease, s.history, m, id, renewed) && Fresh(t, r, renewed);
      assert Wrote(t.lease, s'.history, m, id, renewed);
    }
  }

  lemma ReturnOk(t: Timing, s: State, id: Id)
    requires Inv(t, s) && Enabled(t, s, Return(id))
    ensures Inv(t, Apply(t, s, Return(id)))
  {
    assert ReplicaOk(t, s, id, s.replicas[id]);
    Moves(t, s, id, Apply(t, s, Return(id)).replicas[id]);
  }

  lemma FailOk(t: Timing, s: State, id: Id)
    requires Inv(t, s) && Enabled(t, s, Fail(id))
    ensures Inv(t, Apply(t, s, Fail(id)))
  {
    assert ReplicaOk(t, s, id, s.replicas[id]);
    GivenUpOk(t, s, id, Apply(t, s, Fail(id)).replicas[id]);
  }

  lemma EnterOk(t: Timing, s: State, id: Id)
    requires Inv(t, s) && Enabled(t, s, Enter(id))
    ensures Inv(t, Apply(t, s, Enter(id)))
  {
    var r := s.replicas[id];
    assert ReplicaOk(t, s, id, r);
    var m: nat, renewed :| Wrote(t.lease, s.history, m, id, renewed) && Fresh(t, r, renewed);
    Moves(t, s, id, Apply(t, s, Enter(id)).replicas[id]);
  }

  lemma FinishOk(t: Timing, s: State, id: Id)
    requires Inv(t, s) && Enabled(t, s, Finish(id))
    ensures Inv(t, Apply(t, s, Finish(id)))
  {
    GivenUpOk(t, s, id, Ended(t.lease, s.clock));
  }

  lemma DieOk(t: Timing, s: State, id: Id)
    requires Inv(t, s) && Enabled(t, s, Die(id))
    ensures Inv(t, Apply(t, s, Die(id)))
  {
    GivenUpOk(t, s, id, Stopped);
  }

  /** Whatever a replica was doing can be given up; what it sent may still arrive. */
  lemma GivenUpOk(t: Timing, s: State, id: Id, r: Replica)
    requires Inv(t, s) && id in s.replicas
    requires ReplicaOk(t, s, id, r) && !r.Claiming()
    ensures Inv(t, s.(replicas := s.replicas[id := r], strays := s.strays + s.replicas[id].Dropped()))
  {
    hide HistoryOk, RequestOk, Rested, Woken;
    var s' := s.(replicas := s.replicas[id := r], strays := s.strays + s.replicas[id].Dropped());
    assert ReplicaOk(t, s, id, s.replicas[id]);
    forall j | j in s'.replicas && j != id ensures ReplicaOk(t, s', j, s'.replicas[j]) {
      OthersStay(t, s, s', j, s.replicas[j]);
    }
  }

  lemma RestartOk(t: Timing, s: State, id: Id)
    requires Inv(t, s) && Enabled(t, s, Restart(id))
    ensures Inv(t, Apply(t, s, Restart(id)))
  {
    GivenUpOk(t, s, id, Waiting(s.clock));
    assert s.strays + {} == s.strays;
  }

  lemma StraggleOk(t: Timing, s: State, request: Request)
    requires Inv(t, s) && Enabled(t, s, Straggle(request))
    ensures Inv(t, Apply(t, s, Straggle(request)))
  {
    var s' := Apply(t, s, Straggle(request));
    LandOk(t.lease, s, request);
    forall q | q in s'.strays ensures RequestOk(t.lease, q, s'.history, s'.clock) {
      RequestStays(t.lease, q, s.history, s.clock, s'.history, s'.clock);
    }
    forall j | j in s'.replicas ensures ReplicaOk(t, s', j, s'.replicas[j]) {
      OthersStay(t, s, s', j, s.replicas[j]);
    }
  }

  lemma StepOk(t: Timing, s: State, step: Step)
    requires Inv(t, s) && Enabled(t, s, step)
    ensures Inv(t, Apply(t, s, step))
  {
    match step
    case Advance(to) => AdvanceOk(t, s, to);
    case Begin(id) => BeginOk(t, s, id);
    case Get(id) => GetOk(t, s, id);
    case Choose(id) => ChooseOk(t, s, id);
    case Arrive(id) => ArriveOk(t, s, id);
    case Return(id) => ReturnOk(t, s, id);
    case Fail(id) => FailOk(t, s, id);
    case Enter(id) => EnterOk(t, s, id);
    case Finish(id) => FinishOk(t, s, id);
    case Die(id) => DieOk(t, s, id);
    case Restart(id) => RestartOk(t, s, id);
    case Straggle(request) => StraggleOk(t, s, request);
  }

  lemma {:induction false} ReachableInOk(t: Timing, n: nat, s: State)
    requires ReachableIn(t, n, s)
    ensures Inv(t, s)
  {
    if n == 0 {
      InitOk(t, s);
    } else {
      var p, step :| ReachableIn(t, n - 1, p) && Enabled(t, p, step) && s == Apply(t, p, step);
      ReachableInOk(t, n - 1, p);
      StepOk(t, p, step);
    }
  }

  lemma ReachableOk(t: Timing, s: State)
    requires Reachable(t, s)
    ensures Inv(t, s)
  {
    var n: nat :| ReachableIn(t, n, s);
    ReachableInOk(t, n, s);
  }

  // ----- exclusion ------------------------------------------------------------------

  /** Between one record of `id`'s and the next change of holder, renewTime only rises. */
  lemma {:induction false} RenewRises(lease: Lease, history: seq<Stored>, clock: int, m: nat, k: nat, id: Id, renewed: int)
    requires HistoryOk(lease, history, clock) && m <= k < |history|
    requires Wrote(lease, history, m, id, renewed)
    requires forall x :: m <= x <= k ==> history[x].spec.holder == Some(id)
    ensures history[k].spec.renewTime.Some? && history[k].spec.renewTime.value >= renewed
    ensures history[k].spec.durationSeconds == Some(lease.Seconds())
  {
    if m < k {
      RenewRises(lease, history, clock, m, k - 1, id, renewed);
      assert Over(lease, history[k-1].spec, history[k].spec, history[k].at);
    }
  }

  /** A leader has a record of its own, and leads for at most `LongestLead` past it. */
  lemma LeaderRecent(t: Timing, s: State, id: Id) returns (m: nat, renewed: int)
    requires Inv(t, s) && id in s.replicas && s.replicas[id].Leads()
    ensures Wrote(t.lease, s.history, m, id, renewed)
    ensures s.clock <= renewed + LongestLead(t)
  {
    var r := s.replicas[id];
    assert ReplicaOk(t, s, id, r);
    m, renewed :| Wrote(t.lease, s.history, m, id, renewed) && Fresh(t, r, renewed);
  }

  function HolderNow(s: State): Option<Id> {
    if s.history == [] then None else s.history[|s.history| - 1].spec.holder
  }

  /** The lease is never taken from a holder until a whole second past its duration has
      gone by since the renewTime it last wrote: the whole-seconds comparison is strict.
      Every record a claim writes has its lease's own duration. */
  lemma TakeoverWaits(t: Timing, s: State, k: nat)
    requires Reachable(t, s) && 0 < k < |s.history|
    requires s.history[k].spec.holder != s.history[k-1].spec.holder
    ensures var left := s.history[k-1].spec;
            left.renewTime.Some? && left.durationSeconds.GetOr(t.lease.Seconds()) >= 0 ==>
              s.history[k].at >= left.renewTime.value + (left.durationSeconds.GetOr(t.lease.Seconds()) + 1) * SECOND
    ensures s.history[k].spec.durationSeconds == Some(if t.lease.Operator? then 15 else 30)
  {
    ReachableOk(t, s);
    assert Over(t.lease, s.history[k-1].spec, s.history[k].spec, s.history[k].at);
  }

  /** A leader stops within the longest lead of the renewTime of its own latest record. */
  lemma StandsDown(t: Timing, s: State, id: Id) returns (m: nat, renewed: int)
    requires Reachable(t, s) && id in s.replicas && s.replicas[id].Leads()
    ensures Wrote(t.lease, s.history, m, id, renewed)
    ensures s.clock <= renewed + (if t.lease.Operator? then 15 else 30) * SECOND +
                       4 * t.claim + 3 * t.wake + t.ready
  {
    ReachableOk(t, s);
    m, renewed := LeaderRecent(t, s, id);
  }

  /** Every leader but the current holder was displaced, and leads on for at most
      `4 * claim + 3 * wake + ready` less one second after the first write that displaced it. */
  lemma DisplacedLeaderStops(t: Timing, s: State, id: Id) returns (k: nat)
    requires Reachable(t, s) && id in s.replicas && s.replicas[id].Leads()
    requires HolderNow(s) != Some(id)
    ensures 0 < k < |s.history|
    ensures s.history[k-1].spec.holder == Some(id) && s.history[k].spec.holder != Some(id)
    ensures s.clock <= s.history[k].at + 4 * t.claim + 3 * t.wake + t.ready - SECOND
  {
    ReachableOk(t, s);
    var m, renewed := LeaderRecent(t, s, id);
    k := m + 1;
    while s.history[k].spec.holder == Some(id)
      invariant m < k < |s.history|
      invariant forall x :: m <= x < k ==> s.history[x].spec.holder == Some(id)
      decreases |s.history| - k
    {
      k := k + 1;
    }
    RenewRises(t.lease, s.history, s.clock, m, k - 1, id, renewed);
    assert Over(t.lease, s.history[k-1].spec, s.history[k].spec, s.history[k].at);
  }

  lemma NeverTogether(t: Timing, s: State)
    requires Reachable(t, s)
    requires 4 * t.claim + 3 * t.wake + t.ready < SECOND
    ensures !LeadTogether(s)
  {
    if LeadTogether(s) {
      var i, j :| i in s.replicas && j in s.replicas && i != j &&
                  s.replicas[i].Leads() && s.replicas[j].Leads();
      ReachableOk(t, s);
      var loser := if HolderNow(s) == Some(i) then j else i;
      var k := DisplacedLeaderStops(t, s, loser);
    }
  }

  // ----- and exactly when it holds --------------------------------------------------

  lemma ReachableStep(t: Timing, s: State, step: Step)
    requires Reachable(t, s) && Enabled(t, s, step)
    ensures Reachable(t, Apply(t, s, step))
  {
    var n: nat :| ReachableIn(t, n, s);
    assert ReachableIn(t, n + 1, Apply(t, s, step));
  }

  lemma InitReachable(t: Timing, s: State)
    requires Init(s)
    ensures Reachable(t, s)
  {
    assert ReachableIn(t, 0, s);
  }

  /** Replica 0 takes the lease at once. */
  lemma FirstClaim(t: Timing) returns (s: State)
    ensures Reachable(t, s) && s.clock == 0 && s.strays == {}
    ensures s.replicas == map[0 := Contending(0, Answered(Renewed)), 1 := Waiting(0)]
    ensures s.history == [Stored(0, Mine(t.lease, 0, 0, None, Some(0)))]
  {
    hide Reachable, Mine;
    s := State(0, [], map[0 := Waiting(0), 1 := Waiting(0)], {});
    InitReachable(t, s);
    ReachableStep(t, s, Begin(0));  s := Apply(t, s, Begin(0));
    ReachableStep(t, s, Get(0));    s := Apply(t, s, Get(0));
    ReachableStep(t, s, Choose(0)); s := Apply(t, s, Choose(0));
    ReachableStep(t, s, Arrive(0)); s := Apply(t, s, Arrive(0));
  }

  /** It hears of it `d` later and enters its loop `r` after that. */
  lemma FirstElected(t: Timing, d: nat, r: nat) returns (s: State)
    requires d <= t.claim && r <= t.ready
    ensures Reachable(t, s) && s.clock == d + r && s.strays == {}
    ensures s.replicas == map[0 := Sleeping(d + r, d + r), 1 := Waiting(0)]
    ensures s.history == [Stored(0, Mine(t.lease, 0, 0, None, Some(0)))]
  {
    hide Reachable, Mine;
    s := FirstClaim(t);
    ReachableStep(t, s, Advance(d));     s := Apply(t, s, Advance(d));
    ReachableStep(t, s, Return(0));      s := Apply(t, s, Return(0));
    ReachableStep(t, s, Advance(d + r)); s := Apply(t, s, Advance(d + r));
    ReachableStep(t, s, Enter(0));       s := Apply(t, s, Enter(0));
  }

  /** One renewal that fails, as late as `l` and `d` make it. */
  lemma LateRound(t: Timing, s: State, d: nat, l: nat) returns (s': State)
    requires Reachable(t, s) && d <= t.claim && l <= t.wake
    requires s.replicas.Keys == {0, 1} && s.replicas[0].Sleeping? && s.replicas[1].Waiting?
    requires s.clock == s.replicas[0].since
    requires s.clock + t.lease.Renew() + l + d - s.replicas[0].held < t.lease.Term()
    ensures Reachable(t, s') && s'.clock == s.clock + t.lease.Renew() + l + d
    ensures s'.history == s.history && s'.strays == s.strays
    ensures s'.replicas == s.replicas[0 := Sleeping(s.replicas[0].held, s'.clock)]
  {
    s' := s;
    ReachableStep(t, s', Advance(s.clock + t.lease.Renew() + l));     s' := Apply(t, s', Advance(s.clock + t.lease.Renew() + l));
    ReachableStep(t, s', Begin(0));                         s' := Apply(t, s', Begin(0));
    ReachableStep(t, s', Advance(s.clock + t.lease.Renew() + l + d)); s' := Apply(t, s', Advance(s.clock + t.lease.Renew() + l + d));
    ReachableStep(t, s', Fail(0));                          s' := Apply(t, s', Fail(0));
  }

  /** Replica 1 takes a lease that has expired, while replica 0 is still leading. */
  lemma TakenOver(t: Timing, s: State) returns (s': State)
    requires Reachable(t, s) && s.clock == t.lease.Term() + SECOND
    requires s.replicas.Keys == {0, 1} && s.replicas[0].Leads() && s.replicas[1] == Waiting(0)
    requires s.history == [Stored(0, Mine(t.lease, 0, 0, None, Some(0)))]
    ensures Reachable(t, s') && LeadTogether(s')
  {
    hide Reachable;
    s' := s;
    ReachableStep(t, s', Begin(1));  s' := Apply(t, s', Begin(1));
    ReachableStep(t, s', Get(1));    s' := Apply(t, s', Get(1));
    ReachableStep(t, s', Choose(1)); s' := Apply(t, s', Choose(1));
    ReachableStep(t, s', Arrive(1)); s' := Apply(t, s', Arrive(1));
    ReachableStep(t, s', Return(1)); s' := Apply(t, s', Return(1));
    ReachableStep(t, s', Enter(1));  s' := Apply(t, s', Enter(1));
    assert s'.replicas[0].Leads() && s'.replicas[1].Leads();
  }

  /** Beyond the bound, replica 0 leads from `r + d` on and two failed renewals as late as
      `l` and `d` keep it leading until replica 1 can take the lease. */
  lemma Together(t: Timing) returns (s: State)
    requires 4 * t.claim + 3 * t.wake + t.ready >= SECOND
    ensures Reachable(t, s) && LeadTogether(s)
  {
    hide Reachable, LeadTogether, Mine;
    var r: nat := if t.ready >= SECOND then SECOND else t.ready;
    var d: nat := if 4 * t.claim >= SECOND - r then (SECOND - r + 3) / 4 else t.claim;
    var l: nat := if 4 * d >= SECOND - r then 0 else (SECOND - r - 4 * d + 2) / 3;
    assert r + 4 * d + 3 * l >= SECOND && d <= t.claim && l <= t.wake && r + 4 * d + 3 * l <= SECOND + 6;
    s := FirstElected(t, d, r);
    s := LateRound(t, s, d, l);
    s := LateRound(t, s, d, l);
    s := StillLeads(t, s, l);
    s := TakenOver(t, s);
  }

  /** Replica 0, asleep or renewing, leads when the lease can be taken from it. */
  lemma StillLeads(t: Timing, s: State, l: nat) returns (s': State)
    requires Reachable(t, s) && l <= t.wake
    requires s.replicas.Keys == {0, 1} && s.replicas[0].Sleeping? && s.replicas[1] == Waiting(0)
    requires s.clock == s.replicas[0].since <= t.lease.Term() + SECOND
    requires s.clock + t.lease.Renew() + l + t.claim >= t.lease.Term() + SECOND
    ensures Reachable(t, s') && s'.clock == t.lease.Term() + SECOND
    ensures s'.history == s.history
    ensures s'.replicas.Keys == {0, 1} && s'.replicas[0].Leads() && s'.replicas[1] == Waiting(0)
  {
    hide Reachable;
    var awake := s.clock + t.lease.Renew() + l;
    var meet := t.lease.Term() + SECOND;
    s' := s;
    if awake < meet {
      ReachableStep(t, s', Advance(awake)); s' := Apply(t, s', Advance(awake));
      ReachableStep(t, s', Begin(0));       s' := Apply(t, s', Begin(0));
    }
    ReachableStep(t, s', Advance(meet)); s' := Apply(t, s', Advance(meet));
  }

  /** Under either lease two replicas never lead together, in any run of any number of
      replicas, exactly when four claims, three wake-ups and the entry of the loop cannot
      add up to a second of lateness. */
  lemma ExclusionExactly(t: Timing)
    ensures (forall s :: Reachable(t, s) ==> !LeadTogether(s)) <==> 4 * t.claim + 3 * t.wake + t.ready < SECOND
  {
    if 4 * t.claim + 3 * t.wake + t.ready < SECOND {
      forall s | Reachable(t, s) ensures !LeadTogether(s) {
        NeverTogether(t, s);
      }
    } else {
      var s := Together(t);
    }
  }

  // ----- what the record says -------------------------------------------------------

  function HolderChanges(history: seq<Stored>): nat {
    if |history| < 2 then 0
    else HolderChanges(history[..|history| - 1]) +
         if history[|history| - 1].spec.holder == history[|history| - 2].spec.holder then 0 else 1
  }

  lemma {:induction false} TransitionsCount(lease: Lease, history: seq<Stored>, clock: int)
    requires lease.Operator? && HistoryOk(lease, history, clock) && |history| > 0
    ensures history[|history| - 1].spec.transitions.GetOr(0) ==
            history[0].spec.transitions.GetOr(0) + HolderChanges(history)
  {
    if |history| > 1 {
      var before := history[..|history| - 1];
      assert HistoryOk(lease, before, clock);
      TransitionsCount(lease, before, clock);
      assert Over(lease, history[|history| - 2].spec, history[|history| - 1].spec, history[|history| - 1].at);
    }
  }

  /** In the operator's record leaseTransitions counts the changes of holder since the
      object was created, and acquireTime moves exactly when the holder does. */
  lemma RecordHistory(t: Timing, s: State)
    requires Reachable(t, s) && s.history != [] && t.lease.Operator?
    ensures var first, last := s.history[0].spec, s.history[|s.history| - 1].spec;
            last.transitions.GetOr(0) == first.transitions.GetOr(0) + HolderChanges(s.history)
    ensures forall k :: 0 < k < |s.history| && s.history[k].spec.holder == s.history[k-1].spec.holder ==>
              s.history[k].spec.acquireTime == s.history[k-1].spec.acquireTime || s.history[k-1].spec.acquireTime.None?
    ensures forall k :: 0 < k < |s.history| && s.history[k].spec.holder != s.history[k-1].spec.holder ==>
              s.history[k].spec.acquireTime == s.history[k].spec.renewTime
  {
    ReachableOk(t, s);
    TransitionsCount(t.lease, s.history, s.clock);
    forall k | 0 < k < |s.history|
      ensures Over(t.lease, s.history[k-1].spec, s.history[k].spec, s.history[k].at)
    {
    }
  }

  // ----- who stops, and who waits how long ------------------------------------------

  /** A record a claim reads has expired exactly when its renewTime is absent or a whole
      second more than its duration old. */
  lemma ExpiredExactly(lease: Lease, spec: LeaseSpec, now: int)
    ensures Expired(lease, spec, now) <==>
              match spec.renewTime {
                case None => true
                case Some(renewed) =>
                  var duration := spec.durationSeconds.GetOr(if lease.Operator? then 15 else 30);
                  if duration >= 0 then now - renewed >= (duration + 1) * 1_000_000
                  else now - renewed > duration * 1_000_000
              }
  {
  }

  /** The steps that stop a replica: it died, or it is the operator's and its work is done,
      its own claim failed before it ever led, it was told that somebody else holds what it
      led, or it went fifteen seconds without a renewal that worked. */
  predicate Stops(t: Timing, s: State, step: Step, id: Id)
    requires id in s.replicas
  {
    var r := s.replicas[id];
    step == Die(id) ||
    (t.lease.Operator? &&
     (step == Finish(id) ||
      (r.Contending? && (step == Fail(id) || (step == Return(id) && r.phase == Answered(Errored)))) ||
      (r.Renewing? && step == Return(id) && r.phase == Answered(Taken)) ||
      (r.Renewing? && s.clock - r.held >= 15 * 1_000_000 &&
       (step == Fail(id) || (step == Return(id) && r.phase == Answered(Errored))))))
  }

  lemma StopsExactly(t: Timing, s: State, step: Step, id: Id)
    requires Enabled(t, s, step) && id in s.replicas && !s.replicas[id].Stopped?
    ensures id in Apply(t, s, step).replicas
    ensures Apply(t, s, step).replicas[id].Stopped? <==> Stops(t, s, step, id)
  {
  }

  /** Where a run from `s` ends, if every step of it was possible. */
  ghost function Run(t: Timing, s: State, steps: seq<Step>): Option<State>
    decreases |steps|
  {
    if steps == [] then Some(s)
    else
      match Run(t, s, steps[..|steps| - 1])
      case None => None
      case Some(last) =>
        if Enabled(t, last, steps[|steps| - 1]) then Some(Apply(t, last, steps[|steps| - 1])) else None
  }

  lemma RunMore(t: Timing, s: State, steps: seq<Step>, step: Step)
    requires Run(t, s, steps).Some? && Enabled(t, Run(t, s, steps).value, step)
    ensures Run(t, s, steps + [step]) == Some(Apply(t, Run(t, s, steps).value, step))
  {
    assert (steps + [step])[..|steps|] == steps;
  }

  /** Who takes part does not change. */
  lemma {:induction false} RunKeeps(t: Timing, s: State, steps: seq<Step>)
    requires Run(t, s, steps).Some?
    ensures Run(t, s, steps).value.replicas.Keys == s.replicas.Keys
    decreases |steps|
  {
    if steps != [] {
      RunKeeps(t, s, steps[..|steps| - 1]);
    }
  }

  /** Over every run: a replica that has stopped was stopped by one of those steps, and has
      been stopped since. */
  lemma {:induction false} StoppedBy(t: Timing, s: State, steps: seq<Step>, id: Id) returns (k: nat)
    requires Run(t, s, steps).Some? && id in s.replicas && !s.replicas[id].Stopped?
    requires id in Run(t, s, steps).value.replicas && Run(t, s, steps).value.replicas[id].Stopped?
    ensures k < |steps| && Run(t, s, steps[..k]).Some?
    ensures id in Run(t, s, steps[..k]).value.replicas && !Run(t, s, steps[..k]).value.replicas[id].Stopped?
    ensures Stops(t, Run(t, s, steps[..k]).value, steps[k], id)
    decreases |steps|
  {
    hide Apply, Enabled, Stops;
    if steps != [] {
      var before := steps[..|steps| - 1];
      var last := Run(t, s, before).value;
      RunKeeps(t, s, before);
      if last.replicas[id].Stopped? {
        k := StoppedBy(t, s, before, id);
        assert before[..k] == steps[..k];
      } else {
        k := |steps| - 1;
        StopsExactly(t, last, steps[k], id);
      }
    }
  }

  /** A replica that learns that somebody else leads waits, five seconds under the operator's
      lease and fifteen under the webhook's, and then may claim; and so does every replica of
      the webhook that has stopped leading or failed to learn. */
  lemma WaitsExactly(t: Timing, s: State, id: Id)
    requires Enabled(t, s, Return(id)) || Enabled(t, s, Fail(id)) || Enabled(t, s, Finish(id))
    ensures Enabled(t, s, Return(id)) && s.replicas[id].Contending? && s.replicas[id].phase == Answered(Taken) ==>
              Apply(t, s, Return(id)).replicas[id] ==
                Waiting(s.clock + (if t.lease.Operator? then 5 else 15) * 1_000_000)
    ensures t.lease.Rotation? ==>
              && (Enabled(t, s, Finish(id)) ==>
                    Apply(t, s, Finish(id)).replicas[id] == Waiting(s.clock + 15 * 1_000_000))
              && (Enabled(t, s, Fail(id)) && s.replicas[id].Contending? ==>
                    Apply(t, s, Fail(id)).replicas[id] == Waiting(s.clock + 15 * 1_000_000))
              && (Enabled(t, s, Return(id)) && s.replicas[id].Contending? && s.replicas[id].phase == Answered(Errored) ==>
                    Apply(t, s, Return(id)).replicas[id] == Waiting(s.clock + 15 * 1_000_000))
              && (Enabled(t, s, Return(id)) && s.replicas[id].Renewing? && s.replicas[id].phase == Answered(Taken) ==>
                    Apply(t, s, Return(id)).replicas[id] == Waiting(s.clock + 15 * 1_000_000))
  {
  }

  /** Any replica may die at any time, and one that leads may be done at any time. A replica
      that comes back may claim at once, and one that won a claim leads from then on
      and counts its term from the moment it enters its loop. */
  lemma ComesBack(t: Timing, s: State, id: Id)
    requires id in s.replicas
    ensures s.replicas[id].Stopped? ==>
              Enabled(t, Apply(t, s, Restart(id)), Begin(id)) &&
              Apply(t, s, Restart(id)) == s.(replicas := s.replicas[id := Waiting(s.clock)])
    ensures Enabled(t, s, Return(id)) && s.replicas[id].phase == Answered(Renewed) ==>
              Apply(t, s, Return(id)).replicas[id] ==
                if s.replicas[id].Contending? then Elected(s.clock) else Sleeping(s.clock, s.clock)
    ensures Enabled(t, s, Die(id)) && (s.replicas[id].Leads() ==> Enabled(t, s, Finish(id)))
    ensures Enabled(t, s, Enter(id)) ==> Apply(t, s, Enter(id)).replicas[id] == Sleeping(s.clock, s.clock)
  {
  }

  ghost predicate Prompt(t: Timing, s: State) {
    forall id :: id in s.replicas && s.replicas[id].Waiting? ==>
      s.replicas[id].notBefore <= s.clock + (if t.lease.Operator? then 5 else 15) * 1_000_000
  }

  lemma {:induction false} PromptIn(t: Timing, n: nat, s: State)
    requires ReachableIn(t, n, s)
    ensures Prompt(t, s)
  {
    if n > 0 {
      var p, step :| ReachableIn(t, n - 1, p) && Enabled(t, p, step) && s == Apply(t, p, step);
      PromptIn(t, n - 1, p);
      hide ReachableIn;
    }
  }

  /** In every reachable state a waiting replica may claim within that time, and a leader
      asleep renews five (the webhook's ten) seconds after it fell asleep, or `wake` later. */
  lemma ClaimsWithin(t: Timing, s: State, id: Id)
    requires Reachable(t, s) && id in s.replicas
    ensures s.replicas[id].Waiting? ==>
              && s.replicas[id].notBefore <= s.clock + (if t.lease.Operator? then 5 else 15) * 1_000_000
              && (Enabled(t, s, Begin(id)) <==> s.replicas[id].notBefore <= s.clock)
    ensures s.replicas[id].Sleeping? ==>
              var awake := s.replicas[id].since + (if t.lease.Operator? then 5 else 10) * 1_000_000;
              && (Enabled(t, s, Begin(id)) <==> awake <= s.clock)
              && s.clock <= awake + t.wake
  {
    var n: nat :| ReachableIn(t, n, s);
    PromptIn(t, n, s);
    ReachableInOk(t, n, s);
    assert ReplicaOk(t, s, id, s.replicas[id]);
  }

  /** What a replica sent before it gave up, finished or died may still arrive, and is then
      stored exactly when nothing has been since it was read. */
  lemma LateWritesArrive(t: Timing, s: State, id: Id)
    requires id in s.replicas && s.replicas[id].Claiming() && s.replicas[id].phase.Sent?
    ensures forall step :: step in [Fail(id), Finish(id), Die(id)] && Enabled(t, s, step) ==>
              Enabled(t, Apply(t, s, step), Straggle(s.replicas[id].phase.request))
  {
  }

  lemma StraggleLands(t: Timing, s: State, request: Request)
    requires Enabled(t, s, Straggle(request))
    ensures var after := Apply(t, s, Straggle(request));
            && request !in after.strays && after.clock == s.clock && after.replicas == s.replicas
            && after.history ==
                 if request.version == |s.history| then s.history + [Stored(s.clock, request.spec)] else s.history
  {
  }

  // ----- failover -------------------------------------------------------------------

  /** Nobody holds the lease: there is no record, or the last one has expired. */
  predicate Free(lease: Lease, history: seq<Stored>, now: int) {
    history == [] || Expired(lease, history[|history| - 1].spec, now)
  }

  /** Neither leading nor claiming. */
  predicate Quiet(r: Replica) {
    r.Waiting? || r.Stopped?
  }

  /** Every other replica that is doing anything dies. */
  lemma OthersDie(t: Timing, s: State, id: Id) returns (steps: seq<Step>, s': State)
    requires id in s.replicas && Quiet(s.replicas[id])
    ensures Run(t, s, steps) == Some(s')
    ensures forall k :: 0 <= k < |steps| ==> steps[k].Die? && steps[k].id != id
    ensures s'.clock == s.clock && s'.history == s.history && s'.replicas.Keys == s.replicas.Keys
    ensures s'.replicas[id] == s.replicas[id] && forall j :: j in s'.replicas ==> Quiet(s'.replicas[j])
  {
    steps, s' := [], s;
    var left := s.replicas.Keys - {id};
    while left != {}
      invariant Run(t, s, steps) == Some(s')
      invariant forall k :: 0 <= k < |steps| ==> steps[k].Die? && steps[k].id != id
      invariant s'.clock == s.clock && s'.history == s.history && s'.replicas.Keys == s.replicas.Keys
      invariant s'.replicas[id] == s.replicas[id]
      invariant left <= s.replicas.Keys - {id}
      invariant forall j :: j in s'.replicas && j !in left ==> Quiet(s'.replicas[j])
      decreases left
    {
      var j :| j in left;
      left := left - {j};
      RunMore(t, s, steps, Die(j));
      steps, s' := steps + [Die(j)], Apply(t, s', Die(j));
    }
  }

  /** The five steps of one claim that finds the lease free. */
  lemma ClaimsFree(t: Timing, s: State, id: Id) returns (s': State)
    requires id in s.replicas && s.replicas[id].Waiting? && s.replicas[id].notBefore <= s.clock
    requires Free(t.lease, s.history, s.clock)
    ensures Run(t, s, [Begin(id), Get(id), Choose(id), Arrive(id)]) == Some(s')
    ensures s'.clock == s.clock && s'.replicas == s.replicas[id := Contending(s.clock, Answered(Renewed))]
    ensures HolderNow(s') == Some(id)
  {
    var s1 := Apply(t, s, Begin(id));
    var s2 := Apply(t, s1, Get(id));
    var s3 := Apply(t, s2, Choose(id));
    s' := Apply(t, s3, Arrive(id));
    FourSteps(t, s, Begin(id), Get(id), Choose(id), Arrive(id));
  }

  lemma FourSteps(t: Timing, s: State, a: Step, b: Step, c: Step, d: Step)
    requires Enabled(t, s, a) && Enabled(t, Apply(t, s, a), b) && Enabled(t, Apply(t, Apply(t, s, a), b), c)
    requires Enabled(t, Apply(t, Apply(t, Apply(t, s, a), b), c), d)
    ensures Run(t, s, [a, b, c, d]) == Some(Apply(t, Apply(t, Apply(t, Apply(t, s, a), b), c), d))
  {
    hide Apply, Enabled;
    RunMore(t, s, [], a);
    assert [] + [a] == [a];
    RunMore(t, s, [a], b);
    assert [a] + [b] == [a, b];
    RunMore(t, s, [a, b], c);
    assert [a, b] + [c] == [a, b, c];
    RunMore(t, s, [a, b, c], d);
    assert [a, b, c] + [d] == [a, b, c, d];
  }

  /** Whatever state has been reached, a waiting replica whose wait is over takes a lease that
      is free by its own steps alone, and leads. */
  lemma TakesFree(t: Timing, s: State, id: Id) returns (s': State)
    requires id in s.replicas && s.replicas[id].Waiting? && s.replicas[id].notBefore <= s.clock
    requires Free(t.lease, s.history, s.clock)
    ensures Run(t, s, [Begin(id), Get(id), Choose(id), Arrive(id), Return(id)]) == Some(s')
    ensures s'.clock == s.clock && id in s'.replicas && s'.replicas[id].Leads() && HolderNow(s') == Some(id)
  {
    var own := [Begin(id), Get(id), Choose(id), Arrive(id)];
    var s4 := ClaimsFree(t, s, id);
    RunMore(t, s, own, Return(id));
    s' := Apply(t, s4, Return(id));
    assert own + [Return(id)] == [Begin(id), Get(id), Choose(id), Arrive(id), Return(id)];
  }

  lemma {:induction false} RunJoin(t: Timing, s: State, a: seq<Step>, b: seq<Step>)
    requires Run(t, s, a).Some? && Run(t, Run(t, s, a).value, b).Some?
    ensures Run(t, s, a + b) == Run(t, Run(t, s, a).value, b)
    decreases |b|
  {
    hide Apply, Enabled;
    if b == [] {
      assert a + b == a;
    } else {
      RunJoin(t, s, a, b[..|b| - 1]);
      assert (a + b)[..|a + b| - 1] == a + b[..|b| - 1];
    }
  }

  /** A step of this replica's own, or time going by, or somebody else's death. */
  predicate OwnOrDeath(step: Step, id: Id) {
    step.Advance? || (step.Die? && step.id != id) ||
    step in [Begin(id), Get(id), Choose(id), Arrive(id), Return(id)]
  }

  /** Failover: from every reachable state in which the lease is free, or will be when the
      wait of a waiting replica is over, that replica leads five seconds (the webhook's
      fifteen) and one claim later at most, though everybody else dies, and takes no step but
      its own; `took` is as long as the claim takes. */
  lemma Failover(t: Timing, s: State, id: Id, took: nat) returns (steps: seq<Step>, s': State)
    requires Reachable(t, s) && id in s.replicas && s.replicas[id].Waiting? && took <= t.claim
    requires Free(t.lease, s.history, if s.clock < s.replicas[id].notBefore then s.replicas[id].notBefore else s.clock)
    ensures Run(t, s, steps) == Some(s') && forall k :: 0 <= k < |steps| ==> OwnOrDeath(steps[k], id)
    ensures id in s'.replicas && s'.replicas[id].Leads() && HolderNow(s') == Some(id)
    ensures s'.clock <= s.clock + (if t.lease.Operator? then 5 else 15) * 1_000_000 + took
  {
    hide Reachable, Enabled, Apply, Run, Expired;
    ClaimsWithin(t, s, id);
    var deaths, alone := OthersDie(t, s, id);
    var from := if s.clock < s.replicas[id].notBefore then s.replicas[id].notBefore else s.clock;
    var waited := alone.(clock := from);
    TimePasses(t, alone, from);
    RunMore(t, s, deaths, Advance(from));
    var own := [Begin(id), Get(id), Choose(id), Arrive(id)];
    var won := ClaimsFree(t, waited, id);
    RunJoin(t, s, deaths + [Advance(from)], own);
    var claimed := deaths + [Advance(from)] + own;
    s' := AnsweredLate(t, s, claimed, won, id, took);
    steps := claimed + [Advance(from + took)] + [Return(id)];
  }

  lemma TimePasses(t: Timing, s: State, to: int)
    requires s.clock <= to && forall id :: id in s.replicas ==> Quiet(s.replicas[id])
    ensures Enabled(t, s, Advance(to)) && Apply(t, s, Advance(to)) == s.(clock := to)
  {
  }

  /** The answer of a claim that won, `took` after it began. */
  lemma AnsweredLate(t: Timing, first: State, steps: seq<Step>, s: State, id: Id, took: nat) returns (s': State)
    requires Run(t, first, steps) == Some(s) && id in s.replicas && took <= t.claim
    requires s.replicas[id] == Contending(s.clock, Answered(Renewed))
    requires forall j :: j in s.replicas && j != id ==> Quiet(s.replicas[j])
    ensures Run(t, first, steps + [Advance(s.clock + took)] + [Return(id)]) == Some(s')
    ensures id in s'.replicas && s'.replicas[id] == Elected(s.clock + took)
    ensures s'.clock == s.clock + took && s'.history == s.history
  {
    RunMore(t, first, steps, Advance(s.clock + took));
    var late := Apply(t, s, Advance(s.clock + took));
    RunMore(t, first, steps + [Advance(s.clock + took)], Return(id));
    s' := Apply(t, late, Return(id));
  }

  // ----- the same code run by one replica -------------------------------------------

  /** The Lease object at the API server. */
  class LeaseObject {
    var history: seq<Stored>

    constructor ()
      ensures history == []
    {
      history := [];
    }

    /** A create or replace: refused with a 409 when the version has moved. */
    method Write(now: int, request: Request) returns (accepted: bool)
      modifies this
      ensures accepted <==> request.version == |old(history)|
      ensures history == Land(now, old(history), request)
    {
      accepted := request.version == |history|;
      if accepted {
        history := history + [Stored(now, request.spec)];
      }
    }

    /** One claim from beginning to end, other replicas' accepted writes `meanwhile`
        landing between its read and its write. It holds the lease exactly when the record
        it read lets it and nobody else wrote; otherwise it changes nothing. */
    method Claim(lease: Lease, me: Id, now: int, later: int, arrives: int, meanwhile: seq<Stored>)
        returns (answer: Answer)
      modifies this
      ensures var mine := Decide(lease, Current(old(history), |old(history)|), me, now, later);
              && (answer == Renewed <==> mine.Some? && meanwhile == [])
              && (answer == Errored <==> mine.Some? && meanwhile != [] && lease.Rotation? && old(history) != [])
              && history == old(history) +
                   if answer == Renewed then [Stored(arrives, mine.value)] else meanwhile
    {
      var version := |history|;
      var current := Current(history, version);
      history := history + meanwhile;
      var written := Decide(lease, current, me, now, later);
      if written.None? {
        return Taken;
      }
      var accepted := Write(arrives, Request(version, written.value));
      answer := if accepted then Renewed else Conflict(lease, version);
    }
  }

  /** One turn of the renewal loop: how late it woke, how long the claim took, its answer. */
  datatype Round = Round(late: nat, took: nat, answer: Answer)

  predicate Within(t: Timing, rounds: seq<Round>) {
    forall k :: 0 <= k < |rounds| ==> rounds[k].late <= t.wake && rounds[k].took <= t.claim
  }

  /** Where a leader asleep since `clock` is after `rounds`, and when it got there. */
  function AfterRounds(lease: Lease, held: int, clock: int, rounds: seq<Round>): (Replica, int)
    decreases |rounds|
  {
    if rounds == [] then (Sleeping(held, clock), clock)
    else
      var now := clock + lease.Renew() + rounds[0].late + rounds[0].took;
      match rounds[0].answer
      case Renewed => AfterRounds(lease, now, now, rounds[1..])
      case Taken => (Ended(lease, now), now)
      case Errored =>
        if AfterFailure(lease, held, now).Leads() then AfterRounds(lease, held, now, rounds[1..])
        else (Ended(lease, now), now)
  }

  /** The renewing loop of either program: `held` moves on a renewal that worked, and the
      term running out without one is what ends it. */
  method Renewals(lease: Lease, entered: int, rounds: seq<Round>) returns (leads: bool, held: int, clock: int)
    ensures leads <==> AfterRounds(lease, entered, entered, rounds).0.Leads()
    ensures leads ==> AfterRounds(lease, entered, entered, rounds).0 == Sleeping(held, clock)
    ensures clock == AfterRounds(lease, entered, entered, rounds).1
  {
    held, clock := entered, entered;
    for k := 0 to |rounds|
      invariant AfterRounds(lease, held, clock, rounds[k..]) == AfterRounds(lease, entered, entered, rounds)
    {
      assert rounds[k..][0] == rounds[k] && rounds[k..][1..] == rounds[k+1..];
      clock := clock + lease.Renew() + rounds[k].late + rounds[k].took;
      match rounds[k].answer {
        case Renewed => held := clock;
        case Taken => return false, held, clock;
        case Errored =>
          if clock - held >= lease.Term() {
            return false, held, clock;
          }
      }
    }
    leads := true;
  }

  /** A leader that goes on was never told that another holds the lease; and one whose
      renewals all succeed goes on, counting from the last. */
  lemma {:induction false} GoesOnLeading(lease: Lease, held: int, clock: int, rounds: seq<Round>)
    ensures AfterRounds(lease, held, clock, rounds).0.Leads() ==>
              forall k :: 0 <= k < |rounds| ==> rounds[k].answer != Taken
    ensures rounds != [] && (forall k :: 0 <= k < |rounds| ==> rounds[k].answer == Renewed) ==>
              var (last, at) := AfterRounds(lease, held, clock, rounds);
              last == Sleeping(at, at)
    decreases |rounds|
  {
    if rounds != [] {
      var now := clock + lease.Renew() + rounds[0].late + rounds[0].took;
      GoesOnLeading(lease, if rounds[0].answer == Renewed then now else held, now, rounds[1..]);
      assert forall k :: 0 < k < |rounds| ==> rounds[k] == rounds[1..][k - 1];
    }
  }

  /** A leader none of whose renewals succeeds stops leading: not before the term has gone
      by, and within three rounds. */
  lemma FailingLeaderStops(t: Timing, entered: int, rounds: seq<Round>)
    requires Within(t, rounds) && |rounds| >= 3
    requires forall k :: 0 <= k < |rounds| ==> rounds[k].answer.Errored?
    ensures var (last, at) := AfterRounds(t.lease, entered, entered, rounds);
            && !last.Leads()
            && entered + t.lease.Term() <= at <= entered + t.lease.Term() + 3 * (t.claim + t.wake)
  {
    var now := entered + t.lease.Renew() + rounds[0].late + rounds[0].took;
    assert rounds[1..][0] == rounds[1] && rounds[1..][1..][0] == rounds[2];
    if now - entered < t.lease.Term() {
      var after := now + t.lease.Renew() + rounds[1].late + rounds[1].took;
      assert AfterRounds(t.lease, entered, entered, rounds) == AfterRounds(t.lease, entered, now, rounds[1..]);
      if after - entered < t.lease.Term() {
        assert AfterRounds(t.lease, entered, now, rounds[1..]) == AfterRounds(t.lease, entered, after, rounds[1..][1..]);
      }
    }
  }
}
