/** The webhook as its own certificate authority: a Secret and a caBundle rotated by one
    replica while the others catch up. A certificate is its generation number; a leaf
    verifies against the CA of its own generation. */
module SelfRotation {
  import opened Wrappers

  type Gen = nat
  type Replica = nat

  // ----- the rotation as steps ------------------------------------------------------

  /** How far a call of `rotate` has got: minted and read the Secret, or written it too. */
  datatype Rotation = Idle | Minted(gen: Gen, previous: Option<Gen>) | Stored(gen: Gen, previous: Option<Gen>)

  /** One of its two writes, on its way to the API server; neither says which version it
      expects to find there. */
  datatype Write = SecretWrite(gen: Gen) | BundleWrite(bundle: seq<Gen>)

  /** `serving` is the pair each replica last loaded; `behind` are the replicas that have
      not loaded the Secret since it was last written; `late` are writes whose rotation was
      given up and which may still arrive. */
  datatype State = State(
    secret: Option<Gen>,
    bundle: seq<Gen>,
    serving: map<Replica, Option<Gen>>,
    behind: set<Replica>,
    next: Gen,
    rotation: Rotation,
    late: set<Write>)

  datatype Step = Begin | WriteSecret | PatchBundle | Sync(replica: Replica) | Cancel(sent: bool) | Land(write: Write)

  predicate Enabled(s: State, step: Step) {
    match step
    case Begin => s.rotation.Idle? && s.behind == {}
    case WriteSecret => s.rotation.Minted?
    case PatchBundle => s.rotation.Stored?
    case Sync(r) => r in s.serving && s.secret.Some?
    case Cancel(_) => !s.rotation.Idle?
    case Land(write) => write in s.late
  }

  /** The new CA and the first certificate of the one the Secret held. */
  function Bundle(gen: Gen, previous: Option<Gen>): seq<Gen> {
    [gen] + if previous.Some? then [previous.value] else []
  }

  function Apply(s: State, step: Step): State
    requires Enabled(s, step)
  {
    match step
    case Begin => s.(rotation := Minted(s.next, s.secret), next := s.next + 1)
    case WriteSecret =>
      s.(secret := Some(s.rotation.gen), behind := s.serving.Keys,
         rotation := Stored(s.rotation.gen, s.rotation.previous))
    case PatchBundle => s.(bundle := Bundle(s.rotation.gen, s.rotation.previous), rotation := Idle)
    case Sync(r) => s.(serving := s.serving[r := s.secret], behind := s.behind - {r})
    case Cancel(sent) => s.(rotation := Idle, late := if sent then s.late + {InFlight(s.rotation)} else s.late)
    case Land(write) =>
      var left := s.(late := s.late - {write});
      match write
      case SecretWrite(gen) => left.(secret := Some(gen), behind := s.serving.Keys)
      case BundleWrite(bundle) => left.(bundle := bundle)
  }

  /** The write a rotation makes next. */
  function InFlight(rotation: Rotation): Write
    requires !rotation.Idle?
  {
    if rotation.Minted? then SecretWrite(rotation.gen) else BundleWrite(Bundle(rotation.gen, rotation.previous))
  }

  predicate Uninterrupted(steps: seq<Step>) {
    forall k :: 0 <= k < |steps| ==> !steps[k].Cancel?
  }

  predicate Verifies(s: State, r: Replica)
    requires r in s.serving
  {
    s.serving[r].None? || s.serving[r].value in s.bundle
  }

  /** A fresh install: no Secret, an empty bundle, nobody serving. */
  ghost predicate Init(s: State) {
    s.secret.None? && s.bundle == [] && s.behind == {} && s.next == 0 && s.rotation.Idle? && s.late == {} &&
    forall r :: r in s.serving ==> s.serving[r].None?
  }

  /** Where a run ends, if every step of it was possible. */
  function Run(first: State, steps: seq<Step>): Option<State> {
    if steps == [] then Some(first)
    else
      match Run(first, steps[..|steps| - 1])
      case None => None
      case Some(s) => if Enabled(s, steps[|steps| - 1]) then Some(Apply(s, steps[|steps| - 1])) else None
  }

  ghost predicate Inv(s: State) {
    && s.behind <= s.serving.Keys
    && s.late == {}
    && |s.bundle| <= 2
    && (s.secret.Some? ==> s.secret.value < s.next)
    && (forall g :: g in s.bundle ==> g < s.next)
    && (forall r :: r in s.serving && r !in s.behind ==> s.serving[r] == s.secret)
    && match s.rotation
       case Idle =>
         && (s.secret.Some? ==> s.secret.value in s.bundle)
         && (s.secret.None? ==> s.bundle == [])
         && (forall r :: r in s.serving ==> Verifies(s, r))
       case Minted(gen, previous) =>
         && previous == s.secret && gen < s.next && gen !in s.bundle && s.behind == {}
         && (s.secret.Some? ==> s.secret.value in s.bundle)
         && (forall r :: r in s.serving ==> Verifies(s, r))
       case Stored(gen, previous) =>
         && s.secret == Some(gen) && gen !in s.bundle
         && (previous.Some? ==> previous.value in s.bundle)
         && (forall r :: r in s.serving ==> s.serving[r] == Some(gen) || s.serving[r] == previous)
  }

  lemma StepOk(s: State, step: Step)
    requires Inv(s) && Enabled(s, step) && !step.Cancel?
    ensures Inv(Apply(s, step))
  {
  }

  lemma {:induction false} RunOk(first: State, steps: seq<Step>)
    requires Init(first) && Run(first, steps).Some? && Uninterrupted(steps)
    ensures Inv(Run(first, steps).value)
  {
    if steps != [] {
      var before := steps[..|steps| - 1];
      RunOk(first, before);
      StepOk(Run(first, before).value, steps[|steps| - 1]);
    }
  }

  /** Over any number of uninterrupted rotations with every replica catching up between
      them: outside the two writes every replica's leaf verifies, between them exactly the
      replicas that have already loaded the new pair do not, and the bundle is never more
      than the current CA and the one before it. */
  lemma Window(first: State, steps: seq<Step>, s: State)
    requires Init(first) && Run(first, steps) == Some(s) && Uninterrupted(steps)
    ensures |s.bundle| <= 2
    ensures !s.rotation.Stored? ==>
              (forall r :: r in s.serving ==> Verifies(s, r)) && (s.secret.Some? ==> s.secret.value in s.bundle)
    ensures s.rotation.Stored? ==>
              forall r :: r in s.serving ==> (Verifies(s, r) <==> s.serving[r] != Some(s.rotation.gen))
    ensures s.rotation.Stored? ==>
              var patched := Apply(s, PatchBundle);
              patched.bundle == Bundle(s.rotation.gen, s.rotation.previous) &&
              forall r :: r in patched.serving ==> Verifies(patched, r)
  {
    RunOk(first, steps);
  }

  /** Giving a rotation up leaves the pair in the Secret trusted exactly when the Secret had
      not been written yet; after that, every replica that catches up stops verifying. */
  lemma CancelledHalfway(first: State, steps: seq<Step>, s: State)
    requires Init(first) && Run(first, steps) == Some(s) && Uninterrupted(steps) && !s.rotation.Idle? && s.serving.Keys != {}
    ensures var left := Apply(s, Cancel(false));
            (forall r :: r in left.serving && left.secret.Some? ==> Verifies(Apply(left, Sync(r)), r)) <==>
            s.rotation.Minted?
  {
    RunOk(first, steps);
    var left := Apply(s, Cancel(false));
    var r :| r in s.serving;
    if s.rotation.Stored? {
      assert !Verifies(Apply(left, Sync(r)), r);
    }
  }

  /** Replicas that catch up with the Secret, if there is one, one after another. */
  function Synced(s: State, replicas: seq<Replica>): State
    requires forall k :: 0 <= k < |replicas| ==> replicas[k] in s.serving
    ensures Synced(s, replicas) == s.(serving := Synced(s, replicas).serving, behind := Synced(s, replicas).behind)
    ensures Synced(s, replicas).serving.Keys == s.serving.Keys
    ensures forall r :: r in s.serving ==>
              Synced(s, replicas).serving[r] ==
                if r in replicas && s.secret.Some? then s.secret else s.serving[r]
    decreases |replicas|
  {
    if replicas == [] || s.secret.None? then s
    else Apply(Synced(s, replicas[..|replicas| - 1]), Sync(replicas[|replicas| - 1]))
  }

  /** The rotation after one given up halfway: the replicas that have caught up with the pair
      that was left, before the cancel or since, verify again, and those that never left the
      pair before it do not. */
  lemma RotatedAfterCancel(first: State, steps: seq<Step>, s: State, replicas: seq<Replica>)
    requires Init(first) && Run(first, steps) == Some(s) && Uninterrupted(steps) && s.rotation.Stored?
    requires forall k :: 0 <= k < |replicas| ==> replicas[k] in s.serving
    ensures var left := Synced(Apply(s, Cancel(false)), replicas);
            var again := left.(rotation := Minted(left.next, left.secret), next := left.next + 1);
            var healed := Apply(Apply(again, WriteSecret), PatchBundle);
            forall r :: r in s.serving && s.serving[r].Some? ==>
              (Verifies(healed, r) <==> s.serving[r] == Some(s.rotation.gen) || r in replicas)
  {
    RunOk(first, steps);
  }

  // ----- a write that arrives late --------------------------------------------------

  /** Every replica has caught up. */
  function CaughtUp(s: State): State {
    s.(serving := map r | r in s.serving :: s.secret, behind := {})
  }

  lemma {:induction false} CaughtUpBySyncs(s: State, replicas: seq<Replica>)
    requires s.secret.Some? && s.behind <= s.serving.Keys
    requires forall r :: r in s.serving <==> r in replicas
    ensures Synced(s, replicas) == CaughtUp(s)
  {
    SyncedBehind(s, replicas);
    hide Synced;
    assert Synced(s, replicas).serving == CaughtUp(s).serving && Synced(s, replicas).behind == {};
  }

  lemma {:induction false} SyncedBehind(s: State, replicas: seq<Replica>)
    requires s.secret.Some? && forall k :: 0 <= k < |replicas| ==> replicas[k] in s.serving
    ensures forall r :: r in Synced(s, replicas).behind <==> r in s.behind && r !in replicas
    decreases |replicas|
  {
    if replicas != [] {
      SyncedBehind(s, replicas[..|replicas| - 1]);
    }
  }

  /** So many whole rotations, the replicas catching up before and after each. */
  function Rotations(s: State, n: nat): (t: State)
    requires s.rotation.Idle?
    ensures t.rotation.Idle? && t.behind == {} && t.late == s.late && t.serving.Keys == s.serving.Keys
  {
    if n == 0 then CaughtUp(s)
    else CaughtUp(Apply(Apply(Apply(Rotations(s, n - 1), Begin), WriteSecret), PatchBundle))
  }

  lemma {:induction false} RotationsLeave(s: State, n: nat)
    requires s.rotation.Idle?
    ensures var t := Rotations(s, n);
            && s.next + n == t.next
            && (n == 0 ==> t.secret == s.secret && t.bundle == s.bundle)
            && (n > 0 ==> t.secret == Some(t.next - 1) && |t.bundle| > 0 && t.bundle[0] == t.next - 1)
            && (n > 0 ==> forall g :: g in t.bundle ==> g >= s.next || Some(g) == s.secret)
  {
    if n > 0 {
      RotationsLeave(s, n - 1);
    }
  }

  /** When a late write lands: between rotations, or in the next one, before its write of
      the Secret or before its write of the caBundle. */
  datatype Moment = Between | BeforeSecret | BeforeBundle

  /** The state once it has landed and the rotation around it, if there is one, is done. */
  function Landed(s: State, write: Write, moment: Moment): (t: State)
    requires Enabled(s, Begin) && write in s.late
    ensures t.rotation.Idle? && t.serving.Keys == s.serving.Keys
  {
    match moment
    case Between => Apply(s, Land(write))
    case BeforeSecret => Apply(Apply(Apply(Apply(s, Begin), Land(write)), WriteSecret), PatchBundle)
    case BeforeBundle => Apply(Apply(Apply(Apply(s, Begin), WriteSecret), Land(write)), PatchBundle)
  }

  predicate AllVerify(s: State) {
    forall r :: r in s.serving ==> Verifies(s, r)
  }

  /** Everybody who has caught up verifies exactly when the Secret's CA is in the bundle. */
  lemma CaughtUpVerify(s: State)
    requires s.secret.Some? && s.serving.Keys != {}
    ensures AllVerify(CaughtUp(s)) <==> s.secret.value in s.bundle
  {
    var r :| r in s.serving.Keys;
    assert r in CaughtUp(s).serving && CaughtUp(s).serving[r] == s.secret;
  }

  /** The same by what the write holds: a Secret of a CA that is not trusted, or a bundle. */
  lemma LandedExactly(s: State, write: Write, moment: Moment)
    requires Enabled(s, Begin) && write in s.late && s.serving.Keys != {}
    requires write.SecretWrite? ==> write.gen < s.next && write.gen !in s.bundle && s.secret != Some(write.gen)
    requires write.BundleWrite? ==> s.secret.Some?
    ensures AllVerify(CaughtUp(Landed(s, write, moment))) <==>
              match moment {
                case Between => write.BundleWrite? && s.secret.value in write.bundle
                case BeforeSecret => true
                case BeforeBundle => write.BundleWrite?
              }
  {
    hide CaughtUp, AllVerify;
    CaughtUpVerify(Landed(s, write, moment));
  }

  /** What the write of a rotation given up meets after `n` whole ones. */
  lemma GivenUp(s: State, n: nat)
    requires Inv(s) && !s.rotation.Idle?
    ensures var after, write := Rotations(Apply(s, Cancel(true)), n), InFlight(s.rotation);
            && Enabled(after, Begin) && write in after.late
            && (write.SecretWrite? ==>
                  write.gen < after.next && write.gen !in after.bundle && after.secret != Some(write.gen))
            && (write.BundleWrite? ==> after.secret.Some? && (after.secret.value in write.bundle <==> n == 0))
  {
    RotationsLeave(Apply(s, Cancel(true)), n);
    hide Rotations, Verifies;
  }

  /** A write whose rotation was given up and which arrives after `n` whole rotations, or in
      the one after them: the replicas that then catch up verify exactly when it lands in a
      rotation that has still to overwrite it, or is the caBundle and none has begun since,
      and so finishes what was given up. */
  lemma LateWriteExactly(first: State, steps: seq<Step>, s: State, n: nat, moment: Moment)
    requires Init(first) && Run(first, steps) == Some(s) && Uninterrupted(steps)
    requires !s.rotation.Idle? && s.serving.Keys != {}
    ensures var after := Rotations(Apply(s, Cancel(true)), n);
            && Enabled(after, Begin) && Enabled(after, Land(InFlight(s.rotation)))
            && (AllVerify(CaughtUp(Landed(after, InFlight(s.rotation), moment))) <==>
                match moment {
                  case Between => s.rotation.Stored? && n == 0
                  case BeforeSecret => true
                  case BeforeBundle => s.rotation.Stored?
                })
  {
    hide Rotations, CaughtUp, AllVerify, Landed, Verifies, Init;
    RunOk(first, steps);
    hide Run, Inv;
    GivenUp(s, n);
    LandedExactly(Rotations(Apply(s, Cancel(true)), n), InFlight(s.rotation), moment);
  }

  /** Whatever state a rotation leaves, the next whole one heals it. */
  lemma NextRotationHeals(s: State, n: nat)
    requires s.rotation.Idle? && n > 0
    ensures AllVerify(Rotations(s, n))
  {
    RotationsLeave(s, n);
    var before := Apply(Apply(Apply(Rotations(s, n - 1), Begin), WriteSecret), PatchBundle);
    assert Rotations(s, n) == CaughtUp(before);
  }

  // ----- the same code run once -----------------------------------------------------

  /** What a call of `rotate` leaves of the Secret and the caBundle after so many writes. */
  function Written(secret: Option<Gen>, bundle: seq<Gen>, gen: Gen, reached: nat): (Option<Gen>, seq<Gen>) {
    (if reached >= 1 then Some(gen) else secret, if reached >= 2 then Bundle(gen, secret) else bundle)
  }

  /** The steps of one call, given up after so many writes. */
  function CallSteps(reached: nat): seq<Step> {
    if reached == 0 then [Begin, Cancel(false)]
    else if reached == 1 then [Begin, WriteSecret, Cancel(false)]
    else [Begin, WriteSecret, PatchBundle]
  }

  /** One call is a run of the protocol. */
  lemma CallIsRun(s: State, reached: nat)
    requires Enabled(s, Begin)
    ensures var after := Run(s, CallSteps(reached));
            after.Some? && after.value.rotation.Idle? &&
            (after.value.secret, after.value.bundle) == Written(s.secret, s.bundle, s.next, reached)
  {
    assert [Begin][..0] == [] && [Begin, Cancel(false)][..1] == [Begin] && [Begin, WriteSecret][..1] == [Begin];
    assert [Begin, WriteSecret, Cancel(false)][..2] == [Begin, WriteSecret];
    assert [Begin, WriteSecret, PatchBundle][..2] == [Begin, WriteSecret];
    assert Run(s, []) == Some(s);
    assert Run(s, [Begin]) == Some(Apply(s, Begin));
    assert Run(s, [Begin, WriteSecret]) == Some(Apply(Apply(s, Begin), WriteSecret));
  }

  /** The Secret's CA and the webhook configuration's caBundle. */
  class Cluster {
    var secret: Option<Gen>
    var bundle: seq<Gen>

    constructor ()
      ensures secret == None && bundle == []
    {
      secret, bundle := None, [];
    }

    /** `rotate`, given up after `reached` of its two writes. */
    method Rotate(gen: Gen, reached: nat) returns (rotated: bool)
      modifies this
      ensures rotated <==> reached >= 2
      ensures (secret, bundle) == Written(old(secret), old(bundle), gen, reached)
    {
      var previous := secret;
      if reached == 0 {
        return false;
      }
      secret := Some(gen);
      if reached == 1 {
        return false;
      }
      bundle := [gen];
      if previous.Some? {
        bundle := bundle + [previous.value];
      }
      assert bundle == Bundle(gen, previous);
      rotated := true;
    }

    /** One turn of the loop: only the leader rotates, and only when the pair is due. */
    method Attend(leads: bool, remaining: Option<real>, validity: real, jitter: real, gen: Gen, reached: nat)
        returns (rotated: bool)
      modifies this
      ensures rotated <==> leads && Due(remaining, validity, jitter) && reached >= 2
      ensures (secret, bundle) ==
                if leads && Due(remaining, validity, jitter) then Written(old(secret), old(bundle), gen, reached)
                else (old(secret), old(bundle))
    {
      if !leads {
        return false;
      }
      if remaining.Some? {
        var threshold := validity / 3.0 * jitter;
        if remaining.value > threshold {
          return false;
        }
      }
      rotated := Rotate(gen, reached);
    }
  }

  // ----- the schedule ---------------------------------------------------------------

  /** Seconds a minted certificate's life is moved back by. */
  const SKEW: real := 300.0

  /** What is left of the pair by the Secret's annotation; `None` once that has passed. */
  function Remaining(notAfter: real, now: real): Option<real> {
    if notAfter - now >= 0.0 then Some(notAfter - now) else None
  }

  predicate Due(remaining: Option<real>, validity: real, jitter: real) {
    remaining.None? || remaining.value <= validity / 3.0 * jitter
  }

  datatype Poll = Poll(at: real, jitter: real)

  /** Polls in order, at most `gap` apart, with the jitter the code draws. */
  ghost predicate Polled(polls: seq<Poll>, gap: real) {
    && (forall k :: 0 <= k < |polls| ==> 0.9 <= polls[k].jitter < 1.1)
    && (forall k :: 0 < k < |polls| ==> polls[k-1].at <= polls[k].at <= polls[k-1].at + gap)
  }

  /** The first poll that finds the pair due. */
  ghost predicate Starts(polls: seq<Poll>, k: nat, notAfter: real, validity: real) {
    && k < |polls|
    && Due(Remaining(notAfter, polls[k].at), validity, polls[k].jitter)
    && forall i :: 0 <= i < k ==> !Due(Remaining(notAfter, polls[i].at), validity, polls[i].jitter)
  }

  /** Whatever jitter is drawn, a rotation starts with less than 1.1 thirds of the validity
      left, and no later than the first poll with three tenths of it left. */
  lemma RotationWindow(polls: seq<Poll>, k: nat, notAfter: real, validity: real, gap: real)
    requires Polled(polls, gap) && Starts(polls, k, notAfter, validity) && validity > 0.0
    ensures notAfter - polls[k].at < 1.1 * validity / 3.0
    ensures forall i :: 0 <= i < k ==> notAfter - polls[i].at > 0.3 * validity
    ensures k > 0 ==> notAfter - polls[k].at > 0.3 * validity - gap
  {
    Threshold(validity, polls[k].jitter);
    forall i | 0 <= i < k ensures notAfter - polls[i].at > 0.3 * validity {
      Threshold(validity, polls[i].jitter);
    }
    if k > 0 {
      assert polls[k].at <= polls[k-1].at + gap;
    }
  }

  lemma Threshold(validity: real, jitter: real)
    requires validity > 0.0 && 0.9 <= jitter < 1.1
    ensures 0.3 * validity <= validity / 3.0 * jitter < 1.1 * validity / 3.0
  {
    var v := validity / 3.0;
  }

  /** The leaf minted at `minted` is good until this, which is earlier than the annotation
      stamped `stamping` later by that and the skew. */
  function LeafEnd(minted: real, validity: real): real {
    minted - SKEW + validity
  }

  /** In every schedule the leaf being replaced outlives the rotation that replaces it. */
  ghost predicate NeverExpires(validity: real, gap: real, stamping: real, call: real) {
    forall minted: real, polls: seq<Poll>, k: nat, notAfter: real ::
      notAfter == minted + stamping + validity && Polled(polls, gap) && 0 < k && Starts(polls, k, notAfter, validity) ==>
        polls[k].at + call < LeafEnd(minted, validity)
  }

  lemma LateSchedule(validity: real, gap: real, stamping: real, call: real)
    requires validity > 0.0 && gap >= 0.0
    requires 0.3 * validity < SKEW + gap + stamping + call
    ensures !NeverExpires(validity, gap, stamping, call)
  {
    // Not due by a little at nine tenths of a third, and then a whole gap later.
    var notAfter := stamping + validity;
    var late := SKEW + gap + stamping + call - 0.3 * validity;
    var little := if late < validity / 30.0 then late / 2.0 else validity / 60.0;
    var p := Poll(notAfter - 0.3 * validity - little, 0.9);
    var q := Poll(p.at + gap, 1.0);
    assert Polled([p, q], gap);
    assert !Due(Remaining(notAfter, p.at), validity, p.jitter);
    assert Due(Remaining(notAfter, q.at), validity, q.jitter);
    assert Starts([p, q], 1, notAfter, validity);
    assert [p, q][1].at + call >= LeafEnd(0.0, validity);
  }

  /** The old leaf outlives its replacement, under every jitter and every schedule of polls
      a gap apart, exactly when three tenths of the validity cover the skew, a gap, the time
      between minting and stamping, and the time to rotate. */
  lemma LeafOutlivesExactly(validity: real, gap: real, stamping: real, call: real)
    requires validity > 0.0 && gap >= 0.0
    ensures NeverExpires(validity, gap, stamping, call) <==> 300.0 + gap + stamping + call <= 0.3 * validity
  {
    if SKEW + gap + stamping + call <= 0.3 * validity {
      forall minted: real, polls: seq<Poll>, k: nat, notAfter: real |
        notAfter == minted + stamping + validity && Polled(polls, gap) && 0 < k && Starts(polls, k, notAfter, validity)
        ensures polls[k].at + call < LeafEnd(minted, validity)
      {
        RotationWindow(polls, k, notAfter, validity, gap);
      }
    } else {
      LateSchedule(validity, gap, stamping, call);
    }
  }

  /** A Secret half of a cancelled rotation wrote is stamped afresh, so nothing rotates it
      again until more than six tenths of its validity have gone. */
  lemma FreshStampWaits(notAfter: real, validity: real, jitter: real, now: real)
    requires validity > 0.0 && 0.9 <= jitter < 1.1
    requires now <= notAfter - validity + 0.6 * validity
    ensures !Due(Remaining(notAfter, now), validity, jitter)
  {
    Threshold(validity, jitter);
  }

  // ----- the bundle as text ---------------------------------------------------------

  const END: string := "-----END CERTIFICATE-----"

  predicate StartsWith(text: string, pattern: string) {
    |pattern| <= |text| && text[..|pattern|] == pattern
  }

  /** The text through its first end-of-certificate line; nothing where there is none. */
  function FirstCertificate(text: string): string {
    if |text| < |END| then ""
    else if StartsWith(text, END) then END
    else
      var rest := FirstCertificate(text[1..]);
      if rest == "" then "" else [text[0]] + rest
  }

  /** How many certificates a text ends. */
  function Certificates(text: string): nat {
    if |text| < |END| then 0
    else (if StartsWith(text, END) then 1 else 0) + Certificates(text[1..])
  }

  lemma {:induction false} FirstIsOne(text: string)
    ensures StartsWith(text, FirstCertificate(text))
    ensures Certificates(FirstCertificate(text)) == if Certificates(text) > 0 then 1 else 0
    ensures FirstCertificate(text) == "" <==> Certificates(text) == 0
    ensures FirstCertificate(text) != "" ==>
              var size := |FirstCertificate(text)|;
              |END| == 25 && size >= 25 && FirstCertificate(text)[size - 25..] == "-----END CERTIFICATE-----"
  {
    if |text| < |END| {
    } else if StartsWith(text, END) {
      assert Certificates(END[1..]) == 0;
    } else {
      FirstIsOne(text[1..]);
      var rest := FirstCertificate(text[1..]);
      if rest != "" {
      }
    }
  }

  /** A certificate's last line ends with a newline, which no end marker contains, so
      markers are never found across the join. */
  lemma {:induction false} JoinCounts(ca: string, rest: string)
    requires ca == "" || ca[|ca| - 1] == '\n'
    ensures Certificates(ca + rest) == Certificates(ca) + Certificates(rest)
  {
    if ca == "" {
      assert ca + rest == rest;
    } else {
      var all := ca + rest;
      JoinCounts(ca[1..], rest);
      assert all[1..] == ca[1..] + rest;
      if |ca| >= |END| {
        assert all[..|END|] == ca[..|END|];
      } else {
        assert all[|ca| - 1] == '\n' && (|all| >= |END| ==> all[..|END|][|ca| - 1] == '\n');
      }
    }
  }

  /** However many certificates the Secret's `ca.crt` holds, the bundle written beside one
      newly minted CA ends that one and at most one more. */
  lemma BundleText(minted: string, previous: string)
    requires minted != "" && minted[|minted| - 1] == '\n' && Certificates(minted) == 1
    ensures Certificates(minted + FirstCertificate(previous)) == if Certificates(previous) > 0 then 2 else 1
  {
    FirstIsOne(previous);
    JoinCounts(minted, FirstCertificate(previous));
  }
}
