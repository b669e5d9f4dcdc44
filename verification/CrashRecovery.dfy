/** Crash recovery: exactly when an uninterrupted record() completes, and that it is a protocol run. */
module CrashRecovery {
  import opened AuditChain
  import opened ClaimProtocol
  import opened FailureBridge

  predicate Finalisable(env: Env, claims: Claims, lease: nat, job: Job) {
    && (job.key in claims ==>
          claims[job.key].token == job.token || job.now >= claims[job.key].claimedAt + lease as real)
    && job.event.Some? && Recordable(env, job.event.value)
  }

  /** What record() needs for one job: the evidence agrees with any stored row, and unless the row
      is already emitted its lease has run out and the event can be recorded. */
  predicate Ready(env: Env, lease: nat, claims: Claims, job: Job) {
    && (job.key in claims ==> claims[job.key].evidence == job.evidence)
    && (IsEmitted(claims, job.key) || Finalisable(env, claims, lease, job))
  }

  ghost predicate AllReady(env: Env, lease: nat, claims: Claims, jobs: seq<Job>) {
    forall i :: 0 <= i < |jobs| ==> Ready(env, lease, claims, jobs[i])
  }

  /** Every job's row is emitted and stores the job's evidence. */
  ghost predicate AllDone(claims: Claims, jobs: seq<Job>) {
    forall i :: 0 <= i < |jobs| ==>
      IsEmitted(claims, jobs[i].key) && claims[jobs[i].key].evidence == jobs[i].evidence
  }

  /** The kinds whose rows are, or are not, emitted in `claims`, in trace order. */
  function KindsWhere(claims: Claims, jobs: seq<Job>, emitted: bool): seq<string> {
    if jobs == [] then []
    else (if IsEmitted(claims, jobs[0].key) == emitted then [jobs[0].key.kind] else [])
         + KindsWhere(claims, jobs[1..], emitted)
  }

  lemma OneJobHead(env: Env, lease: nat, chain: Chain, claims: Claims, job: Job)
    requires HeadOk(chain)
    ensures HeadOk(RecordOne(env, lease, chain, claims, job).0)
    ensures job.event.Some? ==> (TryAppend(env, chain, job.event.value).Ok? <==> Recordable(env, job.event.value))
  {
    if job.event.Some? { AppendKeepsHead(env, chain, job.event.value); }
  }

  /** One iteration emits or skips its key exactly when the job was ready. */
  lemma OneJob(env: Env, lease: nat, chain: Chain, claims: Claims, job: Job)
    requires job.event.Some? ==> (TryAppend(env, chain, job.event.value).Ok? <==> Recordable(env, job.event.value))
    ensures var (_, after, fate) := RecordOne(env, lease, chain, claims, job);
            && (Ready(env, lease, claims, job) <==>
                  !fate.Raises? && IsEmitted(after, job.key) && after[job.key].evidence == job.evidence)
            && (Ready(env, lease, claims, job) ==> fate == if IsEmitted(claims, job.key) then Skips else Emits)
  {
    var (claimed, answer) := Claim(claims, lease, job.key, job.evidence, job.token, job.now);
    if answer.Granted? {
      assert claimed[job.key].token == job.token && claimed[job.key].status.Pending?;
      if job.event.Some? {
        var marked := MarkWithAudit(env, chain, claimed, job.key, job.token, job.event.value);
        if marked.Ok? { assert marked.value.2; }
      }
    }
  }

  lemma {:induction false} SameKinds(before: Claims, after: Claims, jobs: seq<Job>, emitted: bool)
    requires forall i :: 0 <= i < |jobs| ==> SameAt(before, after, jobs[i].key)
    ensures KindsWhere(before, jobs, emitted) == KindsWhere(after, jobs, emitted)
  {
    if jobs != [] {
      assert SameAt(before, after, jobs[0].key);
      SameKinds(before, after, jobs[1..], emitted);
    }
  }

  lemma ReadySplits(env: Env, lease: nat, claims: Claims, after: Claims, jobs: seq<Job>)
    requires jobs != [] && forall i :: 0 < i < |jobs| ==> SameAt(claims, after, jobs[i].key)
    ensures AllReady(env, lease, claims, jobs)
            <==> Ready(env, lease, claims, jobs[0]) && AllReady(env, lease, after, jobs[1..])
  {
    var rest := jobs[1..];
    if AllReady(env, lease, claims, jobs) {
      forall i | 0 <= i < |rest| ensures Ready(env, lease, after, rest[i]) {
        assert Ready(env, lease, claims, jobs[i + 1]) && SameAt(claims, after, jobs[i + 1].key);
      }
    }
    if Ready(env, lease, claims, jobs[0]) && AllReady(env, lease, after, rest) {
      forall i | 0 <= i < |jobs| ensures Ready(env, lease, claims, jobs[i]) {
        if i > 0 { assert Ready(env, lease, after, rest[i - 1]) && SameAt(claims, after, jobs[i].key); }
      }
    }
  }

  lemma DoneSplits(claims: Claims, jobs: seq<Job>)
    requires jobs != []
    ensures AllDone(claims, jobs)
            <==> IsEmitted(claims, jobs[0].key) && claims[jobs[0].key].evidence == jobs[0].evidence
                 && AllDone(claims, jobs[1..])
  {
    var rest := jobs[1..];
    if IsEmitted(claims, jobs[0].key) && claims[jobs[0].key].evidence == jobs[0].evidence && AllDone(claims, rest) {
      forall i | 0 <= i < |jobs|
        ensures IsEmitted(claims, jobs[i].key) && claims[jobs[i].key].evidence == jobs[i].evidence
      {
        if i > 0 { assert rest[i - 1] == jobs[i]; }
      }
    }
  }

  /** What record() achieves on any good database, whether it completes or raises. */
  ghost predicate CompletedIffReady(env: Env, lease: nat, claims: Claims, jobs: seq<Job>, a: After) {
    && HeadOk(a.chain)
    && (forall k :: (forall i :: 0 <= i < |jobs| ==> k != jobs[i].key) ==> SameAt(claims, a.claims, k))
    && (AllReady(env, lease, claims, jobs) <==> a.outcome.Recorded? && AllDone(a.claims, jobs))
    && (AllReady(env, lease, claims, jobs) ==>
          a.outcome == Recorded(KindsWhere(claims, jobs, false), KindsWhere(claims, jobs, true)))
  }

  lemma OthersUntouched(claims: Claims, after: Claims, last: Claims, jobs: seq<Job>)
    requires jobs != [] && forall k :: k != jobs[0].key ==> SameAt(claims, after, k)
    requires forall k :: (forall i :: 0 <= i < |jobs[1..]| ==> k != jobs[1..][i].key) ==> SameAt(after, last, k)
    ensures forall k :: (forall i :: 0 <= i < |jobs| ==> k != jobs[i].key) ==> SameAt(claims, last, k)
  {
    var rest := jobs[1..];
    forall k | forall i :: 0 <= i < |jobs| ==> k != jobs[i].key ensures SameAt(claims, last, k) {
      assert forall i :: 0 <= i < |rest| ==> k != rest[i].key;
      assert SameAt(claims, after, k) && SameAt(after, last, k);
    }
  }

  lemma OneThenRest(env: Env, lease: nat, claims: Claims, after: Claims, jobs: seq<Job>, fate: Fate, tail: After)
    requires jobs != [] && CompletedIffReady(env, lease, after, jobs[1..], tail)
    requires forall k :: k != jobs[0].key ==> SameAt(claims, after, k)
    requires forall i :: 0 < i < |jobs| ==> jobs[i].key != jobs[0].key
    requires SameAt(after, tail.claims, jobs[0].key)
    requires AllReady(env, lease, claims, jobs) <==>
               Ready(env, lease, claims, jobs[0]) && AllReady(env, lease, after, jobs[1..])
    requires Ready(env, lease, claims, jobs[0]) <==>
               !fate.Raises? && IsEmitted(after, jobs[0].key) && after[jobs[0].key].evidence == jobs[0].evidence
    requires Ready(env, lease, claims, jobs[0]) ==> fate == if IsEmitted(claims, jobs[0].key) then Skips else Emits
    requires !fate.Raises?
    ensures CompletedIffReady(env, lease, claims, jobs,
              Also(if fate.Emits? then [jobs[0].key.kind] else [],
                   if fate.Skips? then [jobs[0].key.kind] else [], tail))
  {
    var rest := jobs[1..];
    DoneSplits(tail.claims, jobs);
    SameKinds(claims, after, rest, true);
    SameKinds(claims, after, rest, false);
    OthersUntouched(claims, after, tail.claims, jobs);
  }

  lemma OneRaises(env: Env, lease: nat, chain: Chain, claims: Claims, jobs: seq<Job>)
    requires HeadOk(chain) && jobs != [] && RecordOne(env, lease, chain, claims, jobs[0]).2.Raises?
    requires !Ready(env, lease, claims, jobs[0])
    ensures CompletedIffReady(env, lease, claims, jobs, RecordFrom(env, lease, chain, claims, jobs))
  {
    OneJobHead(env, lease, chain, claims, jobs[0]);
    forall k | k != jobs[0].key ensures SameAt(claims, RecordOne(env, lease, chain, claims, jobs[0]).1, k) {
      OneJobElsewhere(env, lease, chain, claims, jobs[0], k);
    }
  }

  /** record() returns with every key of its trace emitted under the given evidence if and only if
      each job was ready beforehand; what it reports as emitted and skipped is then the trace split
      by what was already emitted. It never touches another key. */
  lemma {:induction false} CompletesExactlyWhenReady(env: Env, lease: nat, chain: Chain, claims: Claims, jobs: seq<Job>)
    requires HeadOk(chain) && DistinctKeys(jobs)
    ensures CompletedIffReady(env, lease, claims, jobs, RecordFrom(env, lease, chain, claims, jobs))
    decreases |jobs|
  {
    if jobs != [] {
      var (extended, after, fate) := RecordOne(env, lease, chain, claims, jobs[0]);
      OneJobHead(env, lease, chain, claims, jobs[0]);
      OneJob(env, lease, chain, claims, jobs[0]);
      forall k | k != jobs[0].key ensures SameAt(claims, after, k) {
        OneJobElsewhere(env, lease, chain, claims, jobs[0], k);
      }
      var rest := jobs[1..];
      ReadySplits(env, lease, claims, after, jobs);
      CompletesExactlyWhenReady(env, lease, extended, after, rest);
      var tail := RecordFrom(env, lease, extended, after, rest);
      assert SameAt(after, tail.claims, jobs[0].key);
      if fate.Raises? {
        OneRaises(env, lease, chain, claims, jobs);
      } else {
        OneThenRest(env, lease, claims, after, jobs, fate, tail);
      }
    }
  }

  function Kinds(jobs: seq<Job>): seq<string> {
    seq(|jobs|, i requires 0 <= i < |jobs| => jobs[i].key.kind)
  }

  /** Replaying a trace whose keys are all emitted changes nothing and skips everything. */
  lemma {:induction false} ReplayChangesNothing(env: Env, lease: nat, chain: Chain, claims: Claims, jobs: seq<Job>)
    requires AllDone(claims, jobs)
    ensures RecordFrom(env, lease, chain, claims, jobs) == After(chain, claims, Recorded([], Kinds(jobs)))
    decreases |jobs|
  {
    if jobs != [] {
      DoneSplits(claims, jobs);
      ReplayChangesNothing(env, lease, chain, claims, jobs[1..]);
      assert RecordOne(env, lease, chain, claims, jobs[0]) == (chain, claims, Skips);
      var (none: seq<string>, kind) := ([], jobs[0].key.kind);
      var rest := RecordFrom(env, lease, chain, claims, jobs[1..]);
      assert RecordFrom(env, lease, chain, claims, jobs) == Also(none, [kind], rest);
      assert none + none == none && [kind] + Kinds(jobs[1..]) == Kinds(jobs);
    }
  }

  // ---- record() as a run of the protocol ------------------------------------------------

  /** The transactions of one iteration. */
  function JobSteps(lease: nat, claims: Claims, worker: nat, job: Job): seq<Step> {
    [ClaimStep(worker, job.key, job.evidence, job.token, job.now)]
    + if !Claim(claims, lease, job.key, job.evidence, job.token, job.now).1.Granted? then []
      else if job.event.Some? then [Finalise(worker, job.event.value)]
      else [Crash(worker)]
  }

  function StepsOf(env: Env, lease: nat, chain: Chain, claims: Claims, worker: nat, jobs: seq<Job>): seq<Step>
    decreases |jobs|
  {
    if jobs == [] then []
    else
      var (extended, after, fate) := RecordOne(env, lease, chain, claims, jobs[0]);
      JobSteps(lease, claims, worker, jobs[0])
      + if fate.Raises? then [] else StepsOf(env, lease, extended, after, worker, jobs[1..])
  }

  lemma {:induction false} ExecInTwo(env: Env, lease: nat, s: Shared, first: seq<Step>, rest: seq<Step>)
    ensures Exec(env, lease, s, first + rest) == Exec(env, lease, Exec(env, lease, s, first), rest)
    decreases |first|
  {
    if first == [] {
      assert first + rest == rest;
    } else {
      assert (first + rest)[0] == first[0] && (first + rest)[1..] == first[1..] + rest;
      ExecInTwo(env, lease, if Enabled(s, first[0]) then Next(env, lease, s, first[0]) else s, first[1..], rest);
    }
  }

  lemma ExecOne(env: Env, lease: nat, s: Shared, step: Step)
    requires Enabled(s, step)
    ensures Exec(env, lease, s, [step]) == Next(env, lease, s, step)
  {
    assert [step][1..] == [];
  }

  ghost predicate FreshTokens(issued: set<string>, jobs: seq<Job>) {
    && (forall i :: 0 <= i < |jobs| ==> jobs[i].token !in issued)
    && (forall i, j :: 0 <= i < j < |jobs| ==> jobs[i].token != jobs[j].token)
  }

  lemma OneJobIsARun(env: Env, lease: nat, s: Shared, worker: nat, job: Job)
    requires worker !in s.holding && job.token !in s.issued && JobOk(job)
    ensures var (extended, after, _) := RecordOne(env, lease, s.chain, s.claims, job);
            Exec(env, lease, s, JobSteps(lease, s.claims, worker, job))
            == s.(chain := extended, claims := after, issued := s.issued + {job.token})
  {
    var claim := ClaimStep(worker, job.key, job.evidence, job.token, job.now);
    var t := Next(env, lease, s, claim);
    var answer := Claim(s.claims, lease, job.key, job.evidence, job.token, job.now).1;
    ClaimContract(s.claims, lease, job.key, job.evidence, job.token, job.now);
    ExecOne(env, lease, s, claim);
    if answer.Granted? {
      var last := if job.event.Some? then Finalise(worker, job.event.value) else Crash(worker);
      ExecInTwo(env, lease, s, [claim], [last]);
      assert t.holding[worker] == Grant(job.key, job.evidence, job.token);
      ExecOne(env, lease, t, last);
      assert t.holding - {worker} == s.holding;
    } else {
      assert [claim] + [] == [claim];
    }
  }

  /** Whatever record() does is a run of the transition system by one worker, so every safety
      theorem of the protocol covers it. */
  lemma {:induction false} RecordIsARun(env: Env, lease: nat, s: Shared, worker: nat, jobs: seq<Job>)
    requires worker !in s.holding && FreshTokens(s.issued, jobs) && WellFormed(jobs)
    ensures var a := RecordFrom(env, lease, s.chain, s.claims, jobs);
            var t := Exec(env, lease, s, StepsOf(env, lease, s.chain, s.claims, worker, jobs));
            t.chain == a.chain && t.claims == a.claims && t.holding == s.holding
    decreases |jobs|
  {
    if jobs != [] {
      var (extended, after, fate) := RecordOne(env, lease, s.chain, s.claims, jobs[0]);
      OneJobIsARun(env, lease, s, worker, jobs[0]);
      var u := s.(chain := extended, claims := after, issued := s.issued + {jobs[0].token});
      var first := JobSteps(lease, s.claims, worker, jobs[0]);
      if fate.Raises? {
        assert first + [] == first;
      } else {
        ExecInTwo(env, lease, s, first, StepsOf(env, lease, extended, after, worker, jobs[1..]));
        RecordIsARun(env, lease, u, worker, jobs[1..]);
      }
    }
  }

  /** The same jobs drawn again with other tokens and clock readings. */
  ghost predicate SameClaims(a: seq<Job>, b: seq<Job>) {
    |a| == |b| && forall i :: 0 <= i < |a| ==> a[i].key == b[i].key && a[i].evidence == b[i].evidence
  }

  /** Recovery: from any reachable state of the shared protocol, one uninterrupted record() with
      evidence that agrees with the stored rows, at least one lease after their last claims, ends with
      every key of the trace emitted, reports the split, and a further replay changes nothing. */
  lemma RecoveryCompletes(env: Env, lease: nat, s: Shared, steps: seq<Step>, jobs: seq<Job>, again: seq<Job>)
    requires Start(s) && WellFormed(jobs) && SameClaims(jobs, again)
    requires AllReady(env, lease, Exec(env, lease, s, steps).claims, jobs)
    ensures var t := Exec(env, lease, s, steps);
            var a := RecordFrom(env, lease, t.chain, t.claims, jobs);
            && AllDone(a.claims, jobs)
            && a.outcome == Recorded(KindsWhere(t.claims, jobs, false), KindsWhere(t.claims, jobs, true))
            && RecordFrom(env, lease, a.chain, a.claims, again) == After(a.chain, a.claims, Recorded([], Kinds(jobs)))
  {
    StartIsGood(s);
    RunPreserves(env, lease, s, s, steps);
    var t := Exec(env, lease, s, steps);
    CompletesExactlyWhenReady(env, lease, t.chain, t.claims, jobs);
    var a := RecordFrom(env, lease, t.chain, t.claims, jobs);
    assert AllDone(a.claims, again);
    ReplayChangesNothing(env, lease, a.chain, a.claims, again);
    assert Kinds(again) == Kinds(jobs);
  }
}
