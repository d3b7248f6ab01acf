/**
 * Jobs of the agent and the specification of reconciliation: which jobs a configured job
 * list yields, which identifiers it applies, and which previously configured identifiers
 * become obsolete.
 */
module Jobs {
  import opened Wrappers
  import opened Config

  /** What the probe constructor builds from a descriptor: the period it runs with (the
      default it was given unless its arguments override it), a description and the
      destination hosts it probes. */
  datatype Runner = Runner(period: int, description: string, destHosts: seq<string>)

  /** The configuration handed to the probe constructor. */
  datatype RunnerConfig = RunnerConfig(job: JobDescriptor, period: int)

  /** The three answers of the probe constructor: a runner, nothing (the job is skipped on
      this node), or an error message. */
  datatype RunnerResult = RunnerOk(runner: Runner) | RunnerSkip | RunnerErr(msg: string)

  /** The probe constructor itself, whose code is not part of this model. */
  type Parser = (ClusterConfig, RunnerConfig) -> RunnerResult

  /** A runnable job: the descriptor it was built from, the runner's settings and the time of
      its last run (none until the registry seeds one). */
  datatype Job = Job(
    config: JobDescriptor,
    period: int,
    description: string,
    destHosts: seq<string>,
    lastRun: Option<int>)
  {
    function Id(): JobId { config.jobId }
  }

  /** What parseJob reads besides the descriptor: the active network configuration, the
      current cluster configuration (if any) and the probe constructor. */
  datatype ParseContext = ParseContext(network: NetworkConfig, cluster: Option<ClusterConfig>, parse: Parser)

  /** The period a job is parsed with: the network configuration's default period unless
      that is zero, else one second. */
  function DefaultPeriod(nc: NetworkConfig): (p: int)
    ensures p != 0
    ensures nc.defaultPeriod != 0 ==> p == nc.defaultPeriod
    ensures nc.defaultPeriod == 0 ==> p == Second
  {
    if nc.defaultPeriod != 0 then nc.defaultPeriod else Second
  }

  /** The runner configuration parseJob hands to the probe constructor. */
  function RunnerConfigOf(desc: JobDescriptor, ctx: ParseContext): RunnerConfig
  {
    RunnerConfig(desc, DefaultPeriod(ctx.network))
  }

  /** The probe constructor's answer for a descriptor, as parseJob asks for it. */
  function Construct(desc: JobDescriptor, ctx: ParseContext): RunnerResult
  {
    ctx.parse(ctx.cluster.GetOr(EmptyClusterConfig), RunnerConfigOf(desc, ctx))
  }

  /**
   * parseJob: an empty argument list is an error; otherwise the constructor's error becomes
   * an error naming the job, its "skip" becomes no job, and a runner becomes a job with
   * the descriptor's identity and no last-run time yet.
   */
  function ParseJob(desc: JobDescriptor, ctx: ParseContext): (r: Result<Option<Job>, string>)
    ensures desc.args == [] ==> r == Failure("no job args")
    ensures desc.args != [] ==> (r.Failure? <==> Construct(desc, ctx).RunnerErr?)
    ensures desc.args != [] ==> (r == Success(None) <==> Construct(desc, ctx).RunnerSkip?)
    ensures r.Success? && r.value.Some? ==>
      var job := r.value.value;
      && Construct(desc, ctx).RunnerOk?
      && job.Id() == desc.jobId && job.config == desc && job.lastRun.None?
      && job.period == Construct(desc, ctx).runner.period
      && job.destHosts == Construct(desc, ctx).runner.destHosts
    ensures desc.args != [] && Construct(desc, ctx).RunnerErr? ==>
      r == Failure("invalid job " + desc.jobId + ": " + Construct(desc, ctx).msg)
  {
    if |desc.args| == 0 then Failure("no job args")
    else
      match Construct(desc, ctx)
      case RunnerErr(msg) => Failure("invalid job " + desc.jobId + ": " + msg)
      case RunnerSkip => Success(None)
      case RunnerOk(runner) => Success(Some(Job(desc, runner.period, runner.description, runner.destHosts, None)))
  }

  /** The identifiers of a job list: what the reconciliation records as `applied` once every
      descriptor has been handled, skipped ones included. */
  function JobIds(descs: seq<JobDescriptor>): set<JobId>
  {
    if descs == [] then {}
    else
      var n := |descs| - 1;
      JobIds(descs[..n]) + {descs[n].jobId}
  }

  /** The index of the first descriptor that fails to parse, or the list's length when all
      of them parse. */
  function FirstFailure(descs: seq<JobDescriptor>, ctx: ParseContext): (k: nat)
    ensures k <= |descs|
    ensures forall i :: 0 <= i < k ==> ParseJob(descs[i], ctx).Success?
    ensures k < |descs| ==> ParseJob(descs[k], ctx).Failure?
  {
    if descs == [] then 0
    else if ParseJob(descs[0], ctx).Failure? then 0
    else 1 + FirstFailure(descs[1..], ctx)
  }

  /** The jobs a list of descriptors installs, by identifier: for each identifier, the job
      parsed from its last descriptor that yielded one. */
  function ParsedJobs(descs: seq<JobDescriptor>, ctx: ParseContext): map<JobId, Job>
  {
    if descs == [] then map[]
    else
      var n := |descs| - 1;
      var m := ParsedJobs(descs[..n], ctx);
      match ParseJob(descs[n], ctx)
      case Success(Some(job)) => m[job.Id() := job]
      case _ => m
  }

  /** `desc` parses into a job, and that job is filed under `id`. */
  predicate Yields(desc: JobDescriptor, ctx: ParseContext, id: JobId)
  {
    ParseJob(desc, ctx).Success? && ParseJob(desc, ctx).value.Some? && desc.jobId == id
  }

  /** An identifier is installed exactly when some descriptor of the list yields a job for
      it, and its entry is the job one of those descriptors yields. */
  lemma {:induction false} ParsedJobsKeys(descs: seq<JobDescriptor>, ctx: ParseContext)
    ensures forall i :: 0 <= i < |descs| && Yields(descs[i], ctx, descs[i].jobId) ==>
      descs[i].jobId in ParsedJobs(descs, ctx)
    ensures forall id :: id in ParsedJobs(descs, ctx) ==>
      exists i :: 0 <= i < |descs| && Yields(descs[i], ctx, id) &&
        ParsedJobs(descs, ctx)[id] == ParseJob(descs[i], ctx).value.value
  {
    if descs != [] {
      var n := |descs| - 1;
      var prefix := descs[..n];
      ParsedJobsKeys(prefix, ctx);
      forall i | 0 <= i < |descs| && Yields(descs[i], ctx, descs[i].jobId)
        ensures descs[i].jobId in ParsedJobs(descs, ctx)
      {
        if i < n {
          assert prefix[i] == descs[i];
        }
      }
      forall id | id in ParsedJobs(descs, ctx)
        ensures exists i :: 0 <= i < |descs| && Yields(descs[i], ctx, id) &&
                   ParsedJobs(descs, ctx)[id] == ParseJob(descs[i], ctx).value.value
      {
        if Yields(descs[n], ctx, id) {
          assert ParsedJobs(descs, ctx)[id] == ParseJob(descs[n], ctx).value.value;
        } else {
          assert id in ParsedJobs(prefix, ctx) && ParsedJobs(descs, ctx)[id] == ParsedJobs(prefix, ctx)[id];
          var i :| 0 <= i < n && Yields(prefix[i], ctx, id) &&
            ParsedJobs(prefix, ctx)[id] == ParseJob(prefix[i], ctx).value.value;
          assert prefix[i] == descs[i];
        }
      }
    }
  }

  /** The entry of an identifier is the job of the last descriptor that yields one for it. */
  lemma {:induction false} ParsedJobsLast(descs: seq<JobDescriptor>, ctx: ParseContext, i: nat)
    requires i < |descs| && Yields(descs[i], ctx, descs[i].jobId)
    requires forall l :: i < l < |descs| ==> !Yields(descs[l], ctx, descs[i].jobId)
    ensures descs[i].jobId in ParsedJobs(descs, ctx)
    ensures ParsedJobs(descs, ctx)[descs[i].jobId] == ParseJob(descs[i], ctx).value.value
  {
    var n := |descs| - 1;
    if i < n {
      var prefix := descs[..n];
      assert prefix[i] == descs[i];
      assert !Yields(descs[n], ctx, descs[i].jobId);
      ParsedJobsLast(prefix, ctx, i);
    }
  }

  /** The applied identifiers, installed jobs and valid destination hosts after one more
      descriptor that parses. */
  lemma InstallStep(descs: seq<JobDescriptor>, i: nat, ctx: ParseContext)
    requires i < |descs|
    requires ParseJob(descs[i], ctx).Success?
    ensures JobIds(descs[..i + 1]) == JobIds(descs[..i]) + {descs[i].jobId}
    ensures ParsedJobs(descs[..i + 1], ctx) ==
      var r := ParseJob(descs[i], ctx);
      if r.value.Some? then ParsedJobs(descs[..i], ctx)[r.value.value.Id() := r.value.value]
      else ParsedJobs(descs[..i], ctx)
    ensures DestHosts(descs[..i + 1], ctx) == DestHosts(descs[..i], ctx) + (set h | h in TargetsOf(ParseJob(descs[i], ctx)))
  {
    assert descs[..i + 1][..i] == descs[..i];
  }

  /** Every installed job is filed under its own identifier, which the list mentions, and
      has no last-run time of its own. */
  lemma {:induction false} ParsedJobsShape(descs: seq<JobDescriptor>, ctx: ParseContext)
    ensures ParsedJobs(descs, ctx).Keys <= JobIds(descs)
    ensures forall id :: id in ParsedJobs(descs, ctx) ==>
      ParsedJobs(descs, ctx)[id].Id() == id && ParsedJobs(descs, ctx)[id].lastRun.None?
  {
    if descs != [] {
      ParsedJobsShape(descs[..|descs| - 1], ctx);
    }
  }

  /** `offset` is f * period for some fraction f in [0, 1): the backward jitter of a new job. */
  predicate IsJitter(offset: int, period: int)
  {
    if period > 0 then 0 <= offset < period
    else if period < 0 then period < offset <= 0
    else offset == 0
  }

  /** The destination hosts of the job a parse yields, none when it yields no job. */
  function TargetsOf(r: Result<Option<Job>, string>): seq<string>
  {
    if r.Success? && r.value.Some? then r.value.value.destHosts else []
  }

  /** The destination hosts of every job a list of descriptors yields. */
  function DestHosts(descs: seq<JobDescriptor>, ctx: ParseContext): set<string>
  {
    if descs == [] then {}
    else
      var n := |descs| - 1;
      DestHosts(descs[..n], ctx) + (set h | h in TargetsOf(ParseJob(descs[n], ctx)))
  }

  /** The applied set holds exactly the identifiers that occur in the list. */
  lemma {:induction false} JobIdsMembers(descs: seq<JobDescriptor>)
    ensures forall i :: 0 <= i < |descs| ==> descs[i].jobId in JobIds(descs)
    ensures forall id :: id in JobIds(descs) ==> exists i :: 0 <= i < |descs| && descs[i].jobId == id
  {
    if descs != [] {
      var n := |descs| - 1;
      JobIdsMembers(descs[..n]);
      forall id | id in JobIds(descs)
        ensures exists i :: 0 <= i < |descs| && descs[i].jobId == id
      {
        if id != descs[n].jobId {
          var i :| 0 <= i < n && descs[..n][i].jobId == id;
          assert descs[i].jobId == id;
        }
      }
    }
  }

  /** The valid destination hosts are exactly the destination hosts of the jobs the list
      yields. */
  lemma {:induction false} DestHostsMembers(descs: seq<JobDescriptor>, ctx: ParseContext)
    ensures forall i, d :: 0 <= i < |descs| && d in TargetsOf(ParseJob(descs[i], ctx)) ==> d in DestHosts(descs, ctx)
    ensures forall d :: d in DestHosts(descs, ctx) ==>
      exists i :: 0 <= i < |descs| && d in TargetsOf(ParseJob(descs[i], ctx))
  {
    if descs != [] {
      var n := |descs| - 1;
      DestHostsMembers(descs[..n], ctx);
      forall i, d | 0 <= i < |descs| && d in TargetsOf(ParseJob(descs[i], ctx))
        ensures d in DestHosts(descs, ctx)
      {
        if i < n {
          assert descs[..n][i] == descs[i];
        }
      }
      forall d | d in DestHosts(descs, ctx)
        ensures exists i :: 0 <= i < |descs| && d in TargetsOf(ParseJob(descs[i], ctx))
      {
        if d !in TargetsOf(ParseJob(descs[n], ctx)) {
          assert d in DestHosts(descs[..n], ctx);
          var i :| 0 <= i < n && d in TargetsOf(ParseJob(descs[..n][i], ctx));
          assert descs[..n][i] == descs[i];
        }
      }
    }
  }

  /** The previously configured identifiers that are not in `applied`, in their configured
      order: the jobs the reconciliation deletes. */
  function Obsolete(oldDescs: seq<JobDescriptor>, applied: set<JobId>): (ids: seq<JobId>)
  {
    if oldDescs == [] then []
    else
      var n := |oldDescs| - 1;
      Obsolete(oldDescs[..n], applied) + (if oldDescs[n].jobId in applied then [] else [oldDescs[n].jobId])
  }

  /** The set of identifiers a reconciliation deletes. */
  function ObsoleteSet(oldDescs: seq<JobDescriptor>, applied: set<JobId>): set<JobId>
  {
    set id | id in Obsolete(oldDescs, applied)
  }

  /**
   * The registry `after` is `before` with the jobs of `added` installed and the identifiers
   * of `removed` deleted: installed jobs keep the last-run time of the job they replace
   * (or get a seeded one), and every other entry is untouched.
   */
  ghost predicate Reconciled(before: map<JobId, Job>, after: map<JobId, Job>, added: map<JobId, Job>, removed: set<JobId>)
  {
    && after.Keys == (before.Keys + added.Keys) - removed
    && forall id {:trigger EntryReconciled(before, after, added, id)} ::
         id in after ==> EntryReconciled(before, after, added, id)
  }

  /** The entry `id` of `after`: an installed job with the last-run time of the job it
      replaced, or a seeded one; otherwise the entry of `before`. */
  ghost predicate EntryReconciled(before: map<JobId, Job>, after: map<JobId, Job>, added: map<JobId, Job>, id: JobId)
    requires id in after
  {
    if id in added then
      && after[id].(lastRun := None) == added[id]
      && (if id in before then after[id].lastRun == before[id].lastRun else after[id].lastRun.Some?)
    else
      id in before && after[id] == before[id]
  }

  /** `after` is `before` with `job` added or replaced: the entry keeps the last-run time of
      the job it replaces or has a seeded one, and no other entry changes. */
  ghost predicate InstalledOne(before: map<JobId, Job>, after: map<JobId, Job>, job: Job)
  {
    && after.Keys == before.Keys + {job.Id()}
    && after[job.Id()].(lastRun := job.lastRun) == job
    && (job.Id() in before ==> after[job.Id()].lastRun == before[job.Id()].lastRun)
    && after[job.Id()].lastRun.Some?
    && (forall id :: id in after && id != job.Id() ==> after[id] == before[id])
  }

  /** Installing one more parsed job extends a reconciliation by that job. */
  lemma ReconciledExtend(
    before: map<JobId, Job>, mid: map<JobId, Job>, after: map<JobId, Job>,
    added: map<JobId, Job>, job: Job)
    requires Reconciled(before, mid, added, {})
    requires InstalledOne(mid, after, job)
    requires job.lastRun.None?
    ensures Reconciled(before, after, added[job.Id() := job], {})
  {
    forall id | id in after
      ensures EntryReconciled(before, after, added[job.Id() := job], id)
    {
      if id != job.Id() {
        assert EntryReconciled(before, mid, added, id);
      } else if id in mid {
        assert EntryReconciled(before, mid, added, id);
      }
    }
  }

  /** The entry `id` has a last-run time seeded from `now`: `now` less the jitter of the
      period of a job that one of the first `upto` descriptors yields for `id`. */
  ghost predicate SeedOf(after: map<JobId, Job>, id: JobId, descs: seq<JobDescriptor>, ctx: ParseContext, upto: int, now: int)
    requires id in after
  {
    && after[id].lastRun.Some?
    && exists i :: 0 <= i < upto && i < |descs| && Yields(descs[i], ctx, id) &&
         IsJitter(now - after[id].lastRun.value, ParseJob(descs[i], ctx).value.value.period)
  }

  /** Every entry of `after` that `before` did not have was seeded from `now` by one of the
      first `upto` descriptors. */
  ghost predicate Seeded(before: map<JobId, Job>, after: map<JobId, Job>, descs: seq<JobDescriptor>, ctx: ParseContext, upto: int, now: int)
  {
    forall id {:trigger SeedOf(after, id, descs, ctx, upto, now)} ::
      id in after && id !in before ==> SeedOf(after, id, descs, ctx, upto, now)
  }

  /** Installing the job of descriptor `i`, seeded from `now` when it is new, keeps every new
      entry seeded by the descriptors up to and including `i`. */
  lemma SeededExtend(
    before: map<JobId, Job>, mid: map<JobId, Job>, after: map<JobId, Job>,
    descs: seq<JobDescriptor>, ctx: ParseContext, i: nat, now: int)
    requires i < |descs| && Yields(descs[i], ctx, descs[i].jobId)
    requires Seeded(before, mid, descs, ctx, i, now)
    requires var job := ParseJob(descs[i], ctx).value.value;
      && InstalledOne(mid, after, job)
      && (job.Id() !in mid ==> IsJitter(now - after[job.Id()].lastRun.value, job.period))
    ensures Seeded(before, after, descs, ctx, i + 1, now)
  {
    var job := ParseJob(descs[i], ctx).value.value;
    forall id | id in after && id !in before
      ensures SeedOf(after, id, descs, ctx, i + 1, now)
    {
      if id == job.Id() && id !in mid {
        assert Yields(descs[i], ctx, id);
      } else {
        assert SeedOf(mid, id, descs, ctx, i, now);
        assert after[id].lastRun == mid[id].lastRun;
        var w :| 0 <= w < i && w < |descs| && Yields(descs[w], ctx, id) &&
          IsJitter(now - mid[id].lastRun.value, ParseJob(descs[w], ctx).value.value.period);
      }
    }
  }

  /** Seeding survives deleting entries and counting more descriptors. */
  lemma SeededNarrow(
    before: map<JobId, Job>, big: map<JobId, Job>, small: map<JobId, Job>,
    descs: seq<JobDescriptor>, ctx: ParseContext, i: int, j: int, now: int)
    requires Seeded(before, big, descs, ctx, i, now)
    requires i <= j
    requires small.Keys <= big.Keys && forall id :: id in small ==> small[id] == big[id]
    ensures Seeded(before, small, descs, ctx, j, now)
  {
    forall id | id in small && id !in before
      ensures SeedOf(small, id, descs, ctx, j, now)
    {
      assert SeedOf(big, id, descs, ctx, i, now);
    }
  }

  /** When every descriptor yielding a job for `id` agrees on its period (in particular when
      only one does), a new entry of a reconciled and seeded registry was seeded with the
      jitter of its own period: with a positive period its last run lies in
      (now - period, now]. */
  lemma SeededWithOwnPeriod(
    before: map<JobId, Job>, after: map<JobId, Job>, descs: seq<JobDescriptor>, ctx: ParseContext,
    removed: set<JobId>, now: int, id: JobId)
    requires Reconciled(before, after, ParsedJobs(descs, ctx), removed)
    requires Seeded(before, after, descs, ctx, |descs|, now)
    requires id in after && id !in before
    requires forall i, l :: 0 <= i < |descs| && 0 <= l < |descs| && Yields(descs[i], ctx, id) && Yields(descs[l], ctx, id) ==>
      ParseJob(descs[i], ctx).value.value.period == ParseJob(descs[l], ctx).value.value.period
    ensures after[id].lastRun.Some?
    ensures IsJitter(now - after[id].lastRun.value, after[id].period)
    ensures after[id].period > 0 ==> now - after[id].period < after[id].lastRun.value <= now
  {
    assert EntryReconciled(before, after, ParsedJobs(descs, ctx), id);
    assert SeedOf(after, id, descs, ctx, |descs|, now);
    ParsedJobsKeys(descs, ctx);
    var l :| 0 <= l < |descs| && Yields(descs[l], ctx, id) &&
      ParsedJobs(descs, ctx)[id] == ParseJob(descs[l], ctx).value.value;
    var w :| 0 <= w < |descs| && Yields(descs[w], ctx, id) &&
      IsJitter(now - after[id].lastRun.value, ParseJob(descs[w], ctx).value.value.period);
  }

  /** Deleting identifiers that were not installed from a reconciled registry gives the
      registry reconciled with those deletions. */
  lemma RemovingObsoleteKeepsReconciled(
    before: map<JobId, Job>, installed: map<JobId, Job>, after: map<JobId, Job>,
    added: map<JobId, Job>, removed: set<JobId>)
    requires Reconciled(before, installed, added, {})
    requires removed !! added.Keys
    requires after == installed - removed
    ensures Reconciled(before, after, added, removed)
  {
    forall id | id in after
      ensures EntryReconciled(before, after, added, id)
    {
      assert EntryReconciled(before, installed, added, id);
    }
  }

  /** Diff correctness: the obsolete identifiers are exactly the old identifiers that the new
      list does not mention. */
  lemma {:induction false} ObsoleteIsDifference(oldDescs: seq<JobDescriptor>, applied: set<JobId>)
    ensures ObsoleteSet(oldDescs, applied) == JobIds(oldDescs) - applied
  {
    if oldDescs != [] {
      var n := |oldDescs| - 1;
      ObsoleteIsDifference(oldDescs[..n], applied);
      var tail := if oldDescs[n].jobId in applied then [] else [oldDescs[n].jobId];
      assert Obsolete(oldDescs, applied) == Obsolete(oldDescs[..n], applied) + tail;
      assert ObsoleteSet(oldDescs, applied) == ObsoleteSet(oldDescs[..n], applied) + (set id | id in tail);
    }
  }

  /** A job the new list installs, or skips, is never deleted by the same reconciliation. */
  lemma ObsoleteSparesApplied(oldDescs: seq<JobDescriptor>, descs: seq<JobDescriptor>, ctx: ParseContext)
    ensures ObsoleteSet(oldDescs, JobIds(descs)) !! JobIds(descs)
    ensures ObsoleteSet(oldDescs, JobIds(descs)) !! ParsedJobs(descs, ctx).Keys
  {
    ParsedJobsShape(descs, ctx);
    ObsoleteIsDifference(oldDescs, JobIds(descs));
  }

  /** Re-applying the job list that is already configured deletes nothing. */
  lemma ReapplyDeletesNothing(descs: seq<JobDescriptor>)
    ensures Obsolete(descs, JobIds(descs)) == []
  {
    JobIdsMembers(descs);
    NothingObsoleteWhenCovered(descs, JobIds(descs));
  }

  /** When every old identifier is applied again, nothing is obsolete. */
  lemma {:induction false} NothingObsoleteWhenCovered(oldDescs: seq<JobDescriptor>, applied: set<JobId>)
    requires forall i :: 0 <= i < |oldDescs| ==> oldDescs[i].jobId in applied
    ensures Obsolete(oldDescs, applied) == []
  {
    if oldDescs != [] {
      NothingObsoleteWhenCovered(oldDescs[..|oldDescs| - 1], applied);
    }
  }

  /**
   * Reload idempotence: when the registry already holds exactly the jobs the unchanged
   * list yields, reconciling against that list keeps the same identifiers and every
   * last-run time.
   */
  lemma ReapplyKeepsRegistry(
    before: map<JobId, Job>, after: map<JobId, Job>, descs: seq<JobDescriptor>, ctx: ParseContext)
    requires before.Keys == ParsedJobs(descs, ctx).Keys
    requires Reconciled(before, after, ParsedJobs(descs, ctx), ObsoleteSet(descs, JobIds(descs)))
    ensures after.Keys == before.Keys
    ensures forall id :: id in after ==> after[id].lastRun == before[id].lastRun
  {
    ReapplyDeletesNothing(descs);
    assert ObsoleteSet(descs, JobIds(descs)) == {};
    forall id | id in after
      ensures after[id].lastRun == before[id].lastRun
    {
      assert EntryReconciled(before, after, ParsedJobs(descs, ctx), id);
    }
  }

  /**
   * After a complete reconciliation from the list `oldDescs` to the list `descs`, the
   * registry holds the old entries minus exactly the old identifiers the new list does not
   * mention, plus the jobs the new list yields.
   */
  lemma DiffCorrect(
    before: map<JobId, Job>, after: map<JobId, Job>,
    oldDescs: seq<JobDescriptor>, descs: seq<JobDescriptor>, ctx: ParseContext)
    requires Reconciled(before, after, ParsedJobs(descs, ctx), ObsoleteSet(oldDescs, JobIds(descs)))
    ensures after.Keys == (before.Keys + ParsedJobs(descs, ctx).Keys) - (JobIds(oldDescs) - JobIds(descs))
    ensures forall id :: id in JobIds(oldDescs) && id !in JobIds(descs) ==> id !in after
    ensures forall id :: id in before && id !in (JobIds(oldDescs) - JobIds(descs)) ==> id in after
  {
    ObsoleteIsDifference(oldDescs, JobIds(descs));
  }
}
