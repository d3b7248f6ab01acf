/**
 * The agent server's job registry and configuration reconciliation. The server is an
 * object whose fields the operations update in place; locking is left out, so every
 * operation is an atomic sequential method.
 */
module Agent {
  import opened Wrappers
  import opened Config
  import opened Jobs

  /** The settings the observation writer was created with. */
  datatype WriterSettings = WriterSettings(outputDir: string, prefix: string, retentionHours: int)

  /** The identifiers and hosts the streaming aggregator currently considers valid. */
  datatype ValidEdges = ValidEdges(jobIds: set<JobId>, srcHosts: set<string>, destHosts: set<string>)

  /** One immediate call of the metric eviction functions, with their arguments. */
  datatype Eviction = Eviction(obsoleteJobIds: seq<JobId>, validDestHosts: set<string>)

  /** A snapshot of every field of the server that the operations below update. */
  datatype ServerState = ServerState(
    jobs: map<JobId, Job>,
    currentAgentConfig: Option<AgentConfig>,
    currentClusterConfig: Option<ClusterConfig>,
    writer: Option<WriterSettings>,
    aggregator: Option<ValidEdges>,
    evictions: seq<Eviction>)

  /** What reloadConfig did, as it reports it in its log. */
  datatype ReloadStatus = LoadFailed | NoReloadNeeded | ConfigurationApplied | ApplyFailed(error: string)

  /** Whether applying `cfg` has to create the observation writer first. */
  predicate NeedsWriter(s: ServerState, cfg: AgentConfig)
  {
    cfg.outputDir != "" && s.writer.None?
  }

  /** The context parseJob works in once `cfg` is installed. */
  function ApplyContext(s: ServerState, cfg: AgentConfig, hostNetwork: bool, parse: Parser): ParseContext
  {
    ParseContext(NetworkCfg(Some(cfg), hostNetwork), s.currentClusterConfig, parse)
  }

  /**
   * The state applyAgentConfig leaves behind, starting from `s0`, with `err` its result.
   * A failed clone changes nothing. Otherwise the new configuration is installed and the
   * writer is created if needed (a failure there stops the apply). The job list is then
   * walked in order: a descriptor that fails to parse stops the apply with the jobs before
   * it installed and nothing deleted; when all parse, exactly the obsolete identifiers are
   * deleted, the eviction is recorded and the aggregator learns the new valid edges.
   * Every new job has a last-run time seeded from `now`.
   */
  ghost predicate ApplyOutcome(
    s0: ServerState, s1: ServerState, hostNetwork: bool,
    cfg: AgentConfig, parse: Parser, cloneOk: bool, writerOk: bool, now: int, err: Option<string>)
  {
    var nc := NetworkCfg(Some(cfg), hostNetwork);
    var prefix := if nc.dataFilePrefix != "" then nc.dataFilePrefix else "agent";
    if !cloneOk then
      err.Some? && s1 == s0
    else if NeedsWriter(s0, cfg) && !writerOk then
      err.Some? && s1 == s0.(currentAgentConfig := Some(cfg))
    else
      && s1.currentAgentConfig == Some(cfg)
      && s1.currentClusterConfig == s0.currentClusterConfig
      && s1.writer == (if NeedsWriter(s0, cfg) then Some(WriterSettings(cfg.outputDir, prefix, cfg.retentionHours)) else s0.writer)
      && JobsApplied(s0, s1, NetworkCfg(s0.currentAgentConfig, hostNetwork).jobs, nc.jobs,
                     ApplyContext(s0, cfg, hostNetwork, parse), now, err)
  }

  /**
   * The job-list part of applyAgentConfig: a descriptor that fails to parse stops the
   * apply with the jobs before it installed and nothing deleted; when all parse, exactly
   * the obsolete identifiers are deleted, the eviction is recorded and the aggregator
   * learns the new valid edges. A job that was not registered before is seeded from `now`
   * by one of the descriptors installed.
   */
  ghost predicate JobsApplied(
    s0: ServerState, s1: ServerState, oldDescs: seq<JobDescriptor>, descs: seq<JobDescriptor>,
    ctx: ParseContext, now: int, err: Option<string>)
  {
    var k := FirstFailure(descs, ctx);
    && Seeded(s0.jobs, s1.jobs, descs, ctx, k, now)
    && if k < |descs| then
      && err == Some(ParseJob(descs[k], ctx).error)
      && Reconciled(s0.jobs, s1.jobs, ParsedJobs(descs[..k], ctx), {})
      && s1.aggregator == s0.aggregator
      && s1.evictions == s0.evictions
    else
      var applied := JobIds(descs);
      var hosts := DestHosts(descs, ctx);
      && err.None?
      && Reconciled(s0.jobs, s1.jobs, ParsedJobs(descs, ctx), ObsoleteSet(oldDescs, applied))
      && s1.aggregator == (if s0.aggregator.Some? then Some(ValidEdges(applied, hosts, hosts)) else None)
      && s1.evictions == s0.evictions + [Eviction(Obsolete(oldDescs, applied), hosts)]
  }

  /** The entry `id` is filed under its job's own identifier and has a last-run time. */
  ghost predicate Filed(jobs: map<JobId, Job>, id: JobId)
    requires id in jobs
  {
    jobs[id].Id() == id && jobs[id].lastRun.Some?
  }

  class Server {
    /** The agent package's hostNetwork flag, which getNetworkCfg consults. */
    const hostNetwork: bool
    var jobs: map<JobId, Job>
    var currentAgentConfig: Option<AgentConfig>
    var currentClusterConfig: Option<ClusterConfig>
    var writer: Option<WriterSettings>
    var aggregator: Option<ValidEdges>
    var evictions: seq<Eviction>

    /** Every registered job is filed under its own identifier and has a last-run time. */
    ghost predicate Valid()
      reads this
    {
      forall id {:trigger Filed(jobs, id)} :: id in jobs ==> Filed(jobs, id)
    }

    function State(): ServerState
      reads this
    {
      ServerState(jobs, currentAgentConfig, currentClusterConfig, writer, aggregator, evictions)
    }

    /** newServer, followed by the aggregator construction of setup when `withAggregator`. */
    constructor (hostNetwork: bool, withAggregator: bool)
      ensures Valid()
      ensures this.hostNetwork == hostNetwork
      ensures State() == ServerState(map[], None, None, None,
                                     if withAggregator then Some(ValidEdges({}, {}, {})) else None, [])
    {
      this.hostNetwork := hostNetwork;
      jobs := map[];
      currentAgentConfig := None;
      currentClusterConfig := None;
      writer := None;
      aggregator := if withAggregator then Some(ValidEdges({}, {}, {})) else None;
      evictions := [];
    }

    /**
     * addOrReplaceJob: a job replacing one with the same identifier inherits its last-run
     * time; a new job gets a last-run time `now - f * period` for a random f in [0, 1).
     * No other entry changes.
     */
    method AddOrReplaceJob(job: Job, now: int)
      requires Valid()
      modifies this`jobs
      ensures Valid()
      ensures InstalledOne(old(jobs), jobs, job)
      ensures job.Id() !in old(jobs) ==> IsJitter(now - jobs[job.Id()].lastRun.value, job.period)
      ensures job.Id() !in old(jobs) && job.period > 0 ==>
        now - job.period < jobs[job.Id()].lastRun.value <= now
    {
      var id := job.Id();
      ghost var before := jobs;
      if id in jobs {
        assert Filed(jobs, id);
        jobs := jobs[id := job.(lastRun := jobs[id].lastRun)];
      } else {
        var offset: int;
        if job.period > 0 {
          offset :| 0 <= offset < job.period;
        } else if job.period < 0 {
          offset :| job.period < offset <= 0;
        } else {
          offset := 0;
        }
        assert IsJitter(offset, job.period);
        jobs := jobs[id := job.(lastRun := Some(now - offset))];
      }
      forall k | k in jobs
        ensures Filed(jobs, k)
      {
        if k != id {
          assert Filed(before, k);
        }
      }
    }

    /** deleteJob: removes the entry if there is one, and never fails. */
    method DeleteJob(id: JobId) returns (err: Option<string>)
      requires Valid()
      modifies this`jobs
      ensures Valid()
      ensures err.None?
      ensures jobs == old(jobs) - {id}
      ensures id !in old(jobs) ==> jobs == old(jobs)
    {
      if id in jobs {
        ghost var before := jobs;
        jobs := jobs - {id};
        forall k | k in jobs
          ensures Filed(jobs, k)
        {
          assert Filed(before, k);
        }
      }
      return None;
    }

    /**
     * applyAgentConfig, with the outcome of the configuration clone (`cloneOk`) and of the
     * writer construction (`writerOk`) as inputs and `now` the current time.
     */
    method ApplyAgentConfig(cfg: AgentConfig, parse: Parser, cloneOk: bool, writerOk: bool, now: int)
      returns (err: Option<string>)
      requires Valid()
      modifies this
      ensures Valid()
      ensures ApplyOutcome(old(State()), State(), hostNetwork, cfg, parse, cloneOk, writerOk, now, err)
    {
      ghost var s0 := State();
      var oldJobs := NetworkCfg(currentAgentConfig, hostNetwork).jobs;
      if !cloneOk {
        return Some("cannot clone agent configuration");
      }
      currentAgentConfig := Some(cfg);

      var networkCfg := NetworkCfg(currentAgentConfig, hostNetwork);
      if cfg.outputDir != "" && writer.None? {
        var prefix := "agent";
        if networkCfg.dataFilePrefix != "" {
          prefix := networkCfg.dataFilePrefix;
        }
        if !writerOk {
          return Some("cannot create observation writer");
        }
        writer := Some(WriterSettings(cfg.outputDir, prefix, cfg.retentionHours));
      }

      var ctx := ParseContext(networkCfg, currentClusterConfig, parse);
      assert ctx == ApplyContext(s0, cfg, hostNetwork, parse);
      var installErr, applied, validDestHosts := InstallJobs(networkCfg.jobs, ctx, now);
      if installErr.Some? {
        assert JobsApplied(s0, State(), oldJobs, networkCfg.jobs, ctx, now, installErr);
        return installErr;
      }
      assert FirstFailure(networkCfg.jobs, ctx) == |networkCfg.jobs|;
      ghost var installed := jobs;
      RetireObsolete(s0.jobs, oldJobs, networkCfg.jobs, ctx, applied, validDestHosts);
      SeededNarrow(s0.jobs, installed, jobs, networkCfg.jobs, ctx, |networkCfg.jobs|, |networkCfg.jobs|, now);
      assert JobsApplied(s0, State(), oldJobs, networkCfg.jobs, ctx, now, None);
      return None;
    }

    /**
     * The tail of a successful applyAgentConfig: the obsolete identifiers are deleted, the
     * eviction of their observations and of edges to hosts no longer valid is recorded, and
     * an aggregator, when there is one, learns the applied jobs and valid hosts.
     */
    method RetireObsolete(
      ghost before: map<JobId, Job>, oldDescs: seq<JobDescriptor>, descs: seq<JobDescriptor>,
      ctx: ParseContext, applied: set<JobId>, validDestHosts: set<string>)
      requires Valid()
      requires applied == JobIds(descs) && validDestHosts == DestHosts(descs, ctx)
      requires Reconciled(before, jobs, ParsedJobs(descs, ctx), {})
      modifies this`jobs, this`evictions, this`aggregator
      ensures Valid()
      ensures jobs == old(jobs) - ObsoleteSet(oldDescs, applied)
      ensures Reconciled(before, jobs, ParsedJobs(descs, ctx), ObsoleteSet(oldDescs, applied))
      ensures evictions == old(evictions) + [Eviction(Obsolete(oldDescs, applied), validDestHosts)]
      ensures aggregator == (if old(aggregator).Some? then Some(ValidEdges(applied, validDestHosts, validDestHosts)) else None)
    {
      ghost var installed := jobs;
      ObsoleteSparesApplied(oldDescs, descs, ctx);
      var obsoleteJobIds := DeleteObsolete(oldDescs, applied);
      RemovingObsoleteKeepsReconciled(before, installed, jobs, ParsedJobs(descs, ctx),
                                      ObsoleteSet(oldDescs, applied));
      evictions := evictions + [Eviction(obsoleteJobIds, validDestHosts)];
      if aggregator.Some? {
        aggregator := Some(ValidEdges(applied, validDestHosts, validDestHosts));
      }
    }

    /**
     * The loop of applyAgentConfig over the new job list: each descriptor is parsed, a job
     * it yields is added or replaced and its destination hosts become valid, and its
     * identifier is recorded as applied. The first parse error ends the loop.
     */
    method InstallJobs(descs: seq<JobDescriptor>, ctx: ParseContext, now: int)
      returns (err: Option<string>, applied: set<JobId>, validDestHosts: set<string>)
      requires Valid()
      modifies this`jobs
      ensures Valid()
      ensures var k := FirstFailure(descs, ctx);
        && (err.Some? <==> k < |descs|)
        && Seeded(old(jobs), jobs, descs, ctx, k, now)
        && (k < |descs| ==>
              err == Some(ParseJob(descs[k], ctx).error) &&
              Reconciled(old(jobs), jobs, ParsedJobs(descs[..k], ctx), {}))
        && (k == |descs| ==>
              applied == JobIds(descs) && validDestHosts == DestHosts(descs, ctx) &&
              Reconciled(old(jobs), jobs, ParsedJobs(descs, ctx), {}))
    {
      validDestHosts, applied := {}, {};
      for i := 0 to |descs|
        invariant Valid()
        invariant forall j :: 0 <= j < i ==> ParseJob(descs[j], ctx).Success?
        invariant applied == JobIds(descs[..i])
        invariant validDestHosts == DestHosts(descs[..i], ctx)
        invariant Reconciled(old(jobs), jobs, ParsedJobs(descs[..i], ctx), {})
        invariant Seeded(old(jobs), jobs, descs, ctx, i, now)
      {
        var j := descs[i];
        var parsed := ParseJob(j, ctx);
        if parsed.Failure? {
          assert FirstFailure(descs, ctx) == i;
          return Some(parsed.error), applied, validDestHosts;
        }
        applied, validDestHosts := InstallNext(old(jobs), descs, i, ctx, now, applied, validDestHosts);
      }
      assert descs[..|descs|] == descs;
      assert FirstFailure(descs, ctx) == |descs|;
      return None, applied, validDestHosts;
    }

    /** One iteration of the job loop of applyAgentConfig, for a descriptor that parsed. */
    method InstallNext(
      ghost before: map<JobId, Job>, descs: seq<JobDescriptor>, i: nat, ctx: ParseContext, now: int,
      applied: set<JobId>, validDestHosts: set<string>)
      returns (applied': set<JobId>, validDestHosts': set<string>)
      requires Valid()
      requires i < |descs| && ParseJob(descs[i], ctx).Success?
      requires applied == JobIds(descs[..i]) && validDestHosts == DestHosts(descs[..i], ctx)
      requires Reconciled(before, jobs, ParsedJobs(descs[..i], ctx), {})
      requires Seeded(before, jobs, descs, ctx, i, now)
      modifies this`jobs
      ensures Valid()
      ensures applied' == JobIds(descs[..i + 1]) && validDestHosts' == DestHosts(descs[..i + 1], ctx)
      ensures Reconciled(before, jobs, ParsedJobs(descs[..i + 1], ctx), {})
      ensures Seeded(before, jobs, descs, ctx, i + 1, now)
    {
      var parsed := ParseJob(descs[i], ctx);
      InstallStep(descs, i, ctx);
      validDestHosts' := validDestHosts;
      if parsed.value.Some? {
        var job := parsed.value.value;
        ghost var mid := jobs;
        AddOrReplaceJob(job, now);
        ReconciledExtend(before, mid, jobs, ParsedJobs(descs[..i], ctx), job);
        SeededExtend(before, mid, jobs, descs, ctx, i, now);
        validDestHosts' := validDestHosts + (set h | h in job.destHosts);
      } else {
        SeededNarrow(before, jobs, jobs, descs, ctx, i, i + 1, now);
      }
      applied' := applied + {descs[i].jobId};
    }

    /** The loop of applyAgentConfig over the previous job list: every identifier not in
        `applied` is recorded as obsolete and deleted. */
    method DeleteObsolete(oldDescs: seq<JobDescriptor>, applied: set<JobId>)
      returns (obsoleteJobIds: seq<JobId>)
      requires Valid()
      modifies this`jobs
      ensures Valid()
      ensures obsoleteJobIds == Obsolete(oldDescs, applied)
      ensures jobs == old(jobs) - ObsoleteSet(oldDescs, applied)
    {
      obsoleteJobIds := [];
      for i := 0 to |oldDescs|
        invariant Valid()
        invariant obsoleteJobIds == Obsolete(oldDescs[..i], applied)
        invariant jobs == old(jobs) - ObsoleteSet(oldDescs[..i], applied)
      {
        assert oldDescs[..i + 1][..i] == oldDescs[..i];
        if oldDescs[i].jobId !in applied {
          obsoleteJobIds := obsoleteJobIds + [oldDescs[i].jobId];
          // deleteJob never reports an error, so the error check that follows it is omitted
          var _ := DeleteJob(oldDescs[i].jobId);
        }
      }
      assert oldDescs[..|oldDescs|] == oldDescs;
    }

    /**
     * reloadConfig, with the results of loading the two configuration files as inputs.
     * Nothing changes when a load fails or both loaded configurations equal the current
     * ones; otherwise the cluster configuration is replaced first and then the agent
     * configuration is applied, and a failed apply does not restore the old cluster
     * configuration.
     */
    method ReloadConfig(
      loadedAgent: Result<AgentConfig, string>, loadedCluster: Result<ClusterConfig, string>,
      parse: Parser, cloneOk: bool, writerOk: bool, now: int)
      returns (status: ReloadStatus)
      requires Valid()
      modifies this
      ensures Valid()
      ensures loadedAgent.Failure? || loadedCluster.Failure? ==>
        status == LoadFailed && State() == old(State())
      ensures loadedAgent.Success? && loadedCluster.Success? &&
              old(currentClusterConfig) == Some(loadedCluster.value) &&
              old(currentAgentConfig) == Some(loadedAgent.value) ==>
        status == NoReloadNeeded && State() == old(State())
      ensures loadedAgent.Success? && loadedCluster.Success? &&
              (old(currentClusterConfig) != Some(loadedCluster.value) ||
               old(currentAgentConfig) != Some(loadedAgent.value)) ==>
        && (status == ConfigurationApplied || status.ApplyFailed?)
        && currentClusterConfig == Some(loadedCluster.value)
        && ApplyOutcome(old(State()).(currentClusterConfig := Some(loadedCluster.value)), State(),
                        hostNetwork, loadedAgent.value, parse, cloneOk, writerOk, now,
                        if status.ApplyFailed? then Some(status.error) else None)
    {
      if loadedAgent.Failure? || loadedCluster.Failure? {
        return LoadFailed;
      }
      var agentConfig, clusterConfig := loadedAgent.value, loadedCluster.value;
      var changed := Some(clusterConfig) != currentClusterConfig || Some(agentConfig) != currentAgentConfig;
      if !changed {
        return NoReloadNeeded;
      }
      currentClusterConfig := Some(clusterConfig);
      var err := ApplyAgentConfig(agentConfig, parse, cloneOk, writerOk, now);
      if err.Some? {
        return ApplyFailed(err.value);
      }
      return ConfigurationApplied;
    }
  }
}
