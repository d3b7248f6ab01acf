# network-problem-detector agent core, modelled in Dafny

This project models three sequential pieces of the network problem detector.

- **The agent server's job registry and its reconciliation with the agent configuration**
  (`pkg/agent/server.go`). The server is modelled as the class `Agent.Server`. Its fields
  are the job map, the current agent and cluster configurations, the observation writer's
  settings, the aggregator's valid edges, and a log of the metric evictions it triggered.
  - `addOrReplaceJob`, `deleteJob`, `applyAgentConfig` and `reloadConfig` are methods that
    update those fields in place.
  - `getNetworkCfg` and `parseJob` are pure functions (`Config.NetworkCfg`, `Jobs.ParseJob`).
  - What a reconciliation does to the registry is specified by the predicate
    `Jobs.Reconciled`. The lemmas of module `Jobs` state its consequences.
- **The query-time windowing of `GetAggregatedObservations`** (`pkg/agent/server.go`). The
  method walks the listed observations and buckets them into fixed-width windows per
  (source, destination) edge. Per job it keeps ok and not-ok counts and a mean ok duration.
  - The method is proved against an independent reference definition. `Collect` and
    `Expected` give the entry each (window, edge) pair must have, and `Keys` gives the pairs
    the observations fall into.
  - The laws at the end of module `Aggregation` state what the response means: window
    bounds, coverage, tallies and the mean.
- **The cluster topology builder `BuildClusterConfig`** (`pkg/deploy/clusterconfig.go`).
  - It filters the nodes, applies the hostname fallback and filters the agent pods.
  - It sorts both lists in place. Here the sort is an array insertion sort (`Sorting.SortBy`)
    with the comparators of the source, and `strings.Compare` is `Strings.Compare`.

Times and durations are integer nanoseconds. Go's `/` on durations and `Milliseconds()`
truncate toward zero; `Aggregation.TruncDiv` models that. A Go map's iteration order is not
specified, so the flush of the open windows picks its next edge nondeterministically (`:|`),
and its contract holds for every order.

## Model

| member | source | states |
|---|---|---|
| Config.NetworkCfgSelects | pkg/agent/server.go:75-85 | the network configuration used is the one configured for the host-network or pod-network mode, or the empty configuration when there is no agent configuration or no entry for the mode; a non-empty job list always comes from the agent configuration |
| Jobs.DefaultPeriod | pkg/agent/server.go:186-189 | the period handed to the probe constructor is the network configuration's default period unless it is zero, and one second otherwise; it is never zero |
| Jobs.ParseJob | pkg/agent/server.go:180-206 | an empty argument list fails with "no job args"; otherwise parsing fails exactly when the constructor fails, with the message "invalid job <id>: <constructor error>", yields no job exactly when the constructor skips, and otherwise yields a job with the descriptor's identity, the runner's period and destination hosts, and no last-run time |
| Jobs.FirstFailure | pkg/agent/server.go:137-141 | the index where the job loop stops: every descriptor before it parses, and the descriptor at it (if any) fails |
| Jobs.ParsedJobsShape | pkg/agent/server.go:142-148 | every installed job is filed under its own identifier, that identifier is in `applied`, and the job carries no last-run time until the registry seeds one |
| Jobs.ParsedJobsKeys | pkg/agent/server.go:137-148 | an identifier is installed exactly when some descriptor of the list yields a job for it, and its entry is the job one of those descriptors yields |
| Jobs.ParsedJobsLast | pkg/agent/server.go:142-144 | the entry of an identifier is the job of the last descriptor that yields one for it, since each later add replaces the earlier job |
| Jobs.JobIdsMembers | pkg/agent/server.go:148 | `applied` holds exactly the identifiers of the new job list, including those of descriptors that yielded no job |
| Jobs.DestHostsMembers | pkg/agent/server.go:142-146 | the valid destination hosts are exactly the destination hosts of the jobs the new list yields |
| Jobs.ReconciledExtend | pkg/agent/server.go:142-144 | adding or replacing one more parsed job extends a reconciliation in progress by that job |
| Jobs.SeededExtend | pkg/agent/server.go:142-144 | adding the job of one more descriptor keeps every job that was not registered before the apply seeded from `now` by a descriptor installed so far: a replaced entry keeps its seed, a new one is seeded by this descriptor |
| Jobs.SeededNarrow | pkg/agent/server.go:151-159 | deleting entries keeps the remaining new jobs seeded |
| Jobs.SeededWithOwnPeriod | pkg/agent/server.go:213-219 | when every descriptor of an identifier agrees on the period (in particular when the identifier occurs once), a job new to the registry after an apply has its last run within one period before `now`: (now - period, now] for a positive period |
| Jobs.RemovingObsoleteKeepsReconciled | pkg/agent/server.go:151-159 | deleting identifiers that were not installed completes the reconciliation and leaves the installed jobs in place |
| Jobs.ObsoleteIsDifference | pkg/agent/server.go:151-159 | the deleted identifiers are exactly the previously configured identifiers that are not in `applied` |
| Jobs.ObsoleteSparesApplied | pkg/agent/server.go:148-155 | no identifier of the new list, and no job it installed, is deleted |
| Jobs.ReapplyDeletesNothing | pkg/agent/server.go:151-159 | reapplying the same job list deletes nothing |
| Jobs.NothingObsoleteWhenCovered | pkg/agent/server.go:151-159 | when every old identifier is applied, nothing is deleted |
| Jobs.ReapplyKeepsRegistry | pkg/agent/server.go:135-159 | reconciling a registry that already holds exactly the jobs of an unchanged list keeps the same identifiers and every last-run time |
| Jobs.DiffCorrect | pkg/agent/server.go:135-159 | after a complete reconciliation the registry holds the old entries plus the newly parsed jobs, minus exactly the old identifiers the new list no longer mentions |
| Agent.Server.constructor | pkg/agent/server.go:58-109 | a new server has an empty registry, no configurations and no writer; it has an aggregator that has received no valid edges yet when `setup` created one |
| Agent.Server.AddOrReplaceJob | pkg/agent/server.go:208-222 | a job replacing one with the same identifier inherits its last-run time; a new job's last-run time is now minus a fraction in [0, 1) of its period, so it lies in (now - period, now] for a positive period; no other entry changes |
| Agent.Server.DeleteJob | pkg/agent/server.go:233-242 | the entry is removed if present, the registry is unchanged otherwise, and no error is returned |
| Agent.Server.ApplyAgentConfig | pkg/agent/server.go:114-178 | a failed clone changes nothing; a failed writer construction leaves the new configuration installed and nothing else changed; a parse error stops the apply with the earlier jobs installed and nothing deleted; a complete apply installs every parsed job, deletes exactly the obsolete identifiers, records the eviction, and gives the aggregator the applied jobs and valid hosts; in both cases every job new to the registry has a last run seeded from `now` with the jitter of a job of its identifier |
| Agent.Server.RetireObsolete | pkg/agent/server.go:151-168 | exactly the obsolete identifiers are deleted and every other entry is kept, the eviction of their metrics and of edges to invalid hosts is recorded, and an existing aggregator receives the applied jobs and valid hosts |
| Agent.Server.InstallJobs | pkg/agent/server.go:135-149 | the loop fails exactly at the first descriptor that does not parse, with that error and the earlier jobs installed; otherwise it returns `applied`, the valid destination hosts and the registry reconciled with every parsed job; every job new to the registry is seeded from `now` by a descriptor it installed |
| Agent.Server.InstallNext | pkg/agent/server.go:137-148 | one iteration of the job loop keeps the registry reconciled with the jobs parsed so far and extends `applied` and the valid hosts by the descriptor, keeping every new job seeded from `now` |
| Agent.Server.DeleteObsolete | pkg/agent/server.go:151-159 | the old identifiers not in `applied` are listed in configured order and deleted, and no other entry changes |
| Agent.Server.ReloadConfig | pkg/agent/server.go:352-379 | a failed load changes nothing; when both loaded configurations equal the current ones nothing changes; otherwise the cluster configuration is replaced before the agent configuration is applied, and it is not restored when the apply fails |
| Aggregation.TruncDiv | pkg/agent/server.go:283-296 | Go's integer division of durations: the quotient truncates toward zero, so the remainder is smaller in magnitude than the divisor and is zero or has the dividend's sign |
| Aggregation.FirstWindow | pkg/agent/server.go:281-289 | the first window starts at the first observation's timestamp unless the request gives a start; without a start the first observation lies in the first window, and with a start it does when its timestamp is before the start plus one width |
| Aggregation.AggregationWidth | pkg/agent/server.go:282-285 | the window width is the requested window when its whole milliseconds exceed 30000, and one minute otherwise; it always exceeds 30 seconds |
| Aggregation.CatchUp | pkg/agent/server.go:304-308 | the inner loop only moves the window forward, stops with the timestamp before the window's end, and moves only as far as needed to reach the timestamp |
| Aggregation.Add | pkg/agent/server.go:324-336 | recording an observation keeps the entry's edge and window and keeps the entry well formed |
| Aggregation.CountAdd | pkg/agent/server.go:324-336 | an observation increments its own job's ok count (absent counting as zero) when it is ok and that job's not-ok count otherwise, leaves every other job's counts unchanged, and so raises the total by one |
| Aggregation.Finalize | pkg/agent/server.go:293-299 | the flush keeps an entry's edge, window and counts, and has a mean exactly for the jobs that had a duration sum |
| Aggregation.Collect | pkg/agent/server.go:310-336 | the reference entry of a window and edge has that window's start and end and that edge; every count it holds is at least one, and only jobs with an ok count have a duration |
| Aggregation.AddAggregations | pkg/agent/server.go:292-302 | the flush appends every open entry, finalized, once per edge, in any order, after the entries already emitted, and it adds their counts to the total |
| Aggregation.CatchUpWhole | pkg/agent/server.go:304-308 | the inner loop moves the window by a whole number of widths |
| Aggregation.FrontWhole | pkg/agent/server.go:303-308 | the open window's start is always the first start plus a whole number of widths |
| Aggregation.TimesIsProduct | pkg/agent/server.go:304-308 | the whole number of widths counted by repeated addition is the product of that number and the width |
| Aggregation.FrontsApart | pkg/agent/server.go:303-308 | two open windows with different starts are at least one width apart |
| Aggregation.CoveredApart | pkg/agent/server.go:292-308 | every emitted entry starts at the first start plus a whole number of widths, and entries with different starts are at least one width apart |
| Aggregation.CloseWindow | pkg/agent/server.go:304-308 | one turn of the inner loop flushes the open window and opens the next, keeping the windowing invariant |
| Aggregation.Place | pkg/agent/server.go:303-337 | one observation is placed in the window the inner loop reaches and recorded in its edge's entry, keeping the windowing invariant |
| Aggregation.GetAggregatedObservations | pkg/agent/server.go:272-343 | a listing error is returned; an empty listing gives an empty response; otherwise each entry is the reference entry of its window and edge, entries are in non-decreasing start order with no (window, edge) pair twice, the pairs are exactly those of the observations, and the counts total the number of observations |
| Aggregation.Aggregate | pkg/agent/server.go:289-342 | the loop over a non-empty listing yields the windowed response |
| Aggregation.FinalFlush | pkg/agent/server.go:338 | the last flush completes the response |
| Aggregation.FrontMono | pkg/agent/server.go:303-308 | the open window's start never decreases |
| Aggregation.WindowBounds | pkg/agent/server.go:286-289 | every observation's window starts no earlier than the first window and ends after the observation's timestamp |
| Aggregation.FrontBehind | pkg/agent/server.go:303-308 | on a listing in timestamp order, the open window is either still the first one or starts no later than the latest observation |
| Aggregation.WindowContains | pkg/agent/server.go:303-317 | on a listing in timestamp order, an observation at or after the first start lies in its window: start <= timestamp < end |
| Aggregation.KeysMeaning | pkg/agent/server.go:310-318 | a (window, edge) pair is in the response exactly when some observation of that edge was placed in that window |
| Aggregation.WindowedCoverage | pkg/agent/server.go:303-343 | every emitted entry spans exactly one width and starts a whole number of widths after the first start, entries with different starts do not overlap, every entry comes from some observation, and every observation is counted in some entry |
| Aggregation.CollectOkTally | pkg/agent/server.go:324-325 | a job's ok count in a window and edge is present exactly when it is positive, and then it is the number of its ok observations there |
| Aggregation.CollectNotOkTally | pkg/agent/server.go:334-335 | a job's not-ok count is present exactly when it is positive, and then it is the number of its failed observations there |
| Aggregation.CollectDurations | pkg/agent/server.go:326-333 | a job's duration sum is present exactly when some ok observation of it carried a duration, and it is the sum of those durations |
| Aggregation.TimedMeaning | pkg/agent/server.go:326-333 | a job has a timed observation in a window and edge exactly when some ok observation of it there carries a duration |
| Aggregation.ExpectedTallies | pkg/agent/server.go:293-299 | in the response, the ok and not-ok counts are the observation tallies; the mean is present exactly when some ok observation carried a duration, and then it is the duration sum divided, truncating, by the ok count, including untimed ok observations |
| Strings.Compare | pkg/deploy/clusterconfig.go:71 | the comparison returns -1, 0 or 1, and 0 exactly on equal strings |
| Strings.CompareAntisymmetric | pkg/deploy/clusterconfig.go:71 | swapping the arguments negates the result |
| Strings.CompareTransitive | pkg/deploy/clusterconfig.go:71 | "less than" is transitive |
| Sorting.SortBy | pkg/deploy/clusterconfig.go:70-79 | for a strict weak order, the array ends up sorted and is a permutation of its old contents |
| Sorting.Insert | pkg/deploy/clusterconfig.go:70-79 | element `i` moves into the sorted prefix before it, which then stays sorted through `i`, the elements after `i` are untouched, and the array is a permutation of its old contents |
| Deploy.LastAddressAbsent | pkg/deploy/clusterconfig.go:34-43 | without an address of a type, the result for that type is the empty string |
| Deploy.LastAddressIsLast | pkg/deploy/clusterconfig.go:36-43 | the address of the last entry of a type is the result for that type |
| Deploy.LastAddressFound | pkg/deploy/clusterconfig.go:36-43 | a non-empty result is the address of an entry of that type after which no entry has that type |
| Deploy.ScanAddresses | pkg/deploy/clusterconfig.go:34-43 | the hostname and IP the address switch ends with are the last Hostname and last InternalIP addresses |
| Deploy.NodeEntry | pkg/deploy/clusterconfig.go:44-54 | a node yields an entry exactly when its last InternalIP address is non-empty; the entry's IP is that address, and its hostname is the last Hostname address, or the node name when that is empty |
| Deploy.PodEntry | pkg/deploy/clusterconfig.go:59-67 | a pod yields an endpoint exactly when it is running on one of the kept hostnames |
| Deploy.SelectedNodesMembers | pkg/deploy/clusterconfig.go:32-56 | a node entry is in the list exactly when some node yields it |
| Deploy.SelectedPodsMembers | pkg/deploy/clusterconfig.go:58-68 | a pod endpoint is in the list exactly when some running pod on a kept hostname has that node name, pod name and pod IP, and the port is the pod HTTP port |
| Deploy.NodeLessIsStrictWeakOrder | pkg/deploy/clusterconfig.go:70-72 | ordering nodes by hostname is a strict weak order |
| Deploy.PodCompareAntisymmetric | pkg/deploy/clusterconfig.go:73-79 | swapping two pod endpoints negates their comparison |
| Deploy.PodCompareTransitive | pkg/deploy/clusterconfig.go:73-79 | the pod comparison's "less than" is transitive |
| Deploy.PodLessIsStrictWeakOrder | pkg/deploy/clusterconfig.go:73-79 | ordering pod endpoints by node name, then pod name, is a strict weak order |
| Deploy.SortedCopy | pkg/deploy/clusterconfig.go:70-79 | a slice sorted in place is sorted and a permutation of the slice |
| Deploy.BuildClusterConfig | pkg/deploy/clusterconfig.go:20-83 | it never fails; the nodes are the kept node entries sorted by hostname; the pod endpoints are the kept endpoints sorted by node name and then pod name; each list is a permutation of the filtered input; the node count is the length of the node list; both API server endpoints pass through unchanged |

## Left out

- The `run` event loop is not modelled: the channel `select`, OS signals, the file watcher, the ticker and the `go s.reloadConfig()` call. It is concurrency and I/O.
- The locks `lock` and `reloadLock` are not modelled. Every registry operation is an atomic sequential method.
- `setup` is not modelled beyond the aggregator's presence, which the constructor takes as a flag. The gRPC server and writer start-up are I/O.
- The second, delayed metric cleanup of `applyAgentConfig` is not modelled: a goroutine sleeps one minute and then repeats the eviction. The immediate eviction is recorded as an `Eviction` value. The metric registry itself is foreign code.
- The observation writer is reduced to the settings it is created with. Whether `db.NewObsWriter` succeeds is an input.
- The aggregator is reduced to the valid edges it receives.
- `GetObservations` is plain delegation to the writer's listing. `GetAggregatedObservations` takes the listing's result as input.
- `runners.Parse` is foreign probe code. It is the function-typed parameter `Parser`, returning a runner, "skip" or an error.
- `runners.NewInternalJob`, `InternalJob.Tick` and `triggerJobs` run the probes and are not modelled.
- `rand.Float64` is not modelled. The jitter of a new job is any offset that is a fraction in [0, 1) of its period, chosen nondeterministically.
- `time.Now()` is the parameter `now`. One `now` serves every `addOrReplaceJob` of an apply, while the source reads the clock once per new job (pkg/agent/server.go:217), so the model does not capture the clock advancing during an apply.
- The aggregator's initial valid edges `ValidEdges({}, {}, {})` stand for an aggregator that has not received any valid edges yet.
- Loading the configuration files, `Clone` and `reflect.DeepEqual` are not modelled. Load results and clone success are inputs. Equality is structural equality of the configuration values.
- `GetAPIServerEndpointFromShootInfo` is not modelled. It performs a DNS lookup.
- Logging is not modelled: `logStart`, the logger calls, and the "starting"/"restarting" prefix of `addOrReplaceJob`.
- `common.PodNetPodHTTPPort`: the constant is not part of this model. `Deploy.BuildClusterConfig` takes it as the parameter `podHTTPPort`.
- `getNetworkCfg` reads the agent package's `hostNetwork` variable, not a server field. The model holds it as the server's constant `hostNetwork`.
- Aggregation.CountAdd: the int32 counters are unbounded, so wrap-around after 2^31 - 1 observations of one job in one window is not modelled.
- Aggregation.CollectDurations: duration sums are unbounded integers, so the int64 wrap-around of `dur +=` (pkg/agent/server.go:331), reached only past about 292 years of summed durations, is not modelled.
- Aggregation.WindowContains: it is stated only for listings in timestamp order. On an unsorted listing, an observation earlier than the open window is counted in the open window, exactly as the loop does.
- The aggregated entries are pointers in the source and values here. The flush finalizes an entry as it appends it, and nothing else refers to the entry afterwards, so no aliasing is lost.
- Sorting.SortBy: `sort.Slice`'s algorithm is replaced by an insertion sort. The contract is the one `sort.Slice` gives: sorted and a permutation. `sort.Slice` is not stable, so the model does not fix the order of equal elements.
