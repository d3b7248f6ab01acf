/**
 * Query-time aggregation of observations: GetAggregatedObservations walks the listed
 * observations, buckets them into consecutive windows of a fixed width and, inside a
 * window, into one aggregated observation per (source, destination) edge holding per-job
 * ok and not-ok counts and the mean ok duration. Times and durations are nanoseconds.
 */
module Aggregation {
  import opened Wrappers
  import opened Config

  datatype Edge = Edge(src: string, dest: string)

  /** The fields of an observation that the aggregation reads. */
  datatype Observation = Observation(
    srcHost: string, destHost: string, jobId: JobId, ok: bool,
    duration: Option<int>, timestamp: int)
  {
    function EdgeOf(): Edge { Edge(srcHost, destHost) }
  }

  /**
   * One window of one edge. While the window is open, `meanOkDuration` holds the sum of
   * the ok durations; the flush turns each sum into a mean.
   */
  datatype AggregatedObservation = AggregatedObservation(
    srcHost: string, destHost: string, periodStart: int, periodEnd: int,
    jobsOkCount: map<JobId, int>, jobsNotOkCount: map<JobId, int>,
    meanOkDuration: map<JobId, int>)
  {
    function EdgeOf(): Edge { Edge(srcHost, destHost) }
    function Key(): (int, Edge) { (periodStart, EdgeOf()) }
  }

  /**
   * Division of Go integers, which truncates toward zero: the remainder is smaller than the
   * divisor in magnitude and is zero or has the dividend's sign.
   */
  function TruncDiv(a: int, b: int): (q: int)
    requires b != 0
    ensures var r := a - q * b;
      && (if b > 0 then -b < r < b else b < r < -b)
      && (r == 0 || (r > 0 <==> a > 0))
  {
    if a >= 0 then (if b > 0 then a / b else -(a / -b))
    else (if b > 0 then -((-a) / b) else (-a) / (-b))
  }

  /**
   * The window width: the requested window when its whole number of milliseconds
   * exceeds 30000, otherwise one minute.
   */
  function AggregationWidth(window: Option<int>): (w: int)
    ensures w == (if window.Some? && window.value >= 30_001 * Millisecond then window.value else Minute)
    ensures w > 30 * Second
  {
    if window.Some? && TruncDiv(window.value, Millisecond) > 30000 then window.value else Minute
  }

  /** The first window starts at the request's start if there is one, else at the first timestamp. */
  function FirstStart(obs: seq<Observation>, requestStart: Option<int>): int
    requires obs != []
  {
    if requestStart.Some? then requestStart.value else obs[0].timestamp
  }

  /**
   * The inner loop of the windowing: starting from the window at `start`, move on by
   * whole widths until the window's end lies beyond `ts`.
   */
  function CatchUp(start: int, width: int, ts: int): (s: int)
    requires width > 0
    ensures start <= s && ts < s + width
    ensures s == start || s <= ts
    decreases ts - start
  {
    if ts < start + width then start else CatchUp(start + width, width, ts)
  }

  /** The number of whole widths CatchUp moves the window on. */
  function Steps(start: int, width: int, ts: int): nat
    requires width > 0
    decreases ts - start
  {
    if ts < start + width then 0 else 1 + Steps(start + width, width, ts)
  }

  /** `m` widths of `w`: m * w as repeated addition, which keeps the proofs about it linear. */
  function Times(m: nat, w: int): int {
    if m == 0 then 0 else Times(m - 1, w) + w
  }

  lemma {:induction false} TimesIsProduct(m: nat, w: int)
    ensures Times(m, w) == m * w
  {
    if m > 0 {
      TimesIsProduct(m - 1, w);
    }
  }

  lemma {:induction false} TimesAdd(a: nat, b: nat, w: int)
    ensures Times(a + b, w) == Times(a, w) + Times(b, w)
  {
    if b > 0 {
      TimesAdd(a, b - 1, w);
    }
  }

  /** With a positive width, more steps go strictly further, by at least one width. */
  lemma {:induction false} TimesGrows(a: nat, b: nat, w: int)
    requires w > 0 && a < b
    ensures Times(a, w) + w <= Times(b, w)
  {
    if a + 1 < b {
      TimesGrows(a, b - 1, w);
    }
  }

  /** The inner loop moves the window by a whole number of widths. */
  lemma {:induction false} CatchUpWhole(start: int, width: int, ts: int)
    requires width > 0
    ensures CatchUp(start, width, ts) == start + Times(Steps(start, width, ts), width)
    decreases ts - start
  {
    if ts >= start + width {
      CatchUpWhole(start + width, width, ts);
      TimesAdd(1, Steps(start + width, width, ts), width);
    }
  }

  /** The start of the open window after the first `n` observations have been placed. */
  function Front(obs: seq<Observation>, start0: int, width: int, n: nat): int
    requires width > 0 && n <= |obs|
  {
    if n == 0 then start0 else CatchUp(Front(obs, start0, width, n - 1), width, obs[n - 1].timestamp)
  }

  function Fresh(e: Edge, start: int, end: int): AggregatedObservation {
    AggregatedObservation(e.src, e.dest, start, end, map[], map[], map[])
  }

  function Inc(m: map<JobId, int>, k: JobId): map<JobId, int> {
    m[k := (if k in m then m[k] else 0) + 1]
  }

  /** Every count is positive and every duration sum belongs to a job with an ok count. */
  ghost predicate WellFormed(a: AggregatedObservation) {
    && (forall k :: k in a.jobsOkCount ==> a.jobsOkCount[k] >= 1)
    && (forall k :: k in a.jobsNotOkCount ==> a.jobsNotOkCount[k] >= 1)
    && (forall k :: k in a.meanOkDuration ==> k in a.jobsOkCount)
  }

  /** Records one observation in its edge's open window. */
  function Add(a: AggregatedObservation, o: Observation): (r: AggregatedObservation)
    ensures r.Key() == a.Key() && r.periodEnd == a.periodEnd
    ensures WellFormed(a) ==> WellFormed(r)
  {
    if o.ok then
      a.(jobsOkCount := Inc(a.jobsOkCount, o.jobId),
         meanOkDuration :=
           if o.duration.Some? then
             a.meanOkDuration[o.jobId := (if o.jobId in a.meanOkDuration then a.meanOkDuration[o.jobId] else 0) + o.duration.value]
           else a.meanOkDuration)
    else
      a.(jobsNotOkCount := Inc(a.jobsNotOkCount, o.jobId))
  }

  /** The flush of one entry: each duration sum becomes the sum divided by the job's ok count. */
  function Finalize(a: AggregatedObservation): (r: AggregatedObservation)
    requires WellFormed(a)
    ensures r.Key() == a.Key() && r.periodEnd == a.periodEnd
    ensures r.jobsOkCount == a.jobsOkCount && r.jobsNotOkCount == a.jobsNotOkCount
    ensures r.meanOkDuration.Keys == a.meanOkDuration.Keys
  {
    a.(meanOkDuration := map k | k in a.meanOkDuration :: TruncDiv(a.meanOkDuration[k], a.jobsOkCount[k]))
  }

  // ---------------------------------------------------------------------------------
  // Reference definitions: what the windowing computes, observation by observation.
  // ---------------------------------------------------------------------------------

  /** The open entry of edge `e` in the window starting at `s`, after `n` observations. */
  ghost function Collect(obs: seq<Observation>, start0: int, width: int, n: nat, s: int, e: Edge)
    : (a: AggregatedObservation)
    requires width > 0 && n <= |obs|
    ensures a.Key() == (s, e) && a.periodEnd == s + width && WellFormed(a)
  {
    if n == 0 then Fresh(e, s, s + width)
    else
      var a := Collect(obs, start0, width, n - 1, s, e);
      if Front(obs, start0, width, n) == s && obs[n - 1].EdgeOf() == e then Add(a, obs[n - 1]) else a
  }

  /** The entry the response should hold for edge `e` in the window starting at `s`. */
  ghost function Expected(obs: seq<Observation>, start0: int, width: int, s: int, e: Edge)
    : AggregatedObservation
    requires width > 0
  {
    Finalize(Collect(obs, start0, width, |obs|, s, e))
  }

  /** The (window start, edge) pairs of the first `n` observations. */
  ghost function Keys(obs: seq<Observation>, start0: int, width: int, n: nat): set<(int, Edge)>
    requires width > 0 && n <= |obs|
  {
    if n == 0 then {}
    else Keys(obs, start0, width, n - 1) + {(Front(obs, start0, width, n), obs[n - 1].EdgeOf())}
  }

  ghost function KeysOf(out: seq<AggregatedObservation>): set<(int, Edge)> {
    set k | 0 <= k < |out| :: out[k].Key()
  }

  ghost function Tagged(s: int, edges: set<Edge>): set<(int, Edge)> {
    set e | e in edges :: (s, e)
  }

  ghost function EdgesFrom(out: seq<AggregatedObservation>, from: nat): set<Edge> {
    set k | from <= k < |out| :: out[k].EdgeOf()
  }

  /** Starts never decrease and no (window start, edge) pair occurs twice. */
  ghost predicate Ordered(out: seq<AggregatedObservation>) {
    forall k, l :: 0 <= k < l < |out| ==>
      out[k].periodStart <= out[l].periodStart && out[k].Key() != out[l].Key()
  }

  // ---------------------------------------------------------------------------------
  // Counting
  // ---------------------------------------------------------------------------------

  /** The sum of `f` over the values of `m`. */
  ghost function SumBy<K, V>(m: map<K, V>, f: V -> int): int
    decreases |m|
  {
    if m == map[] then 0
    else
      var k :| k in m;
      f(m[k]) + SumBy(m - {k}, f)
  }

  function Value(n: int): int { n }

  /** The number of observations an entry has counted. */
  ghost function Count(a: AggregatedObservation): int {
    SumBy(a.jobsOkCount, Value) + SumBy(a.jobsNotOkCount, Value)
  }

  ghost function PendingCount(pending: map<Edge, AggregatedObservation>): int {
    SumBy(pending, Count)
  }

  ghost function TotalCount(out: seq<AggregatedObservation>): int {
    if out == [] then 0 else TotalCount(out[..|out| - 1]) + Count(out[|out| - 1])
  }

  lemma {:induction false} SumByRemove<K, V>(m: map<K, V>, k: K, f: V -> int)
    requires k in m
    ensures SumBy(m, f) == f(m[k]) + SumBy(m - {k}, f)
    decreases |m|
  {
    var j :| j in m && SumBy(m, f) == f(m[j]) + SumBy(m - {j}, f);
    if j != k {
      SumByRemove(m - {j}, k, f);
      SumByRemove(m - {k}, j, f);
      assert m - {j} - {k} == m - {k} - {j};
    }
  }

  lemma SumByUpdate<K, V>(m: map<K, V>, k: K, v: V, f: V -> int)
    ensures SumBy(m[k := v], f) == f(v) + SumBy(m - {k}, f)
    ensures k in m ==> SumBy(m[k := v], f) == SumBy(m, f) - f(m[k]) + f(v)
    ensures k !in m ==> SumBy(m[k := v], f) == SumBy(m, f) + f(v)
  {
    SumByRemove(m[k := v], k, f);
    assert m[k := v] - {k} == m - {k};
    if k in m {
      SumByRemove(m, k, f);
    } else {
      assert m - {k} == m;
    }
  }

  /** The count a counter map holds for `k`, zero when `k` has none. */
  function CountOf(m: map<JobId, int>, k: JobId): int {
    if k in m then m[k] else 0
  }

  /**
   * Each observation increments exactly one counter of its entry by one: its job's ok
   * counter if it is ok, else its job's not-ok counter; every other count stays.
   */
  lemma CountAdd(a: AggregatedObservation, o: Observation)
    ensures forall k :: CountOf(Add(a, o).jobsOkCount, k) ==
                        CountOf(a.jobsOkCount, k) + (if o.ok && k == o.jobId then 1 else 0)
    ensures forall k :: CountOf(Add(a, o).jobsNotOkCount, k) ==
                        CountOf(a.jobsNotOkCount, k) + (if !o.ok && k == o.jobId then 1 else 0)
    ensures Count(Add(a, o)) == Count(a) + 1
  {
    if o.ok {
      var m := a.jobsOkCount;
      SumByUpdate(m, o.jobId, (if o.jobId in m then m[o.jobId] else 0) + 1, Value);
    } else {
      var m := a.jobsNotOkCount;
      SumByUpdate(m, o.jobId, (if o.jobId in m then m[o.jobId] else 0) + 1, Value);
    }
  }

  // ---------------------------------------------------------------------------------
  // Window placement
  // ---------------------------------------------------------------------------------

  lemma {:induction false} FrontMono(obs: seq<Observation>, start0: int, width: int, a: nat, b: nat)
    requires width > 0 && a <= b <= |obs|
    ensures Front(obs, start0, width, a) <= Front(obs, start0, width, b)
    decreases b
  {
    if a < b {
      FrontMono(obs, start0, width, a, b - 1);
    }
  }

  /** Once the open window has moved past `s`, no later observation changes an entry of `s`. */
  lemma {:induction false} CollectSettled(
    obs: seq<Observation>, start0: int, width: int, i: nat, n: nat, s: int, e: Edge)
    requires width > 0 && i <= n <= |obs|
    requires i == |obs| || s < Front(obs, start0, width, i + 1)
    ensures Collect(obs, start0, width, n, s, e) == Collect(obs, start0, width, i, s, e)
    decreases n
  {
    if i < n {
      CollectSettled(obs, start0, width, i, n - 1, s, e);
      FrontMono(obs, start0, width, i + 1, n);
      assert Front(obs, start0, width, n) != s;
    }
  }

  /** An edge that has had no observation in window `s` still has its fresh entry. */
  lemma {:induction false} CollectFresh(obs: seq<Observation>, start0: int, width: int, n: nat, s: int, e: Edge)
    requires width > 0 && n <= |obs|
    requires (s, e) !in Keys(obs, start0, width, n)
    ensures Collect(obs, start0, width, n, s, e) == Fresh(e, s, s + width)
    decreases n
  {
    if n > 0 {
      CollectFresh(obs, start0, width, n - 1, s, e);
    }
  }

  // ---------------------------------------------------------------------------------
  // The windowing loop
  // ---------------------------------------------------------------------------------

  /** The entries of the open windows are well formed and filed under their own edge. */
  ghost predicate PendingOk(pending: map<Edge, AggregatedObservation>) {
    forall e :: e in pending ==> WellFormed(pending[e]) && pending[e].EdgeOf() == e
  }

  /**
   * What the flush does: `out` is `done` followed by the finalized pending entries, one
   * per edge, in some order.
   */
  ghost predicate Flushed(
    pending: map<Edge, AggregatedObservation>, done: seq<AggregatedObservation>,
    out: seq<AggregatedObservation>)
    requires PendingOk(pending)
  {
    && |done| <= |out| && out[..|done|] == done
    && Appended(pending, |done|, out, map[])
    && EdgesFrom(out, |done|) == pending.Keys
    && TotalCount(out) == TotalCount(done) + PendingCount(pending)
  }

  /**
   * The state of the windowing after `i` observations, with `rstart` the start of the
   * open window: the emitted entries are the expected ones of earlier windows, in order;
   * the emitted keys and the open edges together are the keys seen so far; each open entry
   * has collected its observations; and every observation has been counted once.
   */
  ghost predicate Progress(
    obs: seq<Observation>, start0: int, width: int, i: nat, rstart: int,
    pending: map<Edge, AggregatedObservation>, done: seq<AggregatedObservation>)
    requires width > 0
  {
    && i <= |obs|
    && Emitted(obs, start0, width, rstart, done)
    && KeysOf(done) + Tagged(rstart, pending.Keys) == Keys(obs, start0, width, i)
    && Collected(obs, start0, width, i, rstart, pending)
    && TotalCount(done) + PendingCount(pending) == i
  }

  /** The emitted entries belong to windows before `rstart`, are expected and are ordered. */
  ghost predicate Emitted(obs: seq<Observation>, start0: int, width: int, rstart: int, done: seq<AggregatedObservation>)
    requires width > 0
  {
    && (forall k :: 0 <= k < |done| ==>
          done[k].periodStart < rstart &&
          done[k] == Expected(obs, start0, width, done[k].periodStart, done[k].EdgeOf()))
    && Ordered(done)
  }

  /** Each open entry of window `rstart` has collected the first `i` observations. */
  ghost predicate Collected(
    obs: seq<Observation>, start0: int, width: int, i: nat, rstart: int,
    pending: map<Edge, AggregatedObservation>)
    requires width > 0 && i <= |obs|
  {
    forall e :: e in pending ==> pending[e] == Collect(obs, start0, width, i, rstart, e)
  }

  /**
   * The response for a non-empty observation list: each entry is the expected one for its
   * window and edge, the entries are ordered by start with no key twice, their keys are
   * exactly the (window, edge) pairs of the observations, and they count every
   * observation once.
   */
  ghost predicate Windowed(obs: seq<Observation>, start0: int, width: int, out: seq<AggregatedObservation>)
    requires width > 0
  {
    && (forall k :: 0 <= k < |out| ==>
          out[k] == Expected(obs, start0, width, out[k].periodStart, out[k].EdgeOf()))
    && Ordered(out)
    && KeysOf(out) == Keys(obs, start0, width, |obs|)
    && TotalCount(out) == |obs|
  }

  lemma ProgressPendingOk(
    obs: seq<Observation>, start0: int, width: int, i: nat, rstart: int,
    pending: map<Edge, AggregatedObservation>, done: seq<AggregatedObservation>)
    requires width > 0
    requires Progress(obs, start0, width, i, rstart, pending, done)
    ensures PendingOk(pending)
  {
    forall e | e in pending
      ensures WellFormed(pending[e]) && pending[e].EdgeOf() == e
    {
      assert pending[e] == Collect(obs, start0, width, i, rstart, e);
    }
  }

  /** The entry that observation `i` is recorded in: its edge's open entry, or a fresh one. */
  function OpenEntry(pending: map<Edge, AggregatedObservation>, e: Edge, rstart: int, width: int)
    : AggregatedObservation
  {
    if e in pending then pending[e] else Fresh(e, rstart, rstart + width)
  }

  lemma ObserveEntries(
    obs: seq<Observation>, start0: int, width: int, i: nat, rstart: int,
    pending: map<Edge, AggregatedObservation>, done: seq<AggregatedObservation>)
    requires width > 0 && i < |obs|
    requires Progress(obs, start0, width, i, rstart, pending, done)
    requires Front(obs, start0, width, i + 1) == rstart
    ensures var e := obs[i].EdgeOf();
      Collected(obs, start0, width, i + 1, rstart,
                pending[e := Add(OpenEntry(pending, e, rstart, width), obs[i])])
  {
    var e := obs[i].EdgeOf();
    if e !in pending {
      assert (rstart, e) !in KeysOf(done);
      assert (rstart, e) !in Tagged(rstart, pending.Keys);
      CollectFresh(obs, start0, width, i, rstart, e);
    }
  }

  lemma ObserveKeys(
    obs: seq<Observation>, start0: int, width: int, i: nat, rstart: int,
    pending: map<Edge, AggregatedObservation>, done: seq<AggregatedObservation>, a: AggregatedObservation)
    requires width > 0 && i < |obs|
    requires KeysOf(done) + Tagged(rstart, pending.Keys) == Keys(obs, start0, width, i)
    requires Front(obs, start0, width, i + 1) == rstart
    ensures KeysOf(done) + Tagged(rstart, pending[obs[i].EdgeOf() := a].Keys) == Keys(obs, start0, width, i + 1)
  {
    var e := obs[i].EdgeOf();
    assert Tagged(rstart, pending[e := a].Keys) == Tagged(rstart, pending.Keys) + {(rstart, e)};
  }

  lemma ObserveCount(pending: map<Edge, AggregatedObservation>, e: Edge, a: AggregatedObservation, o: Observation)
    requires a == (if e in pending then pending[e] else Fresh(e, a.periodStart, a.periodEnd))
    ensures PendingCount(pending[e := Add(a, o)]) == PendingCount(pending) + 1
  {
    CountAdd(a, o);
    SumByUpdate(pending, e, Add(a, o), Count);
  }

  /** Observation `i`, whose window is the open one, is recorded in its edge's entry. */
  lemma ObserveStep(
    obs: seq<Observation>, start0: int, width: int, i: nat, rstart: int,
    pending: map<Edge, AggregatedObservation>, done: seq<AggregatedObservation>)
    requires width > 0 && i < |obs|
    requires Progress(obs, start0, width, i, rstart, pending, done)
    requires Front(obs, start0, width, i + 1) == rstart
    ensures var e := obs[i].EdgeOf();
      Progress(obs, start0, width, i + 1, rstart,
               pending[e := Add(OpenEntry(pending, e, rstart, width), obs[i])], done)
  {
    var e := obs[i].EdgeOf();
    var a := OpenEntry(pending, e, rstart, width);
    ObserveEntries(obs, start0, width, i, rstart, pending, done);
    ObserveKeys(obs, start0, width, i, rstart, pending, done, Add(a, obs[i]));
    ObserveCount(pending, e, a, obs[i]);
  }

  lemma KeysOfFlushed(
    rstart: int, pending: map<Edge, AggregatedObservation>,
    done: seq<AggregatedObservation>, out: seq<AggregatedObservation>)
    requires PendingOk(pending) && Flushed(pending, done, out)
    requires forall e :: e in pending ==> pending[e].periodStart == rstart
    ensures KeysOf(out) == KeysOf(done) + Tagged(rstart, pending.Keys)
  {
    forall p | p in KeysOf(out)
      ensures p in KeysOf(done) + Tagged(rstart, pending.Keys)
    {
      var k :| 0 <= k < |out| && p == out[k].Key();
      if k < |done| {
        assert out[k] == done[k];
      } else {
        assert out[k].EdgeOf() in pending;
      }
    }
    forall p | p in KeysOf(done) + Tagged(rstart, pending.Keys)
      ensures p in KeysOf(out)
    {
      if p in KeysOf(done) {
        var k :| 0 <= k < |done| && p == done[k].Key();
        assert out[k] == done[k];
      } else {
        var e :| e in pending.Keys && p == (rstart, e);
        assert e in EdgesFrom(out, |done|);
        var k :| |done| <= k < |out| && out[k].EdgeOf() == e;
        assert out[k].Key() == p;
      }
    }
  }

  /** The flushed entries of window `rstart` are the expected ones and follow the earlier ones in order. */
  lemma FlushEmitted(
    obs: seq<Observation>, start0: int, width: int, i: nat, rstart: int,
    pending: map<Edge, AggregatedObservation>, done: seq<AggregatedObservation>,
    out: seq<AggregatedObservation>, next: int)
    requires width > 0 && i <= |obs|
    requires Emitted(obs, start0, width, rstart, done)
    requires Collected(obs, start0, width, i, rstart, pending)
    requires i == |obs| || rstart < Front(obs, start0, width, i + 1)
    requires PendingOk(pending) && Flushed(pending, done, out)
    requires rstart < next
    ensures Emitted(obs, start0, width, next, out)
  {
    forall k | |done| <= k < |out|
      ensures out[k].periodStart == rstart
      ensures out[k] == Expected(obs, start0, width, out[k].periodStart, out[k].EdgeOf())
    {
      var e := out[k].EdgeOf();
      assert pending[e] == Collect(obs, start0, width, i, rstart, e);
      CollectSettled(obs, start0, width, i, |obs|, rstart, e);
    }
    forall k | 0 <= k < |done|
      ensures out[k] == done[k]
    {
      assert out[k] == out[..|done|][k];
    }
    forall k, l | 0 <= k < l < |out|
      ensures out[k].periodStart <= out[l].periodStart && out[k].Key() != out[l].Key()
    {
      if l < |done| {
        assert done[k].Key() != done[l].Key();
      }
    }
  }

  lemma FlushCount(
    pending: map<Edge, AggregatedObservation>, done: seq<AggregatedObservation>,
    out: seq<AggregatedObservation>, i: nat)
    requires PendingOk(pending) && Flushed(pending, done, out)
    requires TotalCount(done) + PendingCount(pending) == i
    ensures TotalCount(out) + PendingCount(map[]) == i
  {
  }

  lemma TaggedNone(s: int)
    ensures Tagged(s, {}) == {}
  {
  }

  /**
   * The open window is flushed and a later window is opened, either because observation
   * `i` lies beyond the open window or because the list is exhausted.
   */
  lemma FlushStep(
    obs: seq<Observation>, start0: int, width: int, i: nat, rstart: int,
    pending: map<Edge, AggregatedObservation>, done: seq<AggregatedObservation>,
    out: seq<AggregatedObservation>, next: int)
    requires width > 0
    requires Progress(obs, start0, width, i, rstart, pending, done)
    requires i == |obs| || rstart < Front(obs, start0, width, i + 1)
    requires PendingOk(pending) && Flushed(pending, done, out)
    requires rstart < next
    ensures Progress(obs, start0, width, i, next, map[], out)
  {
    var none: map<Edge, AggregatedObservation> := map[];
    FlushEmitted(obs, start0, width, i, rstart, pending, done, out, next);
    KeysOfFlushed(rstart, pending, done, out);
    TaggedNone(next);
    assert KeysOf(out) + Tagged(next, none.Keys) == Keys(obs, start0, width, i);
    FlushCount(pending, done, out, i);
    assert Collected(obs, start0, width, i, next, none);
  }

  /** After the last flush the emitted entries are the whole response. */
  lemma ProgressStart(obs: seq<Observation>, start0: int, width: int)
    requires width > 0
    ensures Progress(obs, start0, width, 0, start0, map[], [])
  {
    TaggedNone(start0);
  }

  lemma ProgressComplete(
    obs: seq<Observation>, start0: int, width: int, next: int, out: seq<AggregatedObservation>)
    requires width > 0
    requires Progress(obs, start0, width, |obs|, next, map[], out)
    ensures Windowed(obs, start0, width, out)
  {
    assert Tagged(next, {}) == {};
  }

  /** The appended entries are finalized pending entries, each of a distinct edge no longer in `rest`. */
  ghost predicate Appended(
    pending: map<Edge, AggregatedObservation>, from: nat,
    out: seq<AggregatedObservation>, rest: map<Edge, AggregatedObservation>)
    requires PendingOk(pending)
  {
    && (forall k :: from <= k < |out| ==>
          out[k].EdgeOf() in pending && out[k].EdgeOf() !in rest &&
          out[k] == Finalize(pending[out[k].EdgeOf()]))
    && (forall k, l :: from <= k < l < |out| ==> out[k].EdgeOf() != out[l].EdgeOf())
  }

  /** The flush part-way: the entries of `rest` are still to be appended. */
  ghost predicate FlushInv(
    pending: map<Edge, AggregatedObservation>, done: seq<AggregatedObservation>,
    out: seq<AggregatedObservation>, rest: map<Edge, AggregatedObservation>)
    requires PendingOk(pending)
  {
    && rest.Keys <= pending.Keys
    && (forall e :: e in rest ==> rest[e] == pending[e])
    && |done| <= |out| && out[..|done|] == done
    && Appended(pending, |done|, out, rest)
    && EdgesFrom(out, |done|) + rest.Keys == pending.Keys
    && TotalCount(out) + PendingCount(rest) == TotalCount(done) + PendingCount(pending)
  }

  lemma AppendOne(
    pending: map<Edge, AggregatedObservation>, from: nat,
    out: seq<AggregatedObservation>, rest: map<Edge, AggregatedObservation>, e: Edge)
    requires PendingOk(pending) && Appended(pending, from, out, rest)
    requires e in rest && e in pending && rest[e] == pending[e] && from <= |out|
    ensures Appended(pending, from, out + [Finalize(rest[e])], rest - {e})
  {
    var out' := out + [Finalize(rest[e])];
    forall k | from <= k < |out'|
      ensures out'[k].EdgeOf() in pending && out'[k].EdgeOf() !in rest - {e}
      ensures out'[k] == Finalize(pending[out'[k].EdgeOf()])
    {
      if k < |out| {
        assert out'[k] == out[k];
      }
    }
    forall k, l | from <= k < l < |out'|
      ensures out'[k].EdgeOf() != out'[l].EdgeOf()
    {
      assert out'[k] == out[k];
      if l < |out| {
        assert out'[l] == out[l];
      }
    }
  }

  lemma EdgesFromOne(out: seq<AggregatedObservation>, from: nat, x: AggregatedObservation)
    requires from <= |out|
    ensures EdgesFrom(out + [x], from) == EdgesFrom(out, from) + {x.EdgeOf()}
  {
    var out' := out + [x];
    assert out'[|out|] == x;
    forall k | from <= k < |out|
      ensures out'[k].EdgeOf() == out[k].EdgeOf()
    {
      assert out'[k] == out[k];
    }
  }

  lemma FlushOne(
    pending: map<Edge, AggregatedObservation>, done: seq<AggregatedObservation>,
    out: seq<AggregatedObservation>, rest: map<Edge, AggregatedObservation>, e: Edge)
    requires PendingOk(pending) && FlushInv(pending, done, out, rest) && e in rest
    ensures FlushInv(pending, done, out + [Finalize(rest[e])], rest - {e})
  {
    var out' := out + [Finalize(rest[e])];
    assert out'[..|out|] == out;
    assert out'[..|done|] == done;
    AppendOne(pending, |done|, out, rest, e);
    EdgesFromOne(out, |done|, Finalize(rest[e]));
    assert EdgesFrom(out', |done|) + (rest - {e}).Keys == EdgesFrom(out, |done|) + rest.Keys;
    FlushCountOne(pending, done, out, rest, e);
  }

  lemma FlushCountOne(
    pending: map<Edge, AggregatedObservation>, done: seq<AggregatedObservation>,
    out: seq<AggregatedObservation>, rest: map<Edge, AggregatedObservation>, e: Edge)
    requires PendingOk(pending) && e in rest && e in pending && rest[e] == pending[e]
    requires TotalCount(out) + PendingCount(rest) == TotalCount(done) + PendingCount(pending)
    ensures TotalCount(out + [Finalize(rest[e])]) + PendingCount(rest - {e})
         == TotalCount(done) + PendingCount(pending)
  {
    var out' := out + [Finalize(rest[e])];
    assert out'[..|out'| - 1] == out;
    SumByRemove(rest, e, Count);
  }

  lemma FlushDone(
    pending: map<Edge, AggregatedObservation>, done: seq<AggregatedObservation>,
    out: seq<AggregatedObservation>)
    requires PendingOk(pending) && FlushInv(pending, done, out, map[])
    ensures Flushed(pending, done, out)
  {
    assert PendingCount(map[]) == 0;
  }

  /**
   * addAggregations: every open entry is finalized and appended, in the unspecified order
   * in which a Go map is traversed, and the open windows are cleared by the caller.
   */
  method AddAggregations(currAggr: map<Edge, AggregatedObservation>, aggregated: seq<AggregatedObservation>)
    returns (out: seq<AggregatedObservation>)
    requires PendingOk(currAggr)
    ensures Flushed(currAggr, aggregated, out)
  {
    out := aggregated;
    var rest := currAggr;
    assert out[..|aggregated|] == aggregated;
    while rest != map[]
      invariant FlushInv(currAggr, aggregated, out, rest)
      decreases |rest|
    {
      var e :| e in rest;
      FlushOne(currAggr, aggregated, out, rest, e);
      out := out + [Finalize(rest[e])];
      rest := rest - {e};
    }
    FlushDone(currAggr, aggregated, out);
  }

  /**
   * One turn of the inner loop: the open window is flushed and the next one opened,
   * because observation `i` lies at or beyond the open window's end.
   */
  method CloseWindow(
    result: seq<Observation>, ghost start0: int, rdelta: int, i: nat,
    rstart: int, currEnd: int, currAggr: map<Edge, AggregatedObservation>,
    aggregated: seq<AggregatedObservation>)
    returns (rstart': int, currEnd': int, currAggr': map<Edge, AggregatedObservation>,
             aggregated': seq<AggregatedObservation>)
    requires rdelta > 0 && i < |result| && currEnd == rstart + rdelta
    requires currEnd <= result[i].timestamp
    requires CatchUp(rstart, rdelta, result[i].timestamp) == Front(result, start0, rdelta, i + 1)
    requires Progress(result, start0, rdelta, i, rstart, currAggr, aggregated)
    ensures rstart' == currEnd && currEnd' == rstart' + rdelta
    ensures CatchUp(rstart', rdelta, result[i].timestamp) == Front(result, start0, rdelta, i + 1)
    ensures Progress(result, start0, rdelta, i, rstart', currAggr', aggregated')
  {
    rstart' := currEnd;
    currEnd' := rstart' + rdelta;
    ProgressPendingOk(result, start0, rdelta, i, rstart, currAggr, aggregated);
    aggregated' := AddAggregations(currAggr, aggregated);
    FlushStep(result, start0, rdelta, i, rstart, currAggr, aggregated, aggregated', rstart');
    currAggr' := map[];
  }

  /**
   * One iteration of the loop over the observations: windows are closed and flushed until
   * observation `i` lies in the open one, and it is then recorded in its edge's entry.
   */
  method Place(
    result: seq<Observation>, ghost start0: int, rdelta: int, i: nat,
    rstart: int, currEnd: int, currAggr: map<Edge, AggregatedObservation>,
    aggregated: seq<AggregatedObservation>)
    returns (rstart': int, currEnd': int, currAggr': map<Edge, AggregatedObservation>,
             aggregated': seq<AggregatedObservation>)
    requires rdelta > 0 && i < |result| && currEnd == rstart + rdelta
    requires rstart == Front(result, start0, rdelta, i)
    requires Progress(result, start0, rdelta, i, rstart, currAggr, aggregated)
    ensures currEnd' == rstart' + rdelta && rstart' == Front(result, start0, rdelta, i + 1)
    ensures Progress(result, start0, rdelta, i + 1, rstart', currAggr', aggregated')
  {
    rstart', currEnd', currAggr', aggregated' := rstart, currEnd, currAggr, aggregated;
    var obs := result[i];
    while !(obs.timestamp < currEnd')
      invariant currEnd' == rstart' + rdelta
      invariant CatchUp(rstart', rdelta, obs.timestamp) == Front(result, start0, rdelta, i + 1)
      invariant Progress(result, start0, rdelta, i, rstart', currAggr', aggregated')
      decreases obs.timestamp - rstart'
    {
      rstart', currEnd', currAggr', aggregated' :=
        CloseWindow(result, start0, rdelta, i, rstart', currEnd', currAggr', aggregated');
    }
    var edge := Edge(obs.srcHost, obs.destHost);
    var aggr := OpenEntry(currAggr', edge, rstart', rdelta);
    ObserveStep(result, start0, rdelta, i, rstart', currAggr', aggregated');
    currAggr' := currAggr'[edge := Add(aggr, obs)];
  }

  /**
   * GetAggregatedObservations, with the result of listing the observations as input: a
   * listing error is returned, an empty listing gives an empty response, and otherwise the
   * response is the windowed aggregation of the listed observations, with windows of
   * AggregationWidth starting at FirstStart.
   */
  method GetAggregatedObservations(
    listed: Result<seq<Observation>, string>, requestStart: Option<int>, aggregationWindow: Option<int>)
    returns (r: Result<seq<AggregatedObservation>, string>)
    ensures listed.Failure? ==> r == Failure(listed.error)
    ensures listed.Success? ==> r.Success?
    ensures listed.Success? && listed.value == [] ==> r.value == []
    ensures listed.Success? && listed.value != [] ==>
      Windowed(listed.value, FirstStart(listed.value, requestStart), AggregationWidth(aggregationWindow), r.value)
  {
    if listed.Failure? {
      return Failure(listed.error);
    }
    var result := listed.value;
    if |result| == 0 {
      return Success([]);
    }
    var rstart := result[0].timestamp;
    var rdelta := AggregationWidth(aggregationWindow);
    if requestStart.Some? {
      rstart := requestStart.value;
    }
    var aggregated := Aggregate(result, rstart, rdelta);
    return Success(aggregated);
  }

  /**
   * The loop of GetAggregatedObservations over a non-empty listing, with windows of width
   * `rdelta` from `start0` on.
   */
  method Aggregate(result: seq<Observation>, start0: int, rdelta: int)
    returns (aggregated: seq<AggregatedObservation>)
    requires rdelta > 0
    ensures Windowed(result, start0, rdelta, aggregated)
  {
    var rstart := start0;
    var currEnd := rstart + rdelta;
    aggregated := [];
    var currAggr: map<Edge, AggregatedObservation> := map[];
    ProgressStart(result, start0, rdelta);
    for i := 0 to |result|
      invariant currEnd == rstart + rdelta
      invariant rstart == Front(result, start0, rdelta, i)
      invariant Progress(result, start0, rdelta, i, rstart, currAggr, aggregated)
    {
      rstart, currEnd, currAggr, aggregated :=
        Place(result, start0, rdelta, i, rstart, currEnd, currAggr, aggregated);
    }
    aggregated := FinalFlush(result, start0, rdelta, rstart, currAggr, aggregated);
  }

  /** The flush after the last observation, which completes the response. */
  method FinalFlush(
    result: seq<Observation>, ghost start0: int, rdelta: int, rstart: int,
    currAggr: map<Edge, AggregatedObservation>, aggregated: seq<AggregatedObservation>)
    returns (flushed: seq<AggregatedObservation>)
    requires rdelta > 0
    requires Progress(result, start0, rdelta, |result|, rstart, currAggr, aggregated)
    ensures Windowed(result, start0, rdelta, flushed)
  {
    ProgressPendingOk(result, start0, rdelta, |result|, rstart, currAggr, aggregated);
    flushed := AddAggregations(currAggr, aggregated);
    FlushStep(result, start0, rdelta, |result|, rstart, currAggr, aggregated, flushed, rstart + 1);
    ProgressComplete(result, start0, rdelta, rstart + 1, flushed);
  }

  // ---------------------------------------------------------------------------------
  // Laws of the response
  // ---------------------------------------------------------------------------------

  /**
   * The first window: without a requested start it opens at the first observation, which
   * lies in it; with one it opens at the requested start, and a first observation before
   * that start is still counted in that first window.
   */
  lemma FirstWindow(obs: seq<Observation>, requestStart: Option<int>, width: int)
    requires obs != [] && width > 0
    ensures requestStart.None? ==>
      FirstStart(obs, requestStart) == obs[0].timestamp &&
      Front(obs, FirstStart(obs, requestStart), width, 1) == obs[0].timestamp
    ensures requestStart.Some? ==> FirstStart(obs, requestStart) == requestStart.value
    ensures requestStart.Some? && obs[0].timestamp < requestStart.value + width ==>
      Front(obs, FirstStart(obs, requestStart), width, 1) == requestStart.value
  {
  }

  /** Observation `j` lies before the end of its window, which starts no earlier than the first. */
  lemma WindowBounds(obs: seq<Observation>, start0: int, width: int, j: nat)
    requires width > 0 && j < |obs|
    ensures start0 <= Front(obs, start0, width, j + 1)
    ensures obs[j].timestamp < Front(obs, start0, width, j + 1) + width
  {
    FrontMono(obs, start0, width, 0, j + 1);
  }

  /** Timestamps never decrease along the list. */
  ghost predicate SortedByTime(obs: seq<Observation>) {
    forall a, b :: 0 <= a <= b < |obs| ==> obs[a].timestamp <= obs[b].timestamp
  }

  /**
   * For observations in timestamp order, the open window is still the first one or starts
   * no later than the last placed observation.
   */
  lemma {:induction false} FrontBehind(obs: seq<Observation>, start0: int, width: int, n: nat)
    requires width > 0 && n <= |obs| && SortedByTime(obs)
    ensures Front(obs, start0, width, n) == start0
         || (n > 0 && Front(obs, start0, width, n) <= obs[n - 1].timestamp)
  {
    if n > 1 {
      FrontBehind(obs, start0, width, n - 1);
      assert obs[n - 2].timestamp <= obs[n - 1].timestamp;
    }
  }

  /**
   * For observations in timestamp order, every observation at or after the first start
   * lies inside its window: start <= timestamp < start + width.
   */
  lemma WindowContains(obs: seq<Observation>, start0: int, width: int, j: nat)
    requires width > 0 && j < |obs| && SortedByTime(obs)
    requires start0 <= obs[j].timestamp
    ensures Front(obs, start0, width, j + 1) <= obs[j].timestamp < Front(obs, start0, width, j + 1) + width
  {
    FrontBehind(obs, start0, width, j);
    if j > 0 {
      assert obs[j - 1].timestamp <= obs[j].timestamp;
    }
    WindowBounds(obs, start0, width, j);
  }

  /** The keys are exactly the (window start, edge) pairs of the observations. */
  lemma {:induction false} KeysMeaning(obs: seq<Observation>, start0: int, width: int, n: nat, p: (int, Edge))
    requires width > 0 && n <= |obs|
    ensures p in Keys(obs, start0, width, n) <==>
      exists j :: 0 <= j < n && p == (Front(obs, start0, width, j + 1), obs[j].EdgeOf())
  {
    if n > 0 {
      KeysMeaning(obs, start0, width, n - 1, p);
      var last := (Front(obs, start0, width, n), obs[n - 1].EdgeOf());
      if p in Keys(obs, start0, width, n) && p !in Keys(obs, start0, width, n - 1) {
        assert p == last;
      }
      if exists j :: 0 <= j < n && p == (Front(obs, start0, width, j + 1), obs[j].EdgeOf()) {
        var j :| 0 <= j < n && p == (Front(obs, start0, width, j + 1), obs[j].EdgeOf());
        if j == n - 1 {
          assert p == last;
        }
      }
    }
  }

  /**
   * In a windowed response every entry spans one window width and belongs to a window and
   * edge that had an observation, and every observation has the entry of its window and edge.
   */
  lemma WindowedCoverage(obs: seq<Observation>, start0: int, width: int, out: seq<AggregatedObservation>)
    requires width > 0 && Windowed(obs, start0, width, out)
    ensures forall k :: 0 <= k < |out| ==> out[k].periodEnd == out[k].periodStart + width
    ensures forall k :: 0 <= k < |out| ==>
      exists j :: 0 <= j < |obs| && out[k].Key() == (Front(obs, start0, width, j + 1), obs[j].EdgeOf())
    ensures forall j :: 0 <= j < |obs| ==>
      exists k :: 0 <= k < |out| && out[k].Key() == (Front(obs, start0, width, j + 1), obs[j].EdgeOf())
    ensures forall k :: 0 <= k < |out| ==>
      Aligned(obs, start0, width, out[k].periodStart)
    ensures forall k, l :: 0 <= k < |out| && 0 <= l < |out| && out[k].periodStart < out[l].periodStart ==>
      out[k].periodStart + width <= out[l].periodStart
  {
    forall k | 0 <= k < |out|
      ensures out[k].periodEnd == out[k].periodStart + width
      ensures exists j :: 0 <= j < |obs| && out[k].Key() == (Front(obs, start0, width, j + 1), obs[j].EdgeOf())
    {
      assert out[k] == Expected(obs, start0, width, out[k].periodStart, out[k].EdgeOf());
      assert out[k].Key() in KeysOf(out);
      KeysMeaning(obs, start0, width, |obs|, out[k].Key());
    }
    forall j | 0 <= j < |obs|
      ensures exists k :: 0 <= k < |out| && out[k].Key() == (Front(obs, start0, width, j + 1), obs[j].EdgeOf())
    {
      var p := (Front(obs, start0, width, j + 1), obs[j].EdgeOf());
      KeysMeaning(obs, start0, width, |obs|, p);
      assert p in KeysOf(out);
    }
    CoveredApart(obs, start0, width, out);
  }
  /** The number of whole widths the window has moved on after `n` observations. */
  function FrontSteps(obs: seq<Observation>, start0: int, width: int, n: nat): nat
    requires width > 0 && n <= |obs|
  {
    if n == 0 then 0
    else FrontSteps(obs, start0, width, n - 1) + Steps(Front(obs, start0, width, n - 1), width, obs[n - 1].timestamp)
  }

  /** Every window starts a whole number of widths after the first. */
  lemma {:induction false} FrontWhole(obs: seq<Observation>, start0: int, width: int, n: nat)
    requires width > 0 && n <= |obs|
    ensures Front(obs, start0, width, n) == start0 + Times(FrontSteps(obs, start0, width, n), width)
  {
    if n > 0 {
      FrontWhole(obs, start0, width, n - 1);
      var prev := Front(obs, start0, width, n - 1);
      CatchUpWhole(prev, width, obs[n - 1].timestamp);
      TimesAdd(FrontSteps(obs, start0, width, n - 1), Steps(prev, width, obs[n - 1].timestamp), width);
    }
  }

  /** Two starts a whole number of widths after `start0` that differ are a width apart. */
  lemma StepsApart(start0: int, width: int, m1: nat, m2: nat)
    requires width > 0 && start0 + Times(m1, width) < start0 + Times(m2, width)
    ensures start0 + Times(m1, width) + width <= start0 + Times(m2, width)
  {
    if m2 < m1 {
      TimesGrows(m2, m1, width);
    } else if m1 < m2 {
      TimesGrows(m1, m2, width);
    }
  }

  /** `s` is the start of some window, a whole number of widths after the first. */
  ghost predicate Aligned(obs: seq<Observation>, start0: int, width: int, s: int)
    requires width > 0
  {
    exists n: nat :: 0 < n <= |obs| && s == start0 + Times(FrontSteps(obs, start0, width, n), width)
  }

  /** The starts of entries that each come from an observation are aligned and spaced. */
  lemma CoveredApart(obs: seq<Observation>, start0: int, width: int, out: seq<AggregatedObservation>)
    requires width > 0
    requires forall k :: 0 <= k < |out| ==>
      exists j :: 0 <= j < |obs| && out[k].Key() == (Front(obs, start0, width, j + 1), obs[j].EdgeOf())
    ensures forall k :: 0 <= k < |out| ==>
      Aligned(obs, start0, width, out[k].periodStart)
    ensures forall k, l :: 0 <= k < |out| && 0 <= l < |out| && out[k].periodStart < out[l].periodStart ==>
      out[k].periodStart + width <= out[l].periodStart
  {
    forall k | 0 <= k < |out|
      ensures Aligned(obs, start0, width, out[k].periodStart)
    {
      var j :| 0 <= j < |obs| && out[k].Key() == (Front(obs, start0, width, j + 1), obs[j].EdgeOf());
      FrontWhole(obs, start0, width, j + 1);
      assert out[k].periodStart == start0 + Times(FrontSteps(obs, start0, width, j + 1), width);
      assert Aligned(obs, start0, width, out[k].periodStart);
    }
    forall k, l | 0 <= k < |out| && 0 <= l < |out| && out[k].periodStart < out[l].periodStart
      ensures out[k].periodStart + width <= out[l].periodStart
    {
      var j1 :| 0 <= j1 < |obs| && out[k].Key() == (Front(obs, start0, width, j1 + 1), obs[j1].EdgeOf());
      var j2 :| 0 <= j2 < |obs| && out[l].Key() == (Front(obs, start0, width, j2 + 1), obs[j2].EdgeOf());
      FrontsApart(obs, start0, width, j1 + 1, j2 + 1);
    }
  }

  /** Two window starts that differ are at least one width apart. */
  lemma FrontsApart(obs: seq<Observation>, start0: int, width: int, n1: nat, n2: nat)
    requires width > 0 && n1 <= |obs| && n2 <= |obs|
    requires Front(obs, start0, width, n1) < Front(obs, start0, width, n2)
    ensures Front(obs, start0, width, n1) + width <= Front(obs, start0, width, n2)
  {
    FrontWhole(obs, start0, width, n1);
    FrontWhole(obs, start0, width, n2);
    StepsApart(start0, width, FrontSteps(obs, start0, width, n1), FrontSteps(obs, start0, width, n2));
  }




  /** Observation `j` is counted in the entry of window `s` and edge `e`. */
  ghost predicate InEntry(obs: seq<Observation>, start0: int, width: int, j: nat, s: int, e: Edge)
    requires width > 0 && j < |obs|
  {
    Front(obs, start0, width, j + 1) == s && obs[j].EdgeOf() == e
  }

  /** The number of ok (or, with `ok` false, not-ok) observations of `job` among the first `n` in the entry. */
  ghost function Tally(obs: seq<Observation>, start0: int, width: int, n: nat, s: int, e: Edge, job: JobId, ok: bool): nat
    requires width > 0 && n <= |obs|
  {
    if n == 0 then 0
    else
      Tally(obs, start0, width, n - 1, s, e, job, ok)
      + (if InEntry(obs, start0, width, n - 1, s, e) && obs[n - 1].jobId == job && obs[n - 1].ok == ok then 1 else 0)
  }

  /** Observation `j` is an ok observation of `job` in the entry that carries a duration. */
  ghost predicate TimedAt(obs: seq<Observation>, start0: int, width: int, j: nat, s: int, e: Edge, job: JobId)
    requires width > 0 && j < |obs|
  {
    InEntry(obs, start0, width, j, s, e) && obs[j].jobId == job && obs[j].ok && obs[j].duration.Some?
  }

  /** Whether some ok observation of `job` among the first `n` in the entry carries a duration. */
  ghost predicate Timed(obs: seq<Observation>, start0: int, width: int, n: nat, s: int, e: Edge, job: JobId)
    requires width > 0 && n <= |obs|
  {
    n > 0 && (Timed(obs, start0, width, n - 1, s, e, job) || TimedAt(obs, start0, width, n - 1, s, e, job))
  }

  lemma {:induction false} TimedMeaning(obs: seq<Observation>, start0: int, width: int, n: nat, s: int, e: Edge, job: JobId)
    requires width > 0 && n <= |obs|
    ensures Timed(obs, start0, width, n, s, e, job) <==>
      exists j :: 0 <= j < n && TimedAt(obs, start0, width, j, s, e, job)
  {
    if n > 0 {
      TimedMeaning(obs, start0, width, n - 1, s, e, job);
    }
  }

  /** The sum of the durations of the ok observations of `job` among the first `n` in the entry. */
  ghost function DurationSum(obs: seq<Observation>, start0: int, width: int, n: nat, s: int, e: Edge, job: JobId): int
    requires width > 0 && n <= |obs|
  {
    if n == 0 then 0
    else
      var o := obs[n - 1];
      DurationSum(obs, start0, width, n - 1, s, e, job)
      + (if TimedAt(obs, start0, width, n - 1, s, e, job) then o.duration.value else 0)
  }

  lemma {:induction false} UntimedSum(obs: seq<Observation>, start0: int, width: int, n: nat, s: int, e: Edge, job: JobId)
    requires width > 0 && n <= |obs| && !Timed(obs, start0, width, n, s, e, job)
    ensures DurationSum(obs, start0, width, n, s, e, job) == 0
  {
    if n > 0 {
      UntimedSum(obs, start0, width, n - 1, s, e, job);
    }
  }

  /** The open entry counts, per job, exactly the ok observations of its window and edge. */
  lemma {:induction false} CollectOkTally(
    obs: seq<Observation>, start0: int, width: int, n: nat, s: int, e: Edge, job: JobId)
    requires width > 0 && n <= |obs|
    ensures var counts := Collect(obs, start0, width, n, s, e).jobsOkCount;
      && (job in counts <==> Tally(obs, start0, width, n, s, e, job, true) > 0)
      && (job in counts ==> counts[job] == Tally(obs, start0, width, n, s, e, job, true))
  {
    if n > 0 {
      CollectOkTally(obs, start0, width, n - 1, s, e, job);
    }
  }

  /** The open entry counts, per job, exactly the not-ok observations of its window and edge. */
  lemma {:induction false} CollectNotOkTally(
    obs: seq<Observation>, start0: int, width: int, n: nat, s: int, e: Edge, job: JobId)
    requires width > 0 && n <= |obs|
    ensures var counts := Collect(obs, start0, width, n, s, e).jobsNotOkCount;
      && (job in counts <==> Tally(obs, start0, width, n, s, e, job, false) > 0)
      && (job in counts ==> counts[job] == Tally(obs, start0, width, n, s, e, job, false))
  {
    if n > 0 {
      CollectNotOkTally(obs, start0, width, n - 1, s, e, job);
    }
  }

  /**
   * The open entry holds a duration sum for `job` exactly when one of its ok observations
   * of `job` was timed, and the sum is that of their durations.
   */
  lemma {:induction false} CollectDurations(
    obs: seq<Observation>, start0: int, width: int, n: nat, s: int, e: Edge, job: JobId)
    requires width > 0 && n <= |obs|
    ensures var a := Collect(obs, start0, width, n, s, e);
      && (job in a.meanOkDuration <==> Timed(obs, start0, width, n, s, e, job))
      && (job in a.meanOkDuration ==> a.meanOkDuration[job] == DurationSum(obs, start0, width, n, s, e, job))
  {
    if n > 0 {
      CollectDurations(obs, start0, width, n - 1, s, e, job);
      if TimedAt(obs, start0, width, n - 1, s, e, job) && !Timed(obs, start0, width, n - 1, s, e, job) {
        UntimedSum(obs, start0, width, n - 1, s, e, job);
      }
    }
  }

  /**
   * The counts and means of a response entry: per job, the ok count and the not-ok count
   * are the numbers of such observations of the window and edge; a mean is present exactly
   * when an ok observation carried a duration, and it is the duration sum divided, truncating,
   * by the ok count, which includes the ok observations without a duration.
   */
  lemma ExpectedTallies(obs: seq<Observation>, start0: int, width: int, s: int, e: Edge, job: JobId)
    requires width > 0
    ensures var x := Expected(obs, start0, width, s, e);
      var okCount := Tally(obs, start0, width, |obs|, s, e, job, true);
      && (job in x.jobsOkCount <==> okCount > 0)
      && (job in x.jobsOkCount ==> x.jobsOkCount[job] == okCount)
      && (job in x.jobsNotOkCount <==> Tally(obs, start0, width, |obs|, s, e, job, false) > 0)
      && (job in x.jobsNotOkCount ==> x.jobsNotOkCount[job] == Tally(obs, start0, width, |obs|, s, e, job, false))
      && (job in x.meanOkDuration <==> exists j :: 0 <= j < |obs| && TimedAt(obs, start0, width, j, s, e, job))
      && (job in x.meanOkDuration ==>
            okCount > 0 && x.meanOkDuration[job] == TruncDiv(DurationSum(obs, start0, width, |obs|, s, e, job), okCount))
  {
    CollectOkTally(obs, start0, width, |obs|, s, e, job);
    CollectNotOkTally(obs, start0, width, |obs|, s, e, job);
    CollectDurations(obs, start0, width, |obs|, s, e, job);
    TimedMeaning(obs, start0, width, |obs|, s, e, job);
  }
}
