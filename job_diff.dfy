/**
 * The diff step of one successful poll (src/services/monitoring/job_monitor.py,
 * `_poll_job_status`): the new cache built from the returned job list, the order
 * in which its entries are visited, and the status changes found against the old
 * cache. These are the specification functions the poller is proved against.
 */
module JobDiff {
  import opened Common
  import opened JobModel

  /** Whether some record of `jobs` is named `k`. */
  predicate Listed(jobs: seq<Job>, k: string)
  {
    exists i :: 0 <= i < |jobs| && NamedAs(jobs[i], k)
  }

  /**
   * `{job.get("jobStreamName"): job for job in jobs if job.get("jobStreamName")}`:
   * records without a truthy name are dropped, and a later record with the same
   * name replaces an earlier one.
   */
  function CacheOf(jobs: seq<Job>): (m: map<string, Job>)
    ensures forall k :: k in m <==> Listed(jobs, k)
    ensures forall k :: k in m ==> NamedAs(m[k], k)
  {
    if jobs == [] then map[]
    else
      var m := CacheOf(jobs[..|jobs| - 1]);
      var last := jobs[|jobs| - 1];
      assert forall i :: 0 <= i < |jobs| - 1 ==> jobs[..|jobs| - 1][i] == jobs[i];
      if Named(last) then m[last.name.value := last] else m
  }

  /** The cached record for a name is its last record in the list: a later duplicate overwrites an earlier one. */
  lemma {:induction false} LaterDuplicateOverwrites(jobs: seq<Job>, k: string)
    requires Listed(jobs, k)
    ensures exists i :: 0 <= i < |jobs| && CacheOf(jobs)[k] == jobs[i] && forall j :: i < j < |jobs| ==> !NamedAs(jobs[j], k)
  {
    var n := |jobs| - 1;
    if NamedAs(jobs[n], k) {
      assert CacheOf(jobs)[k] == jobs[n];
    } else {
      var init := jobs[..n];
      ListedInit(jobs, k);
      LaterDuplicateOverwrites(init, k);
      var w :| 0 <= w < n && CacheOf(init)[k] == init[w] && forall j :: w < j < n ==> !NamedAs(init[j], k);
      NotNamedAfter(jobs, init, w, k);
      assert CacheOf(jobs)[k] == jobs[w];
    }
  }

  /** A name listed in `jobs` but not by its last record is listed in the others. */
  lemma ListedInit(jobs: seq<Job>, k: string)
    requires Listed(jobs, k) && !NamedAs(jobs[|jobs| - 1], k)
    ensures Listed(jobs[..|jobs| - 1], k)
  {
    var i :| 0 <= i < |jobs| && NamedAs(jobs[i], k);
    assert jobs[..|jobs| - 1][i] == jobs[i];
  }

  /** No record of `jobs` after `w` is named `k`, given that none of its init `init` after `w` is and the last is not. */
  lemma NotNamedAfter(jobs: seq<Job>, init: seq<Job>, w: int, k: string)
    requires 0 <= w < |jobs| && init == jobs[..|jobs| - 1] && !NamedAs(jobs[|jobs| - 1], k)
    requires forall j :: w < j < |init| ==> !NamedAs(init[j], k)
    ensures forall j :: w < j < |jobs| ==> !NamedAs(jobs[j], k)
  {
    forall j | w < j < |jobs| ensures !NamedAs(jobs[j], k) {
      if j < |init| { assert jobs[j] == init[j]; }
    }
  }

  /**
   * The order in which `new_cache.items()` visits the names: each name once, at
   * the position of its first record (a Python dict keeps the insertion order of
   * a key even when its value is later replaced).
   */
  function KeyOrder(jobs: seq<Job>): (ks: seq<string>)
    ensures forall a, b :: 0 <= a < b < |ks| ==> ks[a] != ks[b]
    ensures forall k :: k in ks <==> Listed(jobs, k)
  {
    if jobs == [] then []
    else
      var ks := KeyOrder(jobs[..|jobs| - 1]);
      var last := jobs[|jobs| - 1];
      assert forall i :: 0 <= i < |jobs| - 1 ==> jobs[..|jobs| - 1][i] == jobs[i];
      assert forall k :: Listed(jobs, k) <==> Listed(jobs[..|jobs| - 1], k) || NamedAs(last, k) by {
        forall k | Listed(jobs, k) ensures Listed(jobs[..|jobs| - 1], k) || NamedAs(last, k) {
          var i :| 0 <= i < |jobs| && NamedAs(jobs[i], k);
          if i < |jobs| - 1 { assert NamedAs(jobs[..|jobs| - 1][i], k); }
        }
      }
      if Named(last) && last.name.value !in ks then ks + [last.name.value] else ks
  }

  /** The position of the first record of `jobs` named `k`. */
  function FirstIndex(jobs: seq<Job>, k: string): (r: nat)
    requires Listed(jobs, k)
    ensures r < |jobs| && NamedAs(jobs[r], k)
    ensures forall i :: 0 <= i < r ==> !NamedAs(jobs[i], k)
  {
    var n := |jobs| - 1;
    if Listed(jobs[..n], k) then
      var r := FirstIndex(jobs[..n], k);
      assert forall i :: 0 <= i < r ==> jobs[i] == jobs[..n][i];
      r
    else
      assert forall i :: 0 <= i < n ==> jobs[i] == jobs[..n][i];
      n
  }

  /** The visiting order is the order of first records: one name comes before another iff its first record does. */
  lemma {:induction false} KeyOrderIsFirstSeen(jobs: seq<Job>)
    ensures var ks := KeyOrder(jobs);
            forall a, b :: 0 <= a < |ks| && 0 <= b < |ks| ==>
              (a < b <==> FirstIndex(jobs, ks[a]) < FirstIndex(jobs, ks[b]))
  {
    if jobs != [] {
      var n := |jobs| - 1;
      var init := jobs[..n];
      var ks := KeyOrder(init);
      KeyOrderIsFirstSeen(init);
      FirstIndexOfInit(jobs, ks);
    }
  }

  /** A name listed before the last record keeps its first position, which lies before the last record. */
  lemma FirstIndexOfInit(jobs: seq<Job>, ks: seq<string>)
    requires jobs != [] && ks == KeyOrder(jobs[..|jobs| - 1])
    ensures forall a :: 0 <= a < |ks| ==>
              Listed(jobs, ks[a]) && FirstIndex(jobs, ks[a]) == FirstIndex(jobs[..|jobs| - 1], ks[a]) < |jobs| - 1
  {
    forall a | 0 <= a < |ks|
      ensures Listed(jobs, ks[a]) && FirstIndex(jobs, ks[a]) == FirstIndex(jobs[..|jobs| - 1], ks[a]) < |jobs| - 1
    {
      assert ks[a] in ks;
    }
  }

  /** The visiting order and the new cache hold the same names. */
  lemma KeyOrderMatchesCache(jobs: seq<Job>)
    ensures forall k :: k in KeyOrder(jobs) <==> k in CacheOf(jobs)
  {
  }

  /** A status change found by the diff: the new snapshot and the cached one, if any. */
  datatype Change = Change(job: Job, previous: Option<Job>)

  /** The cache is keyed by each record's own name. */
  ghost predicate KeyedByName(cache: map<string, Job>)
  {
    forall k :: k in cache ==> NamedAs(cache[k], k)
  }

  /** The body of the loop over `new_cache` for the name `k`. */
  function ChangeFor(cache: map<string, Job>, current: map<string, Job>, k: string): seq<Change>
    requires k in current
  {
    if k in cache then
      if cache[k].status != current[k].status then [Change(current[k], Some(cache[k]))] else []
    else
      [Change(current[k], None)]
  }

  /** A visit finds at most one change, and its snapshot is named. */
  lemma ChangeForShape(cache: map<string, Job>, current: map<string, Job>, k: string)
    requires k in current && KeyedByName(current)
    ensures var step := ChangeFor(cache, current, k);
            |step| <= 1 && forall i :: 0 <= i < |step| ==> NamedAs(step[i].job, k)
  {
  }

  /** The changes found while visiting the names `keys` of the new cache in order. */
  function DiffKeys(cache: map<string, Job>, current: map<string, Job>, keys: seq<string>): (r: seq<Change>)
    requires forall i :: 0 <= i < |keys| ==> keys[i] in current
    requires KeyedByName(current)
    ensures |r| <= |keys|
    ensures forall i :: 0 <= i < |r| ==> Named(r[i].job)
  {
    if keys == [] then []
    else DiffKeys(cache, current, keys[..|keys| - 1]) + ChangeFor(cache, current, keys[|keys| - 1])
  }

  /** All changes one successful poll of `jobs` finds against `cache`, in the order they are handled. */
  function PollChanges(cache: map<string, Job>, jobs: seq<Job>): seq<Change>
  {
    DiffKeys(cache, CacheOf(jobs), KeyOrder(jobs))
  }

  /** The changes concerning the job named `k`. */
  function ChangesNamed(changes: seq<Change>, k: string): (r: seq<Change>)
    ensures forall i :: 0 <= i < |r| ==> NamedAs(r[i].job, k)
  {
    if changes == [] then []
    else
      var last := changes[|changes| - 1];
      ChangesNamed(changes[..|changes| - 1], k) + (if NamedAs(last.job, k) then [last] else [])
  }

  lemma {:induction false} ChangesNamedAppend(a: seq<Change>, b: seq<Change>, k: string)
    ensures ChangesNamed(a + b, k) == ChangesNamed(a, k) + ChangesNamed(b, k)
    decreases |b|
  {
    if b == [] {
      assert a + b == a;
    } else {
      var b' := b[..|b| - 1];
      assert (a + b)[..|a + b| - 1] == a + b';
      ChangesNamedAppend(a, b', k);
    }
  }

  /** Visiting the name `x` yields changes only for the job named `x`. */
  lemma ChangesNamedOfStep(cache: map<string, Job>, current: map<string, Job>, x: string, k: string)
    requires x in current && KeyedByName(current)
    ensures ChangesNamed(ChangeFor(cache, current, x), k) == if x == k then ChangeFor(cache, current, x) else []
  {
    var step := ChangeFor(cache, current, x);
    if step != [] {
      assert step[..|step| - 1] == [];
      assert NamedAs(step[0].job, x);
    }
  }

  /** Visiting one more name adds that name's changes to those of the job named `k` only if it is `k`. */
  lemma ChangesNamedSnoc(cache: map<string, Job>, current: map<string, Job>, keys: seq<string>, k: string)
    requires keys != []
    requires forall i :: 0 <= i < |keys| ==> keys[i] in current
    requires KeyedByName(current)
    ensures var x := keys[|keys| - 1];
            ChangesNamed(DiffKeys(cache, current, keys), k)
            == ChangesNamed(DiffKeys(cache, current, keys[..|keys| - 1]), k) + (if x == k then ChangeFor(cache, current, x) else [])
  {
    var init := keys[..|keys| - 1];
    var x := keys[|keys| - 1];
    ChangesNamedAppend(DiffKeys(cache, current, init), ChangeFor(cache, current, x), k);
    ChangesNamedOfStep(cache, current, x, k);
  }

  /** In a list of distinct names, the last one is not among the others, which are distinct too. */
  lemma DistinctSnoc(keys: seq<string>)
    requires keys != []
    requires forall a, b :: 0 <= a < b < |keys| ==> keys[a] != keys[b]
    ensures var init := keys[..|keys| - 1];
            && keys[|keys| - 1] !in init
            && (forall a, b :: 0 <= a < b < |init| ==> init[a] != init[b])
            && (forall k :: k in keys <==> k in init || k == keys[|keys| - 1])
  {
    assert keys == keys[..|keys| - 1] + [keys[|keys| - 1]];
  }

  /** The changes for the job named `k`: exactly what the loop body does for `k`, if `k` is visited. */
  lemma {:induction false} ChangesForKey(cache: map<string, Job>, current: map<string, Job>, keys: seq<string>, k: string)
    requires forall i :: 0 <= i < |keys| ==> keys[i] in current
    requires KeyedByName(current)
    requires forall a, b :: 0 <= a < b < |keys| ==> keys[a] != keys[b]
    ensures ChangesNamed(DiffKeys(cache, current, keys), k) == if k in keys then ChangeFor(cache, current, k) else []
    decreases |keys|
  {
    if keys != [] {
      DistinctSnoc(keys);
      ChangesForKey(cache, current, keys[..|keys| - 1], k);
      ChangesNamedSnoc(cache, current, keys, k);
    }
  }

  /** The changes of a whole poll for the job named `k`. */
  lemma PollChangesForKey(cache: map<string, Job>, jobs: seq<Job>, k: string)
    ensures ChangesNamed(PollChanges(cache, jobs), k) == if k in CacheOf(jobs) then ChangeFor(cache, CacheOf(jobs), k) else []
  {
    ChangesForKey(cache, CacheOf(jobs), KeyOrder(jobs), k);
  }

  /** A job that is not in the old cache yields exactly one change, with no previous snapshot. */
  lemma NewJobYieldsOneEvent(cache: map<string, Job>, jobs: seq<Job>, k: string, ts: Timestamp)
    requires Listed(jobs, k) && k !in cache
    ensures ChangesNamed(PollChanges(cache, jobs), k) == [Change(CacheOf(jobs)[k], None)]
    ensures MakeEvent(CacheOf(jobs)[k], None, ts).oldStatus == NewStatus
    ensures MakeEvent(CacheOf(jobs)[k], None, ts).newStatus == GetOr(CacheOf(jobs)[k].status, UnknownStatus)
  {
    PollChangesForKey(cache, jobs, k);
  }

  /** A cached job whose status is unchanged yields no change. */
  lemma UnchangedStatusYieldsNoEvent(cache: map<string, Job>, jobs: seq<Job>, k: string)
    requires Listed(jobs, k) && k in cache
    requires cache[k].status == CacheOf(jobs)[k].status
    ensures ChangesNamed(PollChanges(cache, jobs), k) == []
  {
    PollChangesForKey(cache, jobs, k);
  }

  /** A cached job whose status differs yields exactly one change recording the old and the new snapshot. */
  lemma ChangedStatusYieldsOneEvent(cache: map<string, Job>, jobs: seq<Job>, k: string, ts: Timestamp)
    requires Listed(jobs, k) && k in cache
    requires cache[k].status != CacheOf(jobs)[k].status
    ensures ChangesNamed(PollChanges(cache, jobs), k) == [Change(CacheOf(jobs)[k], Some(cache[k]))]
    ensures MakeEvent(CacheOf(jobs)[k], Some(cache[k]), ts).oldStatus == GetOr(cache[k].status, NewStatus)
    ensures MakeEvent(CacheOf(jobs)[k], Some(cache[k]), ts).newStatus == GetOr(CacheOf(jobs)[k].status, UnknownStatus)
  {
    PollChangesForKey(cache, jobs, k);
  }

  /** A job absent from the new list yields no change, whether or not it was cached. */
  lemma VanishedJobYieldsNoEvent(cache: map<string, Job>, jobs: seq<Job>, k: string)
    requires !Listed(jobs, k)
    ensures ChangesNamed(PollChanges(cache, jobs), k) == []
  {
    PollChangesForKey(cache, jobs, k);
  }

  /** Each job contributes at most one change per poll. */
  lemma AtMostOneEventPerJob(cache: map<string, Job>, jobs: seq<Job>, k: string)
    ensures |ChangesNamed(PollChanges(cache, jobs), k)| <= 1
  {
    PollChangesForKey(cache, jobs, k);
  }

  lemma {:induction false} DiffAgainstItselfIsEmpty(current: map<string, Job>, keys: seq<string>)
    requires forall i :: 0 <= i < |keys| ==> keys[i] in current
    requires KeyedByName(current)
    ensures DiffKeys(current, current, keys) == []
    decreases |keys|
  {
    if keys != [] {
      DiffAgainstItselfIsEmpty(current, keys[..|keys| - 1]);
    }
  }

  /** Polling the same list a second time finds no change. */
  lemma SecondPollIsQuiet(jobs: seq<Job>)
    ensures PollChanges(CacheOf(jobs), jobs) == []
  {
    DiffAgainstItselfIsEmpty(CacheOf(jobs), KeyOrder(jobs));
  }
}
