/** The bounded preview queue (internal/agent/preview_queue.go): one worker,
    coalesced jobs, foreground requests first, optional warmups displaceable.
    Every method is one critical section of the source. */
module PreviewQueue {
  import opened Prelude

  type Key = string
  /** The identity of a job object. */
  type JobId = nat

  const QUEUE_LIMIT := 16

  /** What a job ended with. Its done channel is closed when the outcome is set. */
  datatype Outcome = Pending | Displaced | Canceled | Generated(body: Option<Text>)

  datatype Job = Job(key: Key, foreground: bool, outcome: Outcome)

  datatype Submitted = Accepted(id: JobId) | QueueFull | QueueClosed

  datatype Picked = Stop | Wait | Work(id: JobId)

  // ---- Sequences of distinct jobs ----

  ghost predicate Distinct(q: seq<JobId>) { forall i, j :: 0 <= i < j < |q| ==> q[i] != q[j] }

  function Without(q: seq<JobId>, i: nat): seq<JobId>
    requires i < |q|
  {
    q[..i] + q[i + 1..]
  }

  lemma WithoutKeeps(q: seq<JobId>, i: nat)
    requires Distinct(q) && i < |q|
    ensures Distinct(Without(q, i)) && |Without(q, i)| == |q| - 1
    ensures forall x :: x in Without(q, i) <==> x in q && x != q[i]
  {
    var r := Without(q, i);
    assert forall k :: 0 <= k < |r| ==> r[k] == if k < i then q[k] else q[k + 1];
    forall x | x in q && x != q[i] ensures x in r {
      var k :| 0 <= k < |q| && q[k] == x;
      assert r[if k < i then k else k - 1] == x;
    }
  }

  lemma SnocKeeps(q: seq<JobId>, id: JobId)
    requires Distinct(q) && id !in q
    ensures Distinct(q + [id])
    ensures forall x :: x in q + [id] <==> x in q || x == id
  {
  }

  // ---- The invariant ----

  predicate Live(queued: seq<JobId>, active: Option<JobId>, id: JobId) { id in queued || active == Some(id) }

  ghost predicate JobOk(jobs: map<Key, JobId>, live: bool, job: Job, id: JobId) {
    && (job.outcome.Pending? <==> live)
    && (live ==> job.key in jobs && jobs[job.key] == id)
    && (job.outcome.Displaced? ==> !job.foreground)
  }

  /** The map lists exactly the queued jobs and the active one, each under its key;
      a job is unfinished exactly as long as it is listed; none that a foreground
      request asked for was ever displaced. */
  ghost predicate Tracked(jobs: map<Key, JobId>, queued: seq<JobId>, active: Option<JobId>, records: map<JobId, Job>) {
    && Distinct(queued) && (active.Some? ==> active.value !in queued)
    && (forall id :: Live(queued, active, id) ==> id in records)
    && (forall id :: id in records ==> JobOk(jobs, Live(queued, active, id), records[id], id))
    && (forall k :: k in jobs ==> jobs[k] in records && Live(queued, active, jobs[k]) && records[jobs[k]].key == k)
  }

  lemma Listed(jobs: map<Key, JobId>, queued: seq<JobId>, active: Option<JobId>, records: map<JobId, Job>, id: JobId)
    requires Tracked(jobs, queued, active, records) && Live(queued, active, id)
    ensures id in records && records[id].outcome.Pending? && records[id].key in jobs && jobs[records[id].key] == id
    ensures jobs != map[]
  {
    hide Distinct, Live;
    assert JobOk(jobs, Live(queued, active, id), records[id], id);
  }

  /** One job gets its outcome and leaves the map. */
  lemma Leaves(jobs: map<Key, JobId>, queued: seq<JobId>, active: Option<JobId>, records: map<JobId, Job>,
               queued': seq<JobId>, active': Option<JobId>, id: JobId, o: Outcome)
    requires Tracked(jobs, queued, active, records) && Live(queued, active, id)
    requires Distinct(queued') && (active'.Some? ==> active'.value !in queued')
    requires forall x :: Live(queued', active', x) <==> Live(queued, active, x) && x != id
    requires !o.Pending? && (o.Displaced? ==> id in records && !records[id].foreground)
    ensures id in records
            && Tracked(jobs - {records[id].key}, queued', active', records[id := records[id].(outcome := o)])
  {
    Listed(jobs, queued, active, records, id);
    hide Distinct, Live;
    var jobs', records' := jobs - {records[id].key}, records[id := records[id].(outcome := o)];
    forall x | x in records' ensures JobOk(jobs', Live(queued', active', x), records'[x], x) {
      assert JobOk(jobs, Live(queued, active, x), records[x], x);
      if x != id && Live(queued, active, x) { assert records[x].key != records[id].key; }
    }
    hide JobOk;
  }

  /** A job moves from the queue to the worker, which had none. */
  lemma Starts(jobs: map<Key, JobId>, queued: seq<JobId>, records: map<JobId, Job>, i: nat)
    requires Tracked(jobs, queued, None, records) && i < |queued|
    ensures Tracked(jobs, Without(queued, i), Some(queued[i]), records)
  {
    WithoutKeeps(queued, i);
    var id := queued[i];
    assert forall x :: Live(Without(queued, i), Some(id), x) <==> Live(queued, None, x);
    hide Distinct, Live, Without, JobOk;
  }

  lemma Enters(jobs: map<Key, JobId>, queued: seq<JobId>, active: Option<JobId>, records: map<JobId, Job>, id: JobId,
               job: Job)
    requires Tracked(jobs, queued, active, records) && id !in records && job.key !in jobs && job.outcome.Pending?
    ensures Tracked(jobs[job.key := id], queued + [id], active, records[id := job])
  {
    assert !Live(queued, active, id);
    SnocKeeps(queued, id);
    assert forall x :: Live(queued + [id], active, x) <==> Live(queued, active, x) || x == id;
    hide Distinct, Live;
    var jobs', records' := jobs[job.key := id], records[id := job];
    forall x | x in records' ensures JobOk(jobs', Live(queued + [id], active, x), records'[x], x) {
      if x != id { assert JobOk(jobs, Live(queued, active, x), records[x], x); }
    }
    hide JobOk;
  }

  /** A coalesced request may raise its job to the foreground. */
  lemma Raised(jobs: map<Key, JobId>, queued: seq<JobId>, active: Option<JobId>, records: map<JobId, Job>, key: Key,
               foreground: bool)
    requires Tracked(jobs, queued, active, records) && key in jobs
    ensures jobs[key] in records && records[jobs[key]].outcome.Pending?
    ensures Tracked(jobs, queued, active, records[jobs[key] := records[jobs[key]].(foreground := records[jobs[key]].foreground || foreground)])
  {
    hide Distinct, Live;
    var id := jobs[key];
    assert JobOk(jobs, Live(queued, active, id), records[id], id);
    var records' := records[id := records[id].(foreground := records[id].foreground || foreground)];
    forall x | x in records' ensures JobOk(jobs, Live(queued, active, x), records'[x], x) {
      assert JobOk(jobs, Live(queued, active, x), records[x], x);
    }
    hide JobOk;
  }

  lemma SizeWithout(jobs: map<Key, JobId>, key: Key)
    requires key in jobs
    ensures |jobs - {key}| == |jobs| - 1
  {
    assert jobs.Keys == (jobs - {key}).Keys + {key};
  }

  lemma SizeWith(jobs: map<Key, JobId>, key: Key, id: JobId)
    requires key !in jobs
    ensures |jobs[key := id]| == |jobs| + 1
  {
    assert jobs[key := id].Keys == jobs.Keys + {key};
  }

  /** A queued job gets its outcome: everything its removal changes and keeps. */
  lemma Optional(jobs: map<Key, JobId>, queued: seq<JobId>, active: Option<JobId>, records: map<JobId, Job>, i: nat)
    requires Tracked(jobs, queued, active, records) && i < |queued|
    ensures Live(queued, active, queued[i]) && queued[i] in records && jobs != map[]
    ensures !IsForeground(records, queued[i]) ==> !records[queued[i]].foreground
  {
    assert Live(queued, active, queued[i]);
    Listed(jobs, queued, active, records, queued[i]);
    hide Tracked, Distinct;
  }

  lemma Removed(jobs: map<Key, JobId>, queued: seq<JobId>, active: Option<JobId>, records: map<JobId, Job>, i: nat,
                o: Outcome)
    requires Tracked(jobs, queued, active, records) && i < |queued| && !o.Pending?
    requires o.Displaced? ==> queued[i] in records && !records[queued[i]].foreground
    ensures queued[i] in records && records[queued[i]].outcome.Pending? && records[queued[i]].key in jobs
    ensures |jobs - {records[queued[i]].key}| == |jobs| - 1
    ensures Tracked(jobs - {records[queued[i]].key}, Without(queued, i), active, records[queued[i] := records[queued[i]].(outcome := o)])
  {
    assert Live(queued, active, queued[i]);
    hide Live, JobOk;
    Listed(jobs, queued, active, records, queued[i]);
    Distinguish(jobs, queued, active, records, i);
    SizeWithout(jobs, records[queued[i]].key);
    Leaves(jobs, queued, active, records, Without(queued, i), active, queued[i], o);
    hide *;
  }

  /** The active job gets its outcome. */
  lemma Finished(jobs: map<Key, JobId>, queued: seq<JobId>, id: JobId, records: map<JobId, Job>, o: Outcome)
    requires Tracked(jobs, queued, Some(id), records) && o.Generated?
    ensures id in records && records[id].outcome.Pending? && records[id].key in jobs
    ensures |jobs - {records[id].key}| == |jobs| - 1
    ensures Tracked(jobs - {records[id].key}, queued, None, records[id := records[id].(outcome := o)])
  {
    assert Live(queued, Some(id), id);
    hide Live, JobOk;
    Listed(jobs, queued, Some(id), records, id);
    Parted(jobs, queued, Some(id), records);
    SizeWithout(jobs, records[id].key);
    Leaves(jobs, queued, Some(id), records, queued, None, id, o);
    hide *;
  }

  // ---- Priorities ----

  predicate IsForeground(records: map<JobId, Job>, id: JobId) { id in records && records[id].foreground }

  /** The queued jobs of one priority, in arrival order. */
  function Class(queued: seq<JobId>, records: map<JobId, Job>, foreground: bool): seq<JobId> {
    if queued == [] then [] else
      (if IsForeground(records, queued[0]) == foreground then [queued[0]] else []) + Class(queued[1..], records, foreground)
  }

  /** The order in which an undisturbed worker serves a queue. */
  function ServiceOrder(queued: seq<JobId>, records: map<JobId, Job>): seq<JobId> {
    Class(queued, records, true) + Class(queued, records, false)
  }

  /** The next job: the first foreground one, or else the first. */
  ghost predicate Next(queued: seq<JobId>, records: map<JobId, Job>, i: nat) {
    && i < |queued|
    && (forall j :: 0 <= j < i ==> !IsForeground(records, queued[j]))
    && (IsForeground(records, queued[i]) || (i == 0 && forall j :: 0 <= j < |queued| ==> !IsForeground(records, queued[j])))
  }

  lemma {:induction false} ClassSum(a: seq<JobId>, b: seq<JobId>, records: map<JobId, Job>, f: bool)
    ensures Class(a + b, records, f) == Class(a, records, f) + Class(b, records, f)
    decreases |a|
  {
    if a == [] {
      EmptyLeft(b);
      EmptyLeft(Class(b, records, f));
    } else {
      assert (a + b)[1..] == a[1..] + b && (a + b)[0] == a[0];
      ClassSum(a[1..], b, records, f);
      Assoc(if IsForeground(records, a[0]) == f then [a[0]] else [], Class(a[1..], records, f), Class(b, records, f));
    }
  }

  /** A stretch of one priority. */
  lemma {:induction false} ClassAll(a: seq<JobId>, records: map<JobId, Job>, f: bool)
    requires forall j :: 0 <= j < |a| ==> IsForeground(records, a[j]) == f
    ensures Class(a, records, f) == a && Class(a, records, !f) == []
    decreases |a|
  {
    if a != [] {
      Uncons(a);
      ClassAll(a[1..], records, f);
    }
  }

  lemma ClassOne(id: JobId, records: map<JobId, Job>, f: bool)
    ensures Class([id], records, f) == if IsForeground(records, id) == f then [id] else []
  {
    assert Class([id][1..], records, f) == [];
  }

  /** The classes of a queue, cut around one of its jobs. */
  lemma ClassAt(queued: seq<JobId>, records: map<JobId, Job>, i: nat, f: bool)
    requires i < |queued|
    ensures Class(queued, records, f) == Class(queued[..i], records, f) + (Class([queued[i]], records, f) + Class(queued[i + 1..], records, f))
    ensures Class(Without(queued, i), records, f) == Class(queued[..i], records, f) + Class(queued[i + 1..], records, f)
  {
    var a, x, b := queued[..i], queued[i], queued[i + 1..];
    assert queued == a + ([x] + b);
    ClassSum(a, [x] + b, records, f);
    ClassSum([x], b, records, f);
    ClassSum(a, b, records, f);
  }

  /** Serving the next job is the head of the service order. */
  lemma NextFirst(queued: seq<JobId>, records: map<JobId, Job>, i: nat)
    requires Next(queued, records, i)
    ensures ServiceOrder(queued, records) == [queued[i]] + ServiceOrder(Without(queued, i), records)
  {
    var a, x, b := queued[..i], queued[i], queued[i + 1..];
    ClassAt(queued, records, i, true);
    ClassAt(queued, records, i, false);
    ClassOne(x, records, true);
    ClassOne(x, records, false);
    ClassAll(a, records, false);
    if IsForeground(records, x) {
      hide *;
      ServiceOrderDef(queued, records);
      ServiceOrderDef(Without(queued, i), records);
      HeadFirst(x, a, Class(b, records, true), Class(b, records, false));
    } else {
      ClassAll(b, records, false);
      assert a == [];
      hide *;
      ServiceOrderDef(queued, records);
      ServiceOrderDef(Without(queued, i), records);
      assert [x] + b == [x] + b;
      EmptyLeft(b);
    }
  }

  lemma ServiceOrderDef(queued: seq<JobId>, records: map<JobId, Job>)
    ensures ServiceOrder(queued, records) == Class(queued, records, true) + Class(queued, records, false)
  {
  }

  lemma HeadFirst(x: JobId, a: seq<JobId>, f: seq<JobId>, o: seq<JobId>)
    ensures ([] + ([x] + f)) + (a + ([] + o)) == [x] + (([] + f) + (a + o))
  {
  }

  /** Outcomes of other jobs do not change priorities. */
  lemma {:induction false} ClassSame(queued: seq<JobId>, records: map<JobId, Job>, records': map<JobId, Job>, f: bool)
    requires forall id :: id in queued ==> IsForeground(records', id) == IsForeground(records, id)
    ensures Class(queued, records', f) == Class(queued, records, f)
    decreases |queued|
  {
    if queued != [] {
      ClassSame(queued[1..], records, records', f);
    }
  }

  class PreviewQueue {
    var jobs: map<Key, JobId>
    var queued: seq<JobId>
    var running: bool
    var closed: bool
    /** The job the worker is generating, between its two critical sections. */
    var active: Option<JobId>
    /** All job objects ever made. */
    var records: map<JobId, Job>
    var nextJob: JobId

    ghost predicate Valid()
      reads this
    {
      && Tracked(jobs, queued, active, records)
      && |jobs| <= QUEUE_LIMIT
      && (forall id :: id in records ==> id < nextJob)
      && (queued != [] && !closed ==> running)
      && (active.Some? ==> running)
      && (closed ==> queued == [])
    }

    constructor ()
      ensures Valid() && jobs == map[] && queued == [] && active == None && records == map[] && !running && !closed
    {
      jobs, queued, running, closed, active, records, nextJob := map[], [], false, false, None, map[], 0;
    }

    /** The newest queued job that nobody in the foreground asked for. */
    method Victim() returns (i: Option<nat>)
      requires Valid()
      ensures i.None? <==> forall j :: 0 <= j < |queued| ==> IsForeground(records, queued[j])
      ensures i.Some? ==> i.value < |queued| && !IsForeground(records, queued[i.value])
                          && forall j :: i.value + 1 <= j < |queued| ==> IsForeground(records, queued[j])
    {
      var k := |queued|;
      while k > 0
        invariant 0 <= k <= |queued|
        invariant forall j :: k <= j < |queued| ==> IsForeground(records, queued[j])
      {
        k := k - 1;
        if !(queued[k] in records && records[queued[k]].foreground) {
          return Some(k);
        }
      }
      return None;
    }

    /** Removes the queued job at i, which ends displaced. */
    method Displace(i: nat)
      requires Valid() && i < |queued| && !IsForeground(records, queued[i])
      modifies this`jobs, this`queued, this`records
      ensures Valid() && queued == Without(old(queued), i) && |jobs| == |old(jobs)| - 1
      ensures old(queued)[i] in old(records) && old(records)[old(queued)[i]].outcome.Pending?
      ensures jobs == old(jobs) - {old(records)[old(queued)[i]].key}
      ensures records == old(records)[old(queued)[i] := old(records)[old(queued)[i]].(outcome := Displaced)]
    {
      hide Tracked, Without, IsForeground, Live;
      Optional(jobs, queued, active, records, i);
      Removed(jobs, queued, active, records, i, Displaced);
      var id := queued[i];
      assert !closed && running;
      queued := Without(queued, i);
      jobs := jobs - {records[id].key};
      records := records[id := records[id].(outcome := Displaced)];
    }

    /** Joins the job listed under an equal key. */
    method Join(key: Key, foreground: bool) returns (id: JobId)
      requires Valid() && key in jobs
      modifies this`records
      ensures Valid() && id == jobs[key] && id in old(records) && old(records)[id].key == key
              && old(records)[id].outcome.Pending?
      ensures records == old(records)[id := old(records)[id].(foreground := old(records)[id].foreground || foreground)]
    {
      id := jobs[key];
      Raised(jobs, queued, active, records, key, foreground);
      KeyOf(jobs, queued, active, records, key);
      hide Tracked;
      records := records[id := records[id].(foreground := records[id].foreground || foreground)];
    }

    /** Lists a new job and makes sure a worker runs. */
    method Enter(key: Key, foreground: bool) returns (id: JobId)
      requires Valid() && !closed && key !in jobs && |jobs| < QUEUE_LIMIT
      modifies this`jobs, this`queued, this`records, this`running, this`nextJob
      ensures Valid() && id == old(nextJob) && id !in old(records)
      ensures jobs == old(jobs)[key := id] && queued == old(queued) + [id]
      ensures records == old(records)[id := Job(key, foreground, Pending)]
    {
      id := nextJob;
      nextJob := nextJob + 1;
      var job := Job(key, foreground, Pending);
      Enters(jobs, queued, active, records, id, job);
      SizeWith(jobs, key, id);
      hide Tracked;
      jobs := jobs[key := id];
      queued := queued + [id];
      records := records[id := job];
      running := true;
    }

    /** Asks for a preview. An equal request in the map is joined; otherwise a new
        job enters, in a full map only for a foreground request and in place of the
        newest queued optional job. */
    method Submit(key: Key, foreground: bool) returns (r: Submitted)
      requires Valid()
      modifies this`jobs, this`queued, this`records, this`running, this`nextJob
      ensures Valid()
      ensures r.QueueClosed? <==> closed
      ensures r.QueueFull? == (!closed && key !in old(jobs) && |old(jobs)| == 16
                               && (foreground ==> forall id :: id in old(queued) ==> IsForeground(old(records), id)))
      ensures !r.Accepted? ==> jobs == old(jobs) && queued == old(queued) && records == old(records)
      ensures r.Accepted? ==> key in jobs && jobs[key] == r.id && r.id in records && records[r.id].key == key
                              && records[r.id].outcome.Pending? && (foreground ==> records[r.id].foreground)
      ensures r.Accepted? && key in old(jobs) ==> r.id == old(jobs)[key] && jobs == old(jobs) && queued == old(queued)
      ensures r.Accepted? && key !in old(jobs) ==> r.id !in old(records) && queued != [] && queued[|queued| - 1] == r.id
      ensures ForegroundKept(old(records), records)
    {
      hide Tracked, Without, ForegroundKept;
      KeptRefl(records);
      if closed {
        return QueueClosed;
      }
      if key in jobs {
        KeptRaised(records, jobs[key], foreground);
        var id := Join(key, foreground);
        return Accepted(id);
      }
      if |jobs| >= QUEUE_LIMIT {
        var victim: Option<nat> := None;
        if foreground {
          victim := Victim();
        }
        if victim.None? {
          return QueueFull;
        }
        KeptEnds(records, queued[victim.value], Displaced);
        Displace(victim.value);
      }
      KeptEntered(records, nextJob, Job(key, foreground, Pending));
      ghost var r1 := records;
      var id := Enter(key, foreground);
      KeptJoin(old(records), r1, records);
      return Accepted(id);
    }

    /** The worker's first section: stop, wait out a quiet window that only
        optional work respects, or take the next job. */
    method Pick(quiet: bool) returns (p: Picked)
      requires Valid() && running && active == None
      modifies this`queued, this`running, this`active
      ensures Valid()
      ensures p.Stop? <==> old(queued) == [] || closed
      ensures p.Stop? ==> !running && active == None && queued == old(queued)
      ensures p.Wait? ==> quiet && running && active == None && queued == old(queued)
                          && forall id :: id in queued ==> !IsForeground(records, id)
      ensures p.Work? ==> running && active == Some(p.id)
                          && exists i: nat :: Next(old(queued), records, i) && old(queued)[i] == p.id && queued == Without(old(queued), i)
    {
      if |queued| == 0 || closed {
        running := false;
        return Stop;
      }
      var index := First();
      var id := queued[index];
      if quiet && !(id in records && records[id].foreground) {
        return Wait;
      }
      Starts(jobs, queued, records, index);
      hide Tracked, Next, Without;
      queued := Without(queued, index);
      active := Some(id);
      return Work(id);
    }

    method First() returns (index: nat)
      requires |queued| > 0
      ensures Next(queued, records, index)
    {
      index := 0;
      var i := 0;
      while i < |queued|
        invariant i <= |queued| && index == 0
        invariant forall j :: 0 <= j < i ==> !IsForeground(records, queued[j])
      {
        if queued[i] in records && records[queued[i]].foreground {
          index := i;
          return;
        }
        i := i + 1;
      }
    }

    /** The worker's second section: the outcome is published and the job leaves. */
    method Finish(body: Option<Text>)
      requires Valid() && active.Some?
      modifies this`jobs, this`active, this`records
      ensures Valid() && active == None
      ensures old(active).value in old(records) && old(records)[old(active).value].outcome.Pending?
      ensures records == old(records)[old(active).value := old(records)[old(active).value].(outcome := Generated(body))]
      ensures jobs == old(jobs) - {old(records)[old(active).value].key}
    {
      var id := active.value;
      Finished(jobs, queued, id, records, Generated(body));
      hide Tracked;
      jobs := jobs - {records[id].key};
      records := records[id := records[id].(outcome := Generated(body))];
      active := None;
    }

    /** Shutdown: every queued job ends canceled; the active one is left to its worker. */
    method Close()
      requires Valid()
      modifies this`jobs, this`queued, this`records, this`closed
      ensures Valid() && closed && queued == []
      ensures old(closed) ==> jobs == old(jobs) && records == old(records)
      ensures records.Keys == old(records).Keys
      ensures forall id :: id in old(records) ==>
                records[id] == if id in old(queued) then old(records)[id].(outcome := Canceled) else old(records)[id]
      ensures forall id :: id in old(queued) && id in old(records) ==> old(records)[id].outcome.Pending?
    {
      if closed {
        return;
      }
      PendingAll(jobs, queued, active, records);
      CancelingStarts(queued, records);
      closed := true;
      ghost var q0, r0 := queued, records;
      while |queued| > 0
        invariant Tracked(jobs, queued, active, records) && |jobs| <= QUEUE_LIMIT && closed
        invariant Canceling(q0, r0, queued, records) && forall id :: id in queued ==> id in q0
        decreases |queued|
      {
        ghost var q, r := queued, records;
        Separate(jobs, queued, active, records);
        hide Canceling, Tracked, Distinct;
        CloseFirst();
        CancelingStep(q0, r0, q, r);
      }
      hide Tracked;
    }

    method CloseFirst()
      requires Tracked(jobs, queued, active, records) && |jobs| <= QUEUE_LIMIT && queued != []
      modifies this`jobs, this`queued, this`records
      ensures Tracked(jobs, queued, active, records) && |jobs| <= QUEUE_LIMIT && queued == old(queued)[1..]
      ensures old(queued)[0] in old(records)
      ensures records == old(records)[old(queued)[0] := old(records)[old(queued)[0]].(outcome := Canceled)]
    {
      var id := queued[0];
      Removed(jobs, queued, active, records, 0, Canceled);
      assert Without(queued, 0) == queued[1..];
      hide Tracked, Without;
      jobs := jobs - {records[id].key};
      records := records[id := records[id].(outcome := Canceled)];
      queued := queued[1..];
    }

    /** The worker's loop when nothing else happens: it serves the queue in
        service order, then stops. */
    method Serve(generate: Key -> Option<Text>) returns (served: seq<JobId>)
      requires Valid() && running && active == None
      modifies this`jobs, this`queued, this`records, this`running, this`active
      ensures Valid() && !running && queued == [] && active == None
      ensures served == ServiceOrder(old(queued), old(records))
      ensures forall id :: id in served ==> id in records && records[id].outcome == Generated(generate(records[id].key))
    {
      served := [];
      EmptyLeft(ServiceOrder(queued, records));
      hide ServiceOrder, Tracked, Next, Without;
      while true
        invariant Valid() && running && active == None
        invariant served + ServiceOrder(queued, records) == ServiceOrder(old(queued), old(records))
        invariant forall id :: id in served ==> id in records && records[id].outcome == Generated(generate(records[id].key))
        decreases |queued|
      {
        ghost var q0 := queued;
        var p := Pick(false);
        if p.Stop? {
          ServiceOrderEmpty(records);
          EmptyRight(served);
          return;
        }
        ServeStep(q0, queued, records, p.id, served);
        served := served + [p.id];
        ghost var r0 := records;
        var body := None;
        if p.id in records {
          body := generate(records[p.id].key);
        }
        Finish(body);
        ServiceOrderSame(queued, r0, records);
      }
    }
  }

  lemma ServiceOrderEmpty(records: map<JobId, Job>)
    ensures ServiceOrder([], records) == []
  {
  }

  lemma ServiceOrderSame(queued: seq<JobId>, records: map<JobId, Job>, records': map<JobId, Job>)
    requires forall id :: IsForeground(records', id) == IsForeground(records, id)
    ensures ServiceOrder(queued, records') == ServiceOrder(queued, records)
  {
    ClassSame(queued, records, records', true);
    ClassSame(queued, records, records', false);
  }

  lemma ServeStep(q0: seq<JobId>, q: seq<JobId>, records: map<JobId, Job>, id: JobId, served: seq<JobId>)
    requires exists i: nat :: Next(q0, records, i) && q0[i] == id && q == Without(q0, i)
    ensures served + ServiceOrder(q0, records) == served + [id] + ServiceOrder(q, records)
    ensures |q| < |q0|
  {
    var i: nat :| Next(q0, records, i) && q0[i] == id && q == Without(q0, i);
    NextFirst(q0, records, i);
    assert |q| == |q0| - 1;
    hide *;
    Assoc(served, [id], ServiceOrder(q, records));
  }

  ghost predicate Canceling(q0: seq<JobId>, r0: map<JobId, Job>, q: seq<JobId>, r: map<JobId, Job>) {
    && r.Keys == r0.Keys
    && (forall id :: id in r0 ==> r[id] == if id in q0 && id !in q then r0[id].(outcome := Canceled) else r0[id])
  }

  lemma CancelingStarts(q: seq<JobId>, r: map<JobId, Job>)
    ensures Canceling(q, r, q, r)
  {
  }

  lemma CancelingStep(q0: seq<JobId>, r0: map<JobId, Job>, q: seq<JobId>, r: map<JobId, Job>)
    requires Canceling(q0, r0, q, r) && q != [] && Distinct(q) && q[0] in q0 && q[0] in r && (forall id :: id in q ==> id in q0)
    ensures Canceling(q0, r0, q[1..], r[q[0] := r[q[0]].(outcome := Canceled)])
    ensures forall id :: id in q[1..] ==> id in q0
  {
    var id := q[0];
    assert r[id := r[id].(outcome := Canceled)].Keys == r0.Keys;
    forall x ensures x in q[1..] <==> x in q && x != id {
      if x in q && x != id {
        var k :| 0 <= k < |q| && q[k] == x;
        assert q[1..][k - 1] == x;
      }
    }
    hide Distinct;
  }

  /** Jobs a foreground request asked for keep that mark and their outcome. */
  ghost predicate ForegroundKept(r0: map<JobId, Job>, r: map<JobId, Job>) {
    forall id :: id in r0 ==> id in r && (r0[id].foreground ==> r[id].foreground && r[id].outcome == r0[id].outcome)
  }

  lemma KeptRefl(r: map<JobId, Job>)
    ensures ForegroundKept(r, r)
  {
  }

  lemma KeptJoin(r0: map<JobId, Job>, r1: map<JobId, Job>, r2: map<JobId, Job>)
    requires ForegroundKept(r0, r1) && ForegroundKept(r1, r2)
    ensures ForegroundKept(r0, r2)
  {
  }

  lemma KeptRaised(r: map<JobId, Job>, id: JobId, foreground: bool)
    ensures id in r ==> ForegroundKept(r, r[id := r[id].(foreground := r[id].foreground || foreground)])
  {
  }

  lemma KeptEnds(r: map<JobId, Job>, id: JobId, o: Outcome)
    ensures id in r && !r[id].foreground ==> ForegroundKept(r, r[id := r[id].(outcome := o)])
  {
  }

  lemma KeptEntered(r: map<JobId, Job>, id: JobId, job: Job)
    ensures id !in r ==> ForegroundKept(r, r[id := job])
  {
  }

  lemma PendingAll(jobs: map<Key, JobId>, queued: seq<JobId>, active: Option<JobId>, records: map<JobId, Job>)
    requires Tracked(jobs, queued, active, records)
    ensures forall id :: id in queued ==> id in records && records[id].outcome.Pending?
  {
    forall id | id in queued ensures id in records && records[id].outcome.Pending? {
      assert Live(queued, active, id);
      Listed(jobs, queued, active, records, id);
    }
  }

  lemma Separate(jobs: map<Key, JobId>, queued: seq<JobId>, active: Option<JobId>, records: map<JobId, Job>)
    requires Tracked(jobs, queued, active, records)
    ensures Distinct(queued)
  {
  }

  lemma KeyOf(jobs: map<Key, JobId>, queued: seq<JobId>, active: Option<JobId>, records: map<JobId, Job>, key: Key)
    requires Tracked(jobs, queued, active, records) && key in jobs
    ensures jobs[key] in records && records[jobs[key]].key == key
  {
    hide Distinct, JobOk, Live;
  }

  /** Taking one queued job out leaves the others live. */
  lemma Distinguish(jobs: map<Key, JobId>, queued: seq<JobId>, active: Option<JobId>, records: map<JobId, Job>, i: nat)
    requires Tracked(jobs, queued, active, records) && i < |queued|
    ensures Distinct(Without(queued, i)) && (active.Some? ==> active.value !in Without(queued, i))
    ensures forall x :: Live(Without(queued, i), active, x) <==> Live(queued, active, x) && x != queued[i]
  {
    WithoutKeeps(queued, i);
    hide JobOk, Distinct, Without;
  }

  lemma Parted(jobs: map<Key, JobId>, queued: seq<JobId>, active: Option<JobId>, records: map<JobId, Job>)
    requires Tracked(jobs, queued, active, records) && active.Some?
    ensures Distinct(queued) && forall x :: Live(queued, None, x) <==> Live(queued, active, x) && x != active.value
  {
    hide JobOk, Distinct;
  }
}
