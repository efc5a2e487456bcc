/** The queue scripts and the synchronisation pass as they walk and change the lists. */
module QueueDesk {
  import opened Common
  import opened Queues

  class Desk {
    var jobs: map<JobId, Job>
    var normal: seq<JobId>
    var high: seq<JobId>
    var held: seq<JobId>
    var cancelled: set<nat>

    constructor (l: Lane)
      ensures View() == l
    {
      jobs, normal, high, held, cancelled := l.jobs, l.normal, l.high, l.held, l.cancelled;
    }

    function View(): Lane
      reads this
    {
      Lane(jobs, normal, high, held, cancelled)
    }

    // PROMOTE_JOB: the removal must succeed before the job's own record changes.
    method PromoteJob(id: JobId) returns (moved: bool)
      modifies this`jobs, this`normal, this`high
      ensures View() == Promoted(old(View()), id)
      ensures moved <==> old(Promotable(View(), id))
    {
      if id.log in cancelled { return false; }
      if id !in jobs || jobs[id].status != Queued { return false; }
      if jobs[id].high { return false; }
      var rest := Without(normal, id);
      Shorter(normal, id);
      if |rest| == |normal| { return false; }
      normal := rest;
      jobs := jobs[id := jobs[id].(high := true)];
      high := high + [id];
      return true;
    }

    // One pass of sync_pro_priority over this queue.
    method SyncPriority(logs: seq<nat>, stages: seq<nat>)
      modifies this`jobs, this`normal, this`high
      ensures View() == Synced(old(View()), logs, stages)
    {
      var polls := normal;
      ghost var start := View();
      for i := 0 to |logs|
        invariant PromoteAll(start, AllCandidates(logs, stages, polls)) == PromoteAll(View(), AllCandidates(logs[i..], stages, polls))
      {
        PromoteConcat(View(), Candidates(logs[i], stages, polls), AllCandidates(logs[i + 1..], stages, polls));
        assert logs[i..][1..] == logs[i + 1..];
        PromoteList(Candidates(logs[i], stages, polls));
      }
    }

    method PromoteList(ids: seq<JobId>)
      modifies this`jobs, this`normal, this`high
      ensures View() == PromoteAll(old(View()), ids)
    {
      ghost var start := View();
      for i := 0 to |ids|
        invariant PromoteAll(start, ids) == PromoteAll(View(), ids[i..])
      {
        assert ids[i..][0] == ids[i] && ids[i..][1..] == ids[i + 1..];
        var moved := PromoteJob(ids[i]);
      }
    }

    // QUEUE_POSITION_SCRIPT
    method QueuePosition(id: JobId) returns (ahead: nat)
      ensures ahead == Position(View(), id)
    {
      for i := 0 to |high|
        invariant forall j :: 0 <= j < i ==> high[j] != id
      {
        if high[i] == id { return i; }
      }
      for i := 0 to |normal|
        invariant forall j :: 0 <= j < i ==> normal[j] != id
      {
        if normal[i] == id { return |high| + i; }
      }
      return 0;
    }
  }

  lemma Shorter(list: seq<JobId>, id: JobId)
    ensures |Without(list, id)| <= |list|
    ensures |Without(list, id)| == |list| <==> id !in list
  {
  }

  lemma PromoteConcat(l: Lane, a: seq<JobId>, b: seq<JobId>)
    ensures PromoteAll(l, a + b) == PromoteAll(PromoteAll(l, a), b)
    decreases |a|
  {
    hide Promoted;
    if a == [] {
      assert a + b == b;
    } else {
      assert (a + b)[1..] == a[1..] + b;
      PromoteConcat(Promoted(l, a[0]), a[1..], b);
    }
  }
}
