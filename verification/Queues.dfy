/** One worker queue and its priority twin (generation_priority.py, routers/generate.py):
    promotion scripts, workers that pop before they record a start, and reported positions. */
module Queues {
  import opened Common

  // Numbered polls of a generation share the render queue with its stage jobs.
  datatype JobId = StageJob(log: nat, stage: nat) | PollJob(log: nat, number: nat)
  datatype JobStatus = Queued | Started | Finished
  datatype Job = Job(status: JobStatus, high: bool)  // origin: the priority queue or the normal one

  // The left end of a list is popped next. `held` are jobs popped and not finished.
  datatype Lane = Lane(jobs: map<JobId, Job>, normal: seq<JobId>, high: seq<JobId>, held: seq<JobId>, cancelled: set<nat>)

  datatype Step =
    | Enqueue(id: JobId, pro: bool)
    | Promote(id: JobId)
    | Pop
    | Start(id: JobId)
    | Finish(id: JobId)
    | Retry(id: JobId)      // back to the end of its own queue
    | CancelLog(log: nat)

  // lrem with count 0: every occurrence.
  function Without(list: seq<JobId>, id: JobId): seq<JobId> {
    if list == [] then [] else if list[0] == id then Without(list[1..], id) else [list[0]] + Without(list[1..], id)
  }

  function IndexOf(list: seq<JobId>, id: JobId): (k: nat)
    ensures k <= |list| && (k < |list| ==> list[k] == id)
    ensures forall j :: 0 <= j < k ==> list[j] != id
  {
    if list == [] || list[0] == id then 0 else IndexOf(list[1..], id) + 1
  }

  // PROMOTE_JOB, one atomic script.
  predicate Promotable(l: Lane, id: JobId) {
    id.log !in l.cancelled && id in l.jobs && l.jobs[id].status == Queued && !l.jobs[id].high && id in l.normal
  }

  function Promoted(l: Lane, id: JobId): Lane {
    if !Promotable(l, id) then l
    else l.(jobs := l.jobs[id := l.jobs[id].(high := true)], normal := Without(l.normal, id), high := l.high + [id])
  }

  function Do(l: Lane, t: Step): Lane {
    match t
    case Enqueue(id, pro) =>
      if id in l.jobs then l
      else
        var saved := l.(jobs := l.jobs[id := Job(Queued, pro)]);
        if pro then saved.(high := l.high + [id]) else saved.(normal := l.normal + [id])
    case Promote(id) => Promoted(l, id)
    case Pop =>
      if l.high != [] then l.(high := l.high[1..], held := l.held + [l.high[0]])
      else if l.normal != [] then l.(normal := l.normal[1..], held := l.held + [l.normal[0]])
      else l
    case Start(id) => if id in l.held && id in l.jobs then l.(jobs := l.jobs[id := l.jobs[id].(status := Started)]) else l
    case Finish(id) =>
      if id in l.held && id in l.jobs
      then l.(jobs := l.jobs[id := l.jobs[id].(status := Finished)], held := Without(l.held, id))
      else l
    case Retry(id) =>
      if id !in l.held || id !in l.jobs then l
      else
        var back := l.(jobs := l.jobs[id := l.jobs[id].(status := Queued)], held := Without(l.held, id));
        if l.jobs[id].high then back.(high := l.high + [id]) else back.(normal := l.normal + [id])
    case CancelLog(log) => l.(cancelled := l.cancelled + {log})
  }

  function Run(l: Lane, steps: seq<Step>): Lane
    decreases |steps|
  {
    if steps == [] then l else Run(Do(l, steps[0]), steps[1..])
  }

  // ---- no job is lost or doubled ----

  function Times(list: seq<JobId>, id: JobId): nat {
    if list == [] then 0 else (if list[0] == id then 1 else 0) + Times(list[1..], id)
  }

  // How often a job is listed anywhere.
  function Places(l: Lane, id: JobId): nat { Times(l.normal, id) + Times(l.high, id) + Times(l.held, id) }

  predicate Unfinished(l: Lane, id: JobId) { id in l.jobs && l.jobs[id].status != Finished }

  // Every unfinished job is in exactly one place, under its own queue, and nothing else is.
  ghost predicate Inv(l: Lane) {
    && (forall id :: Places(l, id) == if Unfinished(l, id) then 1 else 0)
    && (forall id :: id in l.normal ==> id in l.jobs && l.jobs[id] == Job(Queued, false))
    && (forall id :: id in l.high ==> id in l.jobs && l.jobs[id] == Job(Queued, true))
  }

  lemma {:induction false} TimesAppend(list: seq<JobId>, x: JobId, id: JobId)
    ensures Times(list + [x], id) == Times(list, id) + if x == id then 1 else 0
  {
    if list == [] {
      assert ([] + [x])[1..] == [];
    } else {
      assert (list + [x])[1..] == list[1..] + [x];
      TimesAppend(list[1..], x, id);
    }
  }

  lemma {:induction false} TimesWithout(list: seq<JobId>, id: JobId, x: JobId)
    ensures Times(Without(list, id), x) == if x == id then 0 else Times(list, x)
  {
    if list != [] {
      TimesWithout(list[1..], id, x);
      assert ([list[0]] + Without(list[1..], id))[1..] == Without(list[1..], id);
    }
  }

  lemma {:induction false} TimesIn(list: seq<JobId>, id: JobId)
    ensures id in list <==> Times(list, id) > 0
  {
    if list != [] { TimesIn(list[1..], id); }
  }

  lemma WithoutMembers(list: seq<JobId>, id: JobId)
    ensures forall x :: x in Without(list, id) <==> x in list && x != id
  {
    forall x ensures x in Without(list, id) <==> x in list && x != id {
      TimesIn(list, x);
      TimesIn(Without(list, id), x);
      TimesWithout(list, id, x);
    }
  }

  lemma At(l: Lane, id: JobId)
    requires Inv(l)
    ensures Places(l, id) == (if Unfinished(l, id) then 1 else 0)
    ensures id in l.normal <==> Times(l.normal, id) > 0
    ensures id in l.high <==> Times(l.high, id) > 0
    ensures id in l.held <==> Times(l.held, id) > 0
    ensures id in l.normal ==> id in l.jobs && l.jobs[id] == Job(Queued, false)
    ensures id in l.high ==> id in l.jobs && l.jobs[id] == Job(Queued, true)
  {
    TimesIn(l.normal, id);
    TimesIn(l.high, id);
    TimesIn(l.held, id);
  }

  // Promotion moves a job between the queues and touches nothing in a worker's hands. No place
  // is lost or doubled exactly when the job was listed once.
  lemma PromoteMoves(l: Lane, id: JobId)
    requires Promotable(l, id)
    ensures var p := Promoted(l, id);
            && p.held == l.held && p.jobs.Keys == l.jobs.Keys
            && (forall x :: x != id ==> Places(p, x) == Places(l, x))
            && (Places(p, id) == Places(l, id) <==> Times(l.normal, id) == 1)
  {
    var p := Promoted(l, id);
    forall x ensures Places(p, x) == Places(l, x) + if x == id then 1 - Times(l.normal, id) else 0 {
      TimesWithout(l.normal, id, x);
      TimesAppend(l.high, id, x);
    }
  }

  lemma PromoteInv(l: Lane, id: JobId)
    requires Inv(l)
    ensures Inv(Promoted(l, id))
  {
    hide Inv;
    if Promotable(l, id) {
      var p := Promoted(l, id);
      At(l, id);
      PromoteMoves(l, id);
      WithoutMembers(l.normal, id);
      forall x {
        At(l, x);
      }
      Recheck(p);
    }
  }

  lemma Recheck(l: Lane)
    requires forall id :: Places(l, id) == if Unfinished(l, id) then 1 else 0
    requires forall id :: id in l.normal ==> id in l.jobs && l.jobs[id] == Job(Queued, false)
    requires forall id :: id in l.high ==> id in l.jobs && l.jobs[id] == Job(Queued, true)
    ensures Inv(l)
  {
  }

  lemma EnqueueInv(l: Lane, id: JobId, pro: bool)
    requires Inv(l)
    ensures Inv(Do(l, Enqueue(id, pro)))
  {
    hide Inv, Times;
    if id !in l.jobs {
      var p := Do(l, Enqueue(id, pro));
      forall x ensures Places(p, x) == if Unfinished(p, x) then 1 else 0 {
        At(l, x);
        TimesAppend(l.normal, id, x);
        TimesAppend(l.high, id, x);
      }
      forall x { At(l, x); }
      Recheck(p);
    }
  }

  // A worker takes the head of a queue.
  lemma PopInv(l: Lane)
    requires Inv(l)
    ensures Inv(Do(l, Pop))
  {
    hide Inv;
    var p := Do(l, Pop);
    forall x {
      At(l, x);
    }
    forall x ensures Places(p, x) == Places(l, x) {
      if l.high != [] { TimesAppend(l.held, l.high[0], x); }
      else if l.normal != [] { TimesAppend(l.held, l.normal[0], x); }
    }
    Recheck(p);
  }

  // A job in hand is in no queue.
  lemma HeldAlone(l: Lane, id: JobId)
    requires Inv(l) && id in l.held
    ensures Unfinished(l, id) && id !in l.normal && id !in l.high && Times(l.held, id) == 1
  {
    At(l, id);
  }

  lemma StartInv(l: Lane, id: JobId)
    requires Inv(l)
    ensures Inv(Do(l, Start(id)))
  {
    hide Inv, Times;
    if id in l.held {
      HeldAlone(l, id);
      forall x { At(l, x); }
      assert forall x :: Places(Do(l, Start(id)), x) == Places(l, x);
      Recheck(Do(l, Start(id)));
    }
  }

  lemma FinishInv(l: Lane, id: JobId)
    requires Inv(l)
    ensures Inv(Do(l, Finish(id)))
  {
    hide Inv, Times;
    if id in l.held {
      HeldAlone(l, id);
      var p := Do(l, Finish(id));
      forall x ensures Places(p, x) == if Unfinished(p, x) then 1 else 0 {
        At(l, x);
        TimesWithout(l.held, id, x);
      }
      At(l, id);
      forall x { At(l, x); }
      Recheck(p);
    }
  }

  lemma RetryInv(l: Lane, id: JobId)
    requires Inv(l)
    ensures Inv(Do(l, Retry(id)))
  {
    hide Inv, Times;
    if id in l.held {
      HeldAlone(l, id);
      var p := Do(l, Retry(id));
      forall x ensures Places(p, x) == if Unfinished(p, x) then 1 else 0 {
        At(l, x);
        At(l, id);
        TimesWithout(l.held, id, x);
        TimesAppend(l.normal, id, x);
        TimesAppend(l.high, id, x);
      }
      forall x { At(l, x); }
      Recheck(p);
    }
  }

  lemma StepInv(l: Lane, t: Step)
    requires Inv(l)
    ensures Inv(Do(l, t))
  {
    hide Inv, Do, Promoted;
    match t {
      case Enqueue(id, pro) => EnqueueInv(l, id, pro);
      case Promote(id) => PromoteInv(l, id); PromoteDo(l, t);
      case Pop => PopInv(l);
      case CancelLog(log) => CancelInv(l, log);
      case Start(id) => StartInv(l, id);
      case Finish(id) => FinishInv(l, id);
      case Retry(id) => RetryInv(l, id);
    }
  }

  lemma PromoteDo(l: Lane, t: Step)
    requires t.Promote?
    ensures Do(l, t) == Promoted(l, t.id)
  {
  }

  lemma CancelInv(l: Lane, log: nat)
    requires Inv(l)
    ensures Inv(Do(l, CancelLog(log)))
  {
    var p := Do(l, CancelLog(log));
    assert forall x :: Places(p, x) == Places(l, x) && (Unfinished(p, x) <==> Unfinished(l, x));
  }

  // From empty queues, whatever promotions, workers and retries interleave: every job that was
  // enqueued and is not finished is in exactly one place.
  lemma {:induction false} NoJobLostOrDoubled(l: Lane, steps: seq<Step>)
    requires Inv(l)
    ensures Inv(Run(l, steps))
    decreases |steps|
  {
    hide Inv, Do;
    if steps != [] {
      StepInv(l, steps[0]);
      NoJobLostOrDoubled(Do(l, steps[0]), steps[1..]);
    }
  }

  lemma EmptyInv(cancelled: set<nat>)
    ensures Inv(Lane(map[], [], [], [], cancelled))
  {
    var l := Lane(map[], [], [], [], cancelled);
    assert forall x :: Places(l, x) == 0;
  }

  // From queues that start empty every job enqueued and not finished is in exactly one place.
  lemma FromEmpty(cancelled: set<nat>, steps: seq<Step>, id: JobId)
    ensures var l := Run(Lane(map[], [], [], [], cancelled), steps);
            && Places(l, id) == (if Unfinished(l, id) then 1 else 0)
            && (id in l.normal || id in l.high ==> id in l.jobs && l.jobs[id] == Job(Queued, id in l.high))
  {
    hide Run, Inv;
    EmptyInv(cancelled);
    NoJobLostOrDoubled(Lane(map[], [], [], [], cancelled), steps);
    At(Run(Lane(map[], [], [], [], cancelled), steps), id);
  }

  // ---- positions ----

  // QUEUE_POSITION_SCRIPT: jobs ahead in the priority queue and then the normal one.
  function Position(l: Lane, id: JobId): nat {
    var h, n := IndexOf(l.high, id), IndexOf(l.normal, id);
    if h < |l.high| then h else if n < |l.normal| then |l.high| + n else 0
  }

  lemma {:induction false} WithoutIndex(list: seq<JobId>, id: JobId, x: JobId)
    requires x != id && Times(list, id) == 1 && x in list
    ensures IndexOf(Without(list, id), x) ==
            if IndexOf(list, id) < IndexOf(list, x) then IndexOf(list, x) - 1 else IndexOf(list, x)
    ensures IndexOf(Without(list, id), x) < |Without(list, id)|
  {
    var (first, rest) := (list[0], list[1..]);
    InList(list, x);
    if first == id {
      WithoutAbsent(rest, id);
      assert Without(list, id) == rest && IndexOf(list, id) == 0 && IndexOf(list, x) == IndexOf(rest, x) + 1;
    } else {
      assert ([first] + Without(rest, id))[1..] == Without(rest, id);
      if first != x { WithoutIndex(rest, id, x); }
    }
  }

  lemma {:induction false} WithoutAbsent(list: seq<JobId>, id: JobId)
    requires Times(list, id) == 0
    ensures Without(list, id) == list
  {
    if list != [] { WithoutAbsent(list[1..], id); }
  }

  lemma IndexOfAppend(list: seq<JobId>, id: JobId, x: JobId)
    ensures IndexOf(list + [id], x) == if x in list then IndexOf(list, x) else if x == id then |list| else |list| + 1
    ensures x in list <==> IndexOf(list, x) < |list|
  {
    if list != [] {
      assert (list + [id])[1..] == list[1..] + [id];
      IndexOfAppend(list[1..], id, x);
    }
  }

  // Promoting a job never worsens its own position, delays by one exactly the normal jobs
  // ahead of it, and leaves every other queued job where it was.
  lemma PromotionFair(l: Lane, id: JobId, x: JobId)
    requires Inv(l) && Promotable(l, id) && x != id && (x in l.high || x in l.normal)
    ensures var p := Promoted(l, id);
            && Position(p, id) == |l.high| <= Position(l, id)
            && Position(p, x) == Position(l, x) + if x in l.normal && IndexOf(l.normal, x) < IndexOf(l.normal, id) then 1 else 0
  {
    hide Inv, Times, Without, IndexOf;
    At(l, id);
    At(l, x);
    InList(l.high, id);
    InList(l.high, x);
    InList(l.normal, id);
    InList(l.normal, x);
    IndexOfAppend(l.high, id, id);
    IndexOfAppend(l.high, id, x);
    if x in l.normal { WithoutIndex(l.normal, id, x); }
  }

  lemma InList(list: seq<JobId>, id: JobId)
    ensures id in list <==> IndexOf(list, id) < |list|
  {
  }

  function Pops(n: nat): seq<Step> { seq(n, _ => Pop) }

  // The reported position is the wait: exactly that many pops happen before the job's own.
  lemma {:induction false} PositionIsWait(l: Lane, id: JobId)
    requires Inv(l) && (id in l.high || id in l.normal)
    ensures var w := Run(l, Pops(Position(l, id)));
            && (id in w.high || id in w.normal) && Position(w, id) == 0
            && Do(w, Pop).held == w.held + [id]
    decreases Position(l, id)
  {
    At(l, id);
    InList(l.high, id);
    InList(l.normal, id);
    var n := Position(l, id);
    if n > 0 {
      var p := Do(l, Pop);
      PopInv(l);
      PopShifts(l, id);
      PositionIsWait(p, id);
      assert Pops(n)[0] == Pop && Pops(n)[1..] == Pops(n - 1);
      assert Run(l, Pops(n)) == Run(p, Pops(n - 1));
    }
  }

  lemma PopShifts(l: Lane, id: JobId)
    requires (id in l.high || id in l.normal) && Position(l, id) > 0 && (id in l.high ==> id !in l.normal)
    ensures var p := Do(l, Pop); (id in p.high || id in p.normal) && Position(p, id) == Position(l, id) - 1
  {
    InList(l.high, id);
    InList(l.normal, id);
    var p := Do(l, Pop);
    InList(p.high, id);
    InList(p.normal, id);
  }

  // ---- one synchronisation pass ----

  // The ids tried for one queue, oldest generation first: its stages, then its queued polls.
  function PollsOf(list: seq<JobId>, log: nat): seq<JobId> {
    if list == [] then []
    else (if list[0].PollJob? && list[0].log == log then [list[0]] else []) + PollsOf(list[1..], log)
  }

  function StagesOf(log: nat, stages: seq<nat>): (ids: seq<JobId>)
    ensures |ids| == |stages|
  {
    seq(|stages|, k requires 0 <= k < |stages| => StageJob(log, stages[k]))
  }

  function Candidates(log: nat, stages: seq<nat>, polls: seq<JobId>): seq<JobId> { StagesOf(log, stages) + PollsOf(polls, log) }

  function AllCandidates(logs: seq<nat>, stages: seq<nat>, polls: seq<JobId>): seq<JobId> {
    if logs == [] then [] else Candidates(logs[0], stages, polls) + AllCandidates(logs[1..], stages, polls)
  }

  // promote_job on each id in turn.
  function PromoteAll(l: Lane, ids: seq<JobId>): Lane
    decreases |ids|
  {
    if ids == [] then l else PromoteAll(Promoted(l, ids[0]), ids[1..])
  }

  // The pass of sync_pro_priority over one queue, for generations given oldest first.
  function Synced(l: Lane, logs: seq<nat>, stages: seq<nat>): Lane {
    PromoteAll(l, AllCandidates(logs, stages, l.normal))
  }

  // The promotable ids, in the order of the list.
  function Chosen(l: Lane, ids: seq<JobId>): seq<JobId> {
    if ids == [] then [] else (if Promotable(l, ids[0]) then [ids[0]] else []) + Chosen(l, ids[1..])
  }

  predicate Distinct<T(==)>(s: seq<T>) { forall i, j :: 0 <= i < j < |s| ==> s[i] != s[j] }

  lemma PromotableStays(l: Lane, id: JobId, x: JobId)
    requires x != id
    ensures Promotable(Promoted(l, id), x) <==> Promotable(l, x)
  {
    WithoutMembers(l.normal, id);
  }

  lemma {:induction false} ChosenStays(l: Lane, id: JobId, ids: seq<JobId>)
    requires id !in ids
    ensures Chosen(Promoted(l, id), ids) == Chosen(l, ids)
  {
    hide Promotable, Promoted;
    if ids != [] {
      PromotableStays(l, id, ids[0]);
      ChosenStays(l, id, ids[1..]);
    }
  }

  // One pass appends exactly the promotable candidates to the priority queue, in the order of
  // the candidates, and takes exactly them out of the normal one.
  lemma {:induction false} PassKeepsOrder(l: Lane, ids: seq<JobId>)
    requires Distinct(ids)
    ensures PromoteAll(l, ids).high == l.high + Chosen(l, ids)
    ensures forall x :: x in PromoteAll(l, ids).normal <==> x in l.normal && x !in Chosen(l, ids)
    ensures PromoteAll(l, ids).held == l.held
    decreases |ids|
  {
    if ids != [] {
      hide Promotable;
      var p := Promoted(l, ids[0]);
      assert ids[0] !in ids[1..];
      assert Distinct(ids[1..]);
      PassKeepsOrder(p, ids[1..]);
      ChosenStays(l, ids[0], ids[1..]);
      WithoutMembers(l.normal, ids[0]);
      if Promotable(l, ids[0]) {
        assert PromoteAll(l, ids).high == (l.high + [ids[0]]) + Chosen(l, ids[1..]) == l.high + Chosen(l, ids);
      } else {
        assert PromoteAll(l, ids).high == l.high + Chosen(l, ids[1..]) == l.high + Chosen(l, ids);
      }
    }
  }

  lemma PollsOfLog(list: seq<JobId>, log: nat)
    ensures forall x :: x in PollsOf(list, log) <==> x in list && x.PollJob? && x.log == log
    ensures Distinct(list) ==> Distinct(PollsOf(list, log))
  {
    if list != [] {
      PollsOfLog(list[1..], log);
      assert Distinct(list) ==> Distinct(list[1..]) && list[0] !in list[1..];
    }
  }

  lemma CandidatesDistinct(log: nat, stages: seq<nat>, polls: seq<JobId>)
    requires Distinct(stages) && Distinct(polls)
    ensures Distinct(Candidates(log, stages, polls))
    ensures forall x :: x in Candidates(log, stages, polls) ==> x.log == log
  {
    PollsOfLog(polls, log);
    var s := StagesOf(log, stages);
    assert forall i :: 0 <= i < |s| ==> s[i].StageJob? && s[i].log == log;
    assert forall x :: x in s ==> x.StageJob? && x.log == log;
  }

  lemma {:induction false} AllCandidatesDistinct(logs: seq<nat>, stages: seq<nat>, polls: seq<JobId>)
    requires Distinct(logs) && Distinct(stages) && Distinct(polls)
    ensures Distinct(AllCandidates(logs, stages, polls))
    ensures forall x :: x in AllCandidates(logs, stages, polls) ==> x.log in logs
  {
    hide Candidates;
    if logs != [] {
      assert Distinct(logs[1..]) && logs[0] !in logs[1..];
      AllCandidatesDistinct(logs[1..], stages, polls);
      CandidatesDistinct(logs[0], stages, polls);
      DistinctConcat(Candidates(logs[0], stages, polls), AllCandidates(logs[1..], stages, polls));
    }
  }

  lemma DistinctConcat(a: seq<JobId>, b: seq<JobId>)
    requires Distinct(a) && Distinct(b) && forall x :: x in a ==> x !in b
    ensures Distinct(a + b)
  {
    forall i, j | 0 <= i < j < |a + b| ensures (a + b)[i] != (a + b)[j] {
      if i < |a| <= j { assert a[i] in a && b[j - |a|] in b; }
    }
  }

  lemma InvDistinct(l: Lane)
    requires Inv(l)
    ensures Distinct(l.normal)
  {
    forall i, j | 0 <= i < j < |l.normal| ensures l.normal[i] != l.normal[j] {
      At(l, l.normal[i]);
      TimesPair(l.normal, i, j);
    }
  }

  lemma TimesPair(list: seq<JobId>, i: nat, j: nat)
    requires i < j < |list|
    ensures list[i] == list[j] ==> Times(list, list[i]) >= 2
  {
    if i > 0 {
      TimesPair(list[1..], i - 1, j - 1);
    } else if list[0] == list[j] {
      assert list[1..][j - 1] == list[0];
      TimesIn(list[1..], list[0]);
    }
  }

  // The pass as one append to the priority queue.
  lemma SyncInCreationOrder(l: Lane, logs: seq<nat>, stages: seq<nat>)
    requires Inv(l) && Distinct(logs) && Distinct(stages)
    ensures var ids := AllCandidates(logs, stages, l.normal);
            && Inv(PromoteAll(l, ids))
            && PromoteAll(l, ids).high == l.high + Chosen(l, ids) && PromoteAll(l, ids).held == l.held
            && forall x :: x in PromoteAll(l, ids).normal <==> x in l.normal && x !in Chosen(l, ids)
  {
    hide Inv;
    var ids := AllCandidates(logs, stages, l.normal);
    InvDistinct(l);
    AllCandidatesDistinct(logs, stages, l.normal);
    PassKeepsOrder(l, ids);
    PromoteAllInv(l, ids);
  }

  lemma {:induction false} PromoteAllInv(l: Lane, ids: seq<JobId>)
    requires Inv(l)
    ensures Inv(PromoteAll(l, ids))
    decreases |ids|
  {
    hide Inv, Promoted;
    if ids != [] {
      PromoteInv(l, ids[0]);
      PromoteAllInv(Promoted(l, ids[0]), ids[1..]);
    }
  }

  // Two promoted jobs stand in the priority queue in the order of their generations.
  lemma ChosenOrder(l: Lane, ids: seq<JobId>, i: nat, j: nat)
    requires i < j < |ids| && Promotable(l, ids[i]) && Promotable(l, ids[j])
    ensures exists a, b :: 0 <= a < b < |Chosen(l, ids)| && Chosen(l, ids)[a] == ids[i] && Chosen(l, ids)[b] == ids[j]
  {
    hide Promotable;
    var first := if Promotable(l, ids[0]) then [ids[0]] else [];
    var rest := Chosen(l, ids[1..]);
    assert Chosen(l, ids) == first + rest;
    if i > 0 {
      ChosenOrder(l, ids[1..], i - 1, j - 1);
      var a, b :| 0 <= a < b < |rest| && rest[a] == ids[1..][i - 1] && rest[b] == ids[1..][j - 1];
      Here(l, ids, a + |first|, b + |first|, i, j);
    } else {
      ChosenMember(l, ids[1..], j - 1);
      var b :| 0 <= b < |rest| && rest[b] == ids[1..][j - 1];
      Here(l, ids, 0, b + 1, i, j);
    }
  }

  lemma Here(l: Lane, ids: seq<JobId>, a: nat, b: nat, i: nat, j: nat)
    requires i < |ids| && j < |ids| && a < b < |Chosen(l, ids)| && Chosen(l, ids)[a] == ids[i] && Chosen(l, ids)[b] == ids[j]
    ensures exists a, b :: 0 <= a < b < |Chosen(l, ids)| && Chosen(l, ids)[a] == ids[i] && Chosen(l, ids)[b] == ids[j]
  {
  }

  lemma ChosenMember(l: Lane, ids: seq<JobId>, j: nat)
    requires j < |ids| && Promotable(l, ids[j])
    ensures exists b :: 0 <= b < |Chosen(l, ids)| && Chosen(l, ids)[b] == ids[j]
  {
    hide Promotable;
    var first := if Promotable(l, ids[0]) then [ids[0]] else [];
    var rest := Chosen(l, ids[1..]);
    if j > 0 {
      ChosenMember(l, ids[1..], j - 1);
      var b :| 0 <= b < |rest| && rest[b] == ids[1..][j - 1];
      assert Chosen(l, ids)[b + |first|] == ids[j];
    } else {
      assert Chosen(l, ids)[0] == ids[0];
    }
  }
}
