/** The bounded background worker (native/threat_intel/worker.py:39-65) as interleaved steps of
    the submitting thread, the pool threads and the draining thread. */
module EnrichmentWorker {
  import opened Options

  /** A finished task with what enrich_ip returned, or None when it raised. */
  datatype Result<T, E> = Result(task: T, enrichment: Option<E>)

  /** `running` holds tasks whose thread has not yet given back its slot, `finishing` those whose
      slot is free again but whose result is not in the queue yet. */
  datatype Pool<T, E> = Pool(inflight: int, running: seq<T>, finishing: seq<Result<T, E>>, results: seq<Result<T, E>>)

  function Idle<T, E>(): Pool<T, E> {
    Pool(0, [], [], [])
  }

  predicate HasRoom<T, E>(p: Pool<T, E>, limit: nat) {
    p.inflight < limit
  }

  function Submitted<T, E>(p: Pool<T, E>, task: T, limit: nat): Pool<T, E> {
    if HasRoom(p, limit) then p.(inflight := p.inflight + 1, running := p.running + [task]) else p
  }

  function Without<T>(s: seq<T>, i: nat): (r: seq<T>)
    ensures i < |s| ==> |r| == |s| - 1
  {
    if i < |s| then s[..i] + s[i + 1..] else s
  }

  /** A pool thread leaves the try block: the slot is given back under the lock. */
  function Finished<T, E>(p: Pool<T, E>, i: nat, enrichment: Option<E>): Pool<T, E> {
    if i >= |p.running| then p
    else p.(inflight := p.inflight - 1, running := Without(p.running, i),
            finishing := p.finishing + [Result(p.running[i], enrichment)])
  }

  /** The same thread puts its result into the queue, some time later. */
  function Delivered<T, E>(p: Pool<T, E>, i: nat): Pool<T, E> {
    if i >= |p.finishing| then p
    else p.(finishing := Without(p.finishing, i), results := p.results + [p.finishing[i]])
  }

  function TasksOf<T, E>(rs: seq<Result<T, E>>): (ts: seq<T>)
    ensures |ts| == |rs| && forall i :: 0 <= i < |ts| ==> ts[i] == rs[i].task
  {
    seq(|rs|, i requires 0 <= i < |rs| => rs[i].task)
  }

  /** Every task the pool holds, wherever it has got to. */
  ghost function Held<T, E>(p: Pool<T, E>): multiset<T> {
    multiset(p.running) + multiset(TasksOf(p.finishing)) + multiset(TasksOf(p.results))
  }

  predicate Bounded<T, E>(p: Pool<T, E>, limit: nat) {
    p.inflight == |p.running| && 0 <= p.inflight <= limit
  }

  lemma TasksAppend<T, E>(rs: seq<Result<T, E>>, r: Result<T, E>)
    ensures multiset(TasksOf(rs + [r])) == multiset(TasksOf(rs)) + multiset{r.task}
  {
    assert TasksOf(rs + [r]) == TasksOf(rs) + [r.task];
  }

  lemma WithoutContents<T>(s: seq<T>, i: nat)
    requires i < |s|
    ensures multiset(Without(s, i)) + multiset{s[i]} == multiset(s)
  {
    assert s == s[..i] + [s[i]] + s[i + 1..];
  }

  lemma TasksWithout<T, E>(rs: seq<Result<T, E>>, i: nat)
    requires i < |rs|
    ensures multiset(TasksOf(Without(rs, i))) + multiset{rs[i].task} == multiset(TasksOf(rs))
  {
    assert TasksOf(Without(rs, i)) == Without(TasksOf(rs), i);
    WithoutContents(TasksOf(rs), i);
  }

  /** Submitting adds exactly that one task, or nothing when the pool is full. */
  lemma SubmitHolds<T, E>(p: Pool<T, E>, task: T, limit: nat)
    requires Bounded(p, limit)
    ensures Bounded(Submitted(p, task, limit), limit)
    ensures Held(Submitted(p, task, limit)) == Held(p) + (if HasRoom(p, limit) then multiset{task} else multiset{})
  {
  }

  /** Neither thread step loses, copies or invents a task. */
  lemma FinishHolds<T, E>(p: Pool<T, E>, i: nat, enrichment: Option<E>, limit: nat)
    requires Bounded(p, limit)
    ensures Bounded(Finished(p, i, enrichment), limit) && Held(Finished(p, i, enrichment)) == Held(p)
  {
    if i < |p.running| {
      WithoutContents(p.running, i);
      TasksAppend(p.finishing, Result(p.running[i], enrichment));
    }
  }

  lemma DeliverHolds<T, E>(p: Pool<T, E>, i: nat, limit: nat)
    requires Bounded(p, limit)
    ensures Bounded(Delivered(p, i), limit) && Held(Delivered(p, i)) == Held(p)
  {
    if i < |p.finishing| {
      TasksWithout(p.finishing, i);
      TasksAppend(p.results, p.finishing[i]);
    }
  }

  /** Taking the oldest result removes exactly its task. */
  lemma TakeHolds<T, E>(p: Pool<T, E>, limit: nat)
    requires Bounded(p, limit) && p.results != []
    ensures var p' := p.(results := p.results[1..]);
      Bounded(p', limit) && Held(p') + multiset{p.results[0].task} == Held(p)
  {
    TasksWithout(p.results, 0);
    assert Without(p.results, 0) == p.results[1..];
  }

  datatype Move<T, E> = Submit(task: T) | Finish(i: nat, enrichment: Option<E>) | Deliver(j: nat) | Take

  /** The pool with the history of accepted and drained tasks. */
  datatype Run<T, E> = Run(pool: Pool<T, E>, accepted: seq<T>, freed: nat, drained: seq<Result<T, E>>)

  function Step<T, E>(r: Run<T, E>, m: Move<T, E>, limit: nat): Run<T, E> {
    match m
    case Submit(task) =>
      if HasRoom(r.pool, limit) then r.(pool := Submitted(r.pool, task, limit), accepted := r.accepted + [task]) else r
    case Finish(i, enrichment) =>
      if i < |r.pool.running| then r.(pool := Finished(r.pool, i, enrichment), freed := r.freed + 1) else r
    case Deliver(j) => r.(pool := Delivered(r.pool, j))
    case Take =>
      if r.pool.results == [] then r
      else r.(pool := r.pool.(results := r.pool.results[1..]), drained := r.drained + [r.pool.results[0]])
  }

  function RunOf<T, E>(moves: seq<Move<T, E>>, limit: nat): Run<T, E> {
    if moves == [] then Run(Idle(), [], 0, []) else Step(RunOf(moves[..|moves| - 1], limit), moves[|moves| - 1], limit)
  }

  ghost predicate Accounted<T, E>(r: Run<T, E>, limit: nat) {
    && Bounded(r.pool, limit) && r.pool.inflight == |r.accepted| - r.freed
    && multiset(r.accepted) == Held(r.pool) + multiset(TasksOf(r.drained))
  }

  lemma StepAccounted<T, E>(r: Run<T, E>, m: Move<T, E>, limit: nat)
    requires Accounted(r, limit)
    ensures Accounted(Step(r, m, limit), limit)
  {
    hide Held, TasksOf, Bounded, Without;
    match m
    case Submit(task) => SubmitHolds(r.pool, task, limit);
    case Finish(i, enrichment) => FinishHolds(r.pool, i, enrichment, limit);
    case Deliver(j) => DeliverHolds(r.pool, j, limit);
    case Take =>
      if r.pool.results != [] {
        TakeHolds(r.pool, limit);
        TasksAppend(r.drained, r.pool.results[0]);
      }
  }

  /** For every interleaving of submits, thread steps and drains: the counter is the number of
      accepted tasks minus the slots given back and stays within its bounds, and each accepted
      task is in exactly one place, or drained exactly once. */
  lemma {:induction false} EveryTaskOnce<T, E>(moves: seq<Move<T, E>>, limit: nat)
    ensures Accounted(RunOf(moves, limit), limit)
  {
    hide Step;
    if moves == [] {
      assert Held(RunOf(moves, limit).pool) == multiset{};
    } else {
      hide Accounted;
      EveryTaskOnce(moves[..|moves| - 1], limit);
      StepAccounted(RunOf(moves[..|moves| - 1], limit), moves[|moves| - 1], limit);
    }
  }

  class ThreatIntelWorker<T, E> {
    const maxInflight: nat
    var inflight: int
    var running: seq<T>
    var finishing: seq<Result<T, E>>
    var results: seq<Result<T, E>>

    function Contents(): Pool<T, E>
      reads this
    {
      Pool(inflight, running, finishing, results)
    }

    constructor (maxInflight: nat)
      ensures Contents() == Idle() && this.maxInflight == maxInflight
    {
      this.maxInflight := maxInflight;
      inflight, running, finishing, results := 0, [], [], [];
    }

    method TrySubmit(task: T) returns (ok: bool)
      modifies `inflight, `running
      ensures ok == HasRoom(old(Contents()), maxInflight) == (old(inflight) < maxInflight)
      ensures Contents() == Submitted(old(Contents()), task, maxInflight)
    {
      if inflight >= maxInflight {
        return false;
      }
      inflight := inflight + 1;
      running := running + [task];
      return true;
    }

    method FinishTask(i: nat, enrichment: Option<E>)
      requires i < |running|
      modifies `inflight, `running, `finishing
      ensures Contents() == Finished(old(Contents()), i, enrichment)
    {
      finishing := finishing + [Result(running[i], enrichment)];
      running := Without(running, i);
      inflight := inflight - 1;
    }

    method PutResult(i: nat)
      requires i < |finishing|
      modifies `finishing, `results
      ensures Contents() == Delivered(old(Contents()), i)
    {
      results := results + [finishing[i]];
      finishing := Without(finishing, i);
    }

    /** One get_nowait that finds a result. */
    method GetNowait() returns (r: Result<T, E>)
      requires results != []
      modifies `results
      ensures r == old(results[0]) && results == old(results[1..])
    {
      r := results[0];
      results := results[1..];
    }

    method DrainCompleted() returns (completed: seq<Result<T, E>>)
      modifies `results
      ensures completed == old(results) && results == []
    {
      completed := [];
      while results != []
        invariant completed + results == old(results)
        decreases |results|
      {
        var r := GetNowait();
        completed := completed + [r];
      }
    }
  }
}
