/**
 * `Oni::ThreadPool`: a fixed number of worker threads sharing one FIFO
 * queue of closures. Threads are modelled as a list of states and a worker
 * thread's loop as single steps that pop the head of the queue, so the
 * model is sequential: a step runs its job to completion before the next
 * step. The effect of running a closure is recorded as its id in `ran`.
 */
module ThreadPool {
  import opened Values

  /** A queued closure: a job identified by `id`, or the `throw :terminate` sentinel. */
  datatype Job = Task(id: nat) | Terminate

  /** A thread handle: still looping over the queue, or left its loop. */
  datatype WorkerState = Running | Exited

  /** The block passed to `schedule`, or none. */
  datatype Block = NoBlock | Given(job: Job)

  /** `initialize(amount = 10)`. */
  const DefaultAmount := 10

  /** The error `schedule` raises without a block. */
  const NoBlockGiven := LocalJumpError("You must specify a block to schedule")

  /** What `n.times { queue << terminate }` appends. */
  function Sentinels(n: int): (s: seq<Job>)
    ensures |s| == if n > 0 then n else 0
    ensures forall i :: 0 <= i < |s| ==> s[i] == Terminate
  {
    seq(if n > 0 then n else 0, _ => Terminate)
  }

  /** What `n.times { threads << spawn_thread }` appends. */
  function Spawned(n: int): (s: seq<WorkerState>)
    ensures |s| == if n > 0 then n else 0
    ensures forall i :: 0 <= i < |s| ==> s[i] == Running
  {
    seq(if n > 0 then n else 0, _ => Running)
  }

  /** The number of threads still in their loop. */
  function CountRunning(ts: seq<WorkerState>): nat
    decreases |ts|
  {
    if ts == [] then 0 else (if ts[0] == Running then 1 else 0) + CountRunning(ts[1..])
  }

  /** The ids of the jobs in a queue, in queue order, sentinels skipped. */
  function TaskIds(q: seq<Job>): seq<nat>
    decreases |q|
  {
    if q == [] then [] else (if q[0].Task? then [q[0].id] else []) + TaskIds(q[1..])
  }

  /** The number of sentinels in a queue. */
  function CountSentinels(q: seq<Job>): nat
    decreases |q|
  {
    if q == [] then 0 else (if q[0].Terminate? then 1 else 0) + CountSentinels(q[1..])
  }

  predicate NoSentinel(q: seq<Job>) {
    forall i :: 0 <= i < |q| ==> q[i].Task?
  }

  /** What running workers leave behind: the jobs they ran, the queue left, and how many still run. */
  datatype Drained = Drained(ran: seq<nat>, rest: seq<Job>, running: nat)

  /**
   * The outcome of letting `running` looping threads pop the queue until
   * they have all exited or the queue is empty (where they would block).
   * Which thread pops does not matter: only how many are still looping.
   */
  function Drain(q: seq<Job>, running: nat): (r: Drained)
    ensures r.running <= running
    ensures r.running == 0 || r.rest == []
    decreases |q|
  {
    if running == 0 || q == [] then
      Drained([], q, running)
    else
      var d := Drain(q[1..], if q[0].Terminate? then running - 1 else running);
      if q[0].Task? then d.(ran := [q[0].id] + d.ran) else d
  }

  /**
   * The queue is FIFO: the threads consume a prefix of it, run the jobs of
   * that prefix in order, and each thread that stopped looping consumed
   * exactly one sentinel of it.
   */
  lemma {:induction false} DrainConsumesPrefix(q: seq<Job>, running: nat)
    ensures var r := Drain(q, running);
      && |r.rest| <= |q| && r.rest == q[|q| - |r.rest|..]
      && r.ran == TaskIds(q[..|q| - |r.rest|])
      && running - r.running == CountSentinels(q[..|q| - |r.rest|])
    decreases |q|
  {
    if running == 0 || q == [] {
      assert q[..0] == [];
    } else {
      var r' := if q[0].Terminate? then running - 1 else running;
      DrainConsumesPrefix(q[1..], r');
      var d := Drain(q[1..], r');
      assert q[..|q| - |d.rest|] == [q[0]] + q[1..][..|q| - 1 - |d.rest|];
      assert q[1..][|q| - 1 - |d.rest|..] == q[|q| - |d.rest|..];
    }
  }

  /** One pop by a looping thread, as `Drain` sees it. */
  lemma DrainUnfold(q: seq<Job>, r: nat)
    requires q != [] && r > 0
    ensures q[0].Task? ==> Drain(q, r) == Drain(q[1..], r).(ran := [q[0].id] + Drain(q[1..], r).ran)
    ensures q[0].Terminate? ==> Drain(q, r) == Drain(q[1..], r - 1)
  {
  }

  lemma {:induction false} CountRunningAppend(a: seq<WorkerState>, b: seq<WorkerState>)
    ensures CountRunning(a + b) == CountRunning(a) + CountRunning(b)
    decreases |a|
  {
    if a == [] {
      assert a + b == b;
    } else {
      assert (a + b)[0] == a[0] && (a + b)[1..] == a[1..] + b;
      CountRunningAppend(a[1..], b);
    }
  }

  /** `start` on a pool of `n` adds `n` looping threads (none when `n <= 0`). */
  lemma {:induction false} CountSpawned(n: int)
    ensures CountRunning(Spawned(n)) == if n > 0 then n else 0
    decreases if n > 0 then n else 0
  {
    if n > 0 {
      assert Spawned(n) == Spawned(n - 1) + [Running];
      CountRunningAppend(Spawned(n - 1), [Running]);
      CountSpawned(n - 1);
    }
  }

  /** A thread that pops a sentinel leaves its loop: one fewer thread runs. */
  lemma {:induction false} CountRunningExit(ts: seq<WorkerState>, w: nat)
    requires w < |ts| && ts[w] == Running
    ensures CountRunning(ts[w := Exited]) == CountRunning(ts) - 1
    decreases |ts|
  {
    if w > 0 {
      assert ts[w := Exited][1..] == ts[1..][w - 1 := Exited];
      CountRunningExit(ts[1..], w - 1);
    }
  }

  /** The index of some thread still in its loop. */
  function FirstRunning(ts: seq<WorkerState>): (w: nat)
    requires CountRunning(ts) > 0
    ensures w < |ts| && ts[w] == Running
    decreases |ts|
  {
    if ts[0] == Running then 0 else 1 + FirstRunning(ts[1..])
  }

  /** `r` threads popping `n` sentinels (only): each exits after one; surplus sentinels stay queued, missing ones leave threads blocked. */
  lemma {:induction false} DrainSentinels(n: nat, r: nat)
    ensures Drain(Sentinels(n), r) == if r <= n then Drained([], Sentinels(n - r), 0) else Drained([], [], r - n)
    decreases n
  {
    if r > 0 && n > 0 {
      assert Sentinels(n)[1..] == Sentinels(n - 1);
      DrainSentinels(n - 1, r - 1);
    }
  }

  /**
   * `stop` with `k` jobs queued and `r` looping threads, `1 <= r <= amount`:
   * every job runs exactly once, in queue order, and each thread consumes
   * exactly one sentinel before all of them exit.
   */
  lemma {:induction false} StopRunsEveryJobOnce(q: seq<Job>, amount: int, r: nat)
    requires NoSentinel(q)
    requires 1 <= r <= amount
    ensures Drain(q + Sentinels(amount), r) == Drained(TaskIds(q), Sentinels(amount - r), 0)
    decreases |q|
  {
    if q == [] {
      assert q + Sentinels(amount) == Sentinels(amount);
      DrainSentinels(amount, r);
    } else {
      assert (q + Sentinels(amount))[1..] == q[1..] + Sentinels(amount);
      StopRunsEveryJobOnce(q[1..], amount, r);
    }
  }

  /** With more looping threads than sentinels, every job still runs but some threads never exit. */
  lemma {:induction false} StopWithSurplusThreads(q: seq<Job>, amount: int, r: nat)
    requires NoSentinel(q)
    requires r >= 1 && r > amount
    ensures Drain(q + Sentinels(amount), r) == Drained(TaskIds(q), [], r - (if amount > 0 then amount else 0))
    decreases |q|
  {
    var n: nat := if amount > 0 then amount else 0;
    assert Sentinels(amount) == Sentinels(n);
    if q == [] {
      assert q + Sentinels(amount) == Sentinels(n);
      DrainSentinels(n, r);
    } else {
      assert (q + Sentinels(amount))[1..] == q[1..] + Sentinels(amount);
      StopWithSurplusThreads(q[1..], amount, r);
    }
  }

  class ThreadPool {
    const amount: int
    var queue: seq<Job>
    var threads: seq<WorkerState>
    /** The ids of the jobs the threads have run, in the order they ran. */
    var ran: seq<nat>

    /** `initialize(amount = 10)`: nothing queued, no threads. */
    constructor (amount: int := DefaultAmount)
      ensures this.amount == amount
      ensures queue == [] && threads == [] && ran == []
    {
      this.amount := amount;
      queue := [];
      threads := [];
      ran := [];
    }

    /** `start`: spawns `amount` threads, each looping over the queue. */
    method Start()
      modifies this
      ensures threads == old(threads) + Spawned(amount)
      ensures CountRunning(threads) == CountRunning(old(threads)) + (if amount > 0 then amount else 0)
      ensures queue == old(queue) && ran == old(ran)
    {
      var i := 0;
      while i < amount
        invariant 0 <= i <= (if amount > 0 then amount else 0)
        invariant threads == old(threads) + Spawned(i)
        invariant queue == old(queue) && ran == old(ran)
      {
        threads := threads + [Running];
        i := i + 1;
        assert Spawned(i) == Spawned(i - 1) + [Running];
      }
      assert Spawned(i) == Spawned(amount);
      CountRunningAppend(old(threads), Spawned(amount));
      CountSpawned(amount);
    }

    /** `schedule(&block)`: raises without a block, else appends the block at the tail. */
    method Schedule(block: Block) returns (outcome: Outcome)
      modifies this
      ensures block.NoBlock? ==> outcome == Fail(NoBlockGiven) && queue == old(queue)
      ensures block.Given? ==> outcome == Pass && queue == old(queue) + [block.job]
      ensures threads == old(threads) && ran == old(ran)
    {
      if block.NoBlock? {
        return Fail(NoBlockGiven);
      }
      queue := queue + [block.job];
      outcome := Pass;
    }

    /**
     * One turn of thread `w`'s `loop { queue.pop.call }`: a looping thread
     * pops the head (it blocks on an empty queue) and runs it, or leaves
     * the loop on a sentinel.
     */
    method Step(w: nat) returns (popped: bool)
      requires w < |threads|
      modifies this
      ensures popped <==> old(threads)[w] == Running && old(queue) != []
      ensures !popped ==> queue == old(queue) && threads == old(threads) && ran == old(ran)
      ensures popped ==> queue == old(queue)[1..]
      ensures popped && old(queue)[0].Task? ==> ran == old(ran) + [old(queue)[0].id] && threads == old(threads)
      ensures popped && old(queue)[0].Terminate? ==> ran == old(ran) && threads == old(threads)[w := Exited]
    {
      if threads[w] == Exited || queue == [] {
        return false;
      }
      var job := queue[0];
      queue := queue[1..];
      match job {
        case Task(id) => ran := ran + [id];
        case Terminate => threads := threads[w := Exited];
      }
      popped := true;
    }

    /**
     * `stop`: queues `amount` sentinels, lets the threads run until each
     * has exited (`join`), then clears the thread list and the queue.
     * `joined` is false when some thread is left blocked on the empty
     * queue, where `join` would wait forever and nothing is cleared.
     */
    method Stop() returns (joined: bool)
      modifies this
      ensures var d := Drain(old(queue) + Sentinels(amount), CountRunning(old(threads)));
        && ran == old(ran) + d.ran
        && joined == (d.running == 0)
        && (joined ==> threads == [] && queue == [])
        && (!joined ==> queue == [] && |threads| == |old(threads)| && CountRunning(threads) == d.running)
    {
      var i := 0;
      while i < amount
        invariant 0 <= i <= (if amount > 0 then amount else 0)
        invariant queue == old(queue) + Sentinels(i)
        invariant threads == old(threads) && ran == old(ran)
      {
        var _ := Schedule(Given(Terminate));
        i := i + 1;
        assert Sentinels(i) == Sentinels(i - 1) + [Terminate];
      }
      assert Sentinels(i) == Sentinels(amount);

      Join();
      joined := CountRunning(threads) == 0;
      if joined {
        threads := [];
        queue := [];
      }
    }

    /**
     * `threads.each(&:join)` in the sequential model: looping threads take
     * turns popping the queue until none loops or the queue is empty.
     */
    method Join()
      modifies this
      ensures var d := Drain(old(queue), CountRunning(old(threads)));
        && ran == old(ran) + d.ran
        && queue == d.rest
        && CountRunning(threads) == d.running
        && |threads| == |old(threads)|
    {
      ghost var d0 := Drain(queue, CountRunning(threads));
      ghost var ran0 := ran;
      while CountRunning(threads) > 0 && queue != []
        invariant Drain(queue, CountRunning(threads)).rest == d0.rest
        invariant Drain(queue, CountRunning(threads)).running == d0.running
        invariant ran + Drain(queue, CountRunning(threads)).ran == ran0 + d0.ran
        invariant |threads| == |old(threads)|
        decreases |queue|
      {
        var w := FirstRunning(threads);
        ghost var q, ts, done := queue, threads, ran;
        DrainUnfold(q, CountRunning(ts));
        ghost var before := Drain(q, CountRunning(ts));
        var _ := Step(w);
        if q[0].Terminate? {
          CountRunningExit(ts, w);
        } else {
          ghost var after := Drain(queue, CountRunning(threads));
          assert before.ran == [q[0].id] + after.ran;
          assert ran == done + [q[0].id];
        }
      }
    }
  }

  /** The test suite's pool of two: `start` gives two threads, `stop` none and an empty queue. */
  method StartStopScenario() returns (started: nat, joined: bool, remaining: nat, queued: nat)
    ensures started == 2 && joined && remaining == 0 && queued == 0
  {
    var pool := new ThreadPool(2);
    pool.Start();
    started := |pool.threads|;
    CountSpawned(2);
    DrainSentinels(2, 2);
    assert [] + Sentinels(2) == Sentinels(2);
    joined := pool.Stop();
    remaining := |pool.threads|;
    queued := |pool.queue|;
  }

  /** The test suite's counter: two jobs scheduled on two started threads each run exactly once. */
  method ScheduleWorkScenario() returns (ran: seq<nat>, joined: bool)
    ensures joined && ran == [0, 1]
  {
    var pool := new ThreadPool(2);
    pool.Start();
    var _ := pool.Schedule(Given(Task(0)));
    var _ := pool.Schedule(Given(Task(1)));
    CountSpawned(2);
    var q := [Task(0), Task(1)];
    StopRunsEveryJobOnce(q, 2, 2);
    assert TaskIds(q) == [0, 1];
    assert [] + q == q;
    joined := pool.Stop();
    ran := pool.ran;
  }

  /** Scheduling without a block raises and leaves the queue as it was. */
  method NoBlockScenario() returns (outcome: Outcome, queued: nat)
    ensures outcome == Fail(NoBlockGiven) && queued == 0
  {
    var pool := new ThreadPool(1);
    pool.Start();
    outcome := pool.Schedule(NoBlock);
    queued := |pool.queue|;
  }
}
