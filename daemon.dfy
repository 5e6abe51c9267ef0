/**
 * `Oni::Daemon`: receives messages, schedules one closure per message on
 * its thread pool, and processes each message by mapping it, running a
 * worker on the mapped input and mapping the worker's output, then hands
 * the result to `complete`.
 *
 * The mapper and worker classes are read from the daemon class's options
 * (`:mapper`, `:worker`) and looked up by name in a `Catalog` of the
 * classes the program defines. `receive` is modelled as the finite
 * sequence of messages it yields, and `complete` by recording what it is
 * given in `completed`.
 */
module Daemon {
  import opened Values
  import Configurable
  import Mapper
  import Worker
  import InitializeArguments
  import TP = ThreadPool

  /** `DEFAULT_THREAD_AMOUNT`. */
  const DefaultThreadAmount := 5

  /** The error the default `receive` raises. */
  const ReceiveNotImplemented := NotImplementedError("You must manually implement #receive")

  /** `x.new` on a value that is not one of the program's mapper (or worker) classes, `nil` included. */
  const NoNew := NoMethodError("undefined method `new'")

  /** The mapper and worker classes a class-valued option can name. */
  datatype Catalog = Catalog(mappers: map<string, Mapper.MapperClass>, workers: map<string, Worker.WorkerClass>)

  /** `threads`: `option(:threads, DEFAULT_THREAD_AMOUNT)`. */
  function Threads(tables: map<Configurable.ClassId, Configurable.Table>, c: Configurable.ClassId, produced: Value): (r: Value)
    ensures var stored := Configurable.Stored(Configurable.TableOf(tables, c), "threads");
            && (!Truthy(stored) ==> r == Plain(Int(DefaultThreadAmount)))
            && (Truthy(stored) && !stored.Factory? ==> r == stored)
            && (stored.Factory? ==> r == produced)
  {
    Configurable.Read(tables, c, Sym("threads"), Plain(Int(DefaultThreadAmount)), produced)
  }

  /** An unset, `nil` or `false` `:threads` option gives five threads. */
  lemma ThreadsDefault(tables: map<Configurable.ClassId, Configurable.Table>, c: Configurable.ClassId, produced: Value)
    requires !Truthy(Configurable.Stored(Configurable.TableOf(tables, c), "threads"))
    ensures Threads(tables, c, produced) == Plain(Int(5))
  {
  }

  /** A `:threads` option set to an integer, `0` included, is used as it is. */
  lemma ThreadsSet(tables: map<Configurable.ClassId, Configurable.Table>, c: Configurable.ClassId, n: int, produced: Value)
    ensures Threads(Configurable.SetIn(tables, c, Sym("threads"), Plain(Int(n))), c, produced) == Plain(Int(n))
  {
  }

  /** The constructor needs `threads` to be an integer (the pool calls `times` on it). */
  predicate ThreadsIsInteger(tables: map<Configurable.ClassId, Configurable.Table>, c: Configurable.ClassId) {
    var v := Configurable.Resolved(tables, c, Sym("threads"), Plain(Int(DefaultThreadAmount)));
    v.Plain? && v.d.Int?
  }

  /** `mapper_arguments`: the subclass's hash, or an empty one when the hook is not redefined. */
  function MapperArguments(hook: Override<seq<(Name, Value)>>): (args: seq<(Name, Value)>)
    ensures hook.Inherited? ==> args == []
    ensures hook.Overridden? ==> args == hook.f
  {
    match hook
    case Inherited => []
    case Overridden(args) => args
  }

  /**
   * `create_mapper`: `option(:mapper).new(mapper_arguments)`, given the value
   * of `option(:mapper)` and the hash `mapper_arguments` returned.
   */
  function CreateMapper(mapperOption: Value, args: seq<(Name, Value)>, catalog: Catalog): (r: Result<Mapper.MapperInstance>)
    ensures r.Success? <==> mapperOption.Plain? && mapperOption.d.Klass? && mapperOption.d.name in catalog.mappers
    ensures r.Success? ==> r.value.cls == catalog.mappers[mapperOption.d.name]
    ensures r.Success? ==> r.value.attributes == InitializeArguments.Assigned(r.value.cls.readers, args)
    ensures r.Failure? ==> r.error == NoNew
  {
    match mapperOption
    case Plain(Klass(name)) =>
      if name in catalog.mappers then
        var cls := catalog.mappers[name];
        Success(Mapper.MapperInstance(cls, InitializeArguments.Assigned(cls.readers, args)))
      else Failure(NoNew)
    case _ => Failure(NoNew)
  }

  /** With the default `mapper_arguments`, the new mapper has none of its attributes set. */
  lemma {:induction false} DefaultMapperHasNoAttributes(mapperOption: Value, catalog: Catalog, name: string)
    requires CreateMapper(mapperOption, MapperArguments(Inherited), catalog).Success?
    ensures InitializeArguments.Attribute(CreateMapper(mapperOption, MapperArguments(Inherited), catalog).value.attributes, name) == Nil
  {
    InitializeArguments.UnmentionedUnset(CreateMapper(mapperOption, [], catalog).value.cls.readers, [], name);
  }

  /**
   * With a redefined `mapper_arguments`, each key that names one of the
   * mapper's readers reaches it with its (last) value, and no other key does.
   */
  lemma {:induction false} MapperGetsArguments(mapperOption: Value, args: seq<(Name, Value)>, catalog: Catalog, i: nat, k: string)
    requires CreateMapper(mapperOption, MapperArguments(Overridden(args)), catalog).Success?
    requires i < |args| && Key(args[i].0) in CreateMapper(mapperOption, args, catalog).value.cls.readers
    requires forall j :: i < j < |args| ==> Key(args[j].0) != Key(args[i].0)
    requires k !in CreateMapper(mapperOption, args, catalog).value.cls.readers
    ensures InitializeArguments.Attribute(CreateMapper(mapperOption, MapperArguments(Overridden(args)), catalog).value.attributes, Key(args[i].0)) == args[i].1
    ensures k !in CreateMapper(mapperOption, MapperArguments(Overridden(args)), catalog).value.attributes
  {
    var readers := CreateMapper(mapperOption, args, catalog).value.cls.readers;
    InitializeArguments.AssignedReader(readers, args, i);
    InitializeArguments.NonReaderIgnored(readers, args, k);
  }

  /** `option(:worker).new`, given the value of `option(:worker)`. */
  function NewWorker(workerOption: Value, catalog: Catalog): (r: Result<Worker.WorkerClass>)
    ensures r.Success? <==> workerOption.Plain? && workerOption.d.Klass? && workerOption.d.name in catalog.workers
    ensures r.Success? ==> r.value == catalog.workers[workerOption.d.name]
    ensures r.Failure? ==> r.error == NoNew
  {
    match workerOption
    case Plain(Klass(name)) =>
      if name in catalog.workers then Success(catalog.workers[name]) else Failure(NoNew)
    case _ => Failure(NoNew)
  }

  /**
   * `run_worker(message)`: create the mapper, map the input, create the
   * worker, process, map the output; the first exception raised is the result.
   * The worker's `process` is the intended one-parameter `process(input)`.
   */
  function RunWorker(mapperOption: Value, workerOption: Value, args: seq<(Name, Value)>, catalog: Catalog, message: Value): (r: Result<Value>)
    ensures CreateMapper(mapperOption, args, catalog).Failure? ==> r == Failure(NoNew)
    ensures r.Success? ==> CreateMapper(mapperOption, args, catalog).Success? && NewWorker(workerOption, catalog).Success?
    ensures r.Success? ==> Mapper.MapInput(CreateMapper(mapperOption, args, catalog).value, message).Success?
    ensures r.Success? ==> Worker.Process(NewWorker(workerOption, catalog).value,
                                          Mapper.MapInput(CreateMapper(mapperOption, args, catalog).value, message).value).Success?
  {
    match CreateMapper(mapperOption, args, catalog)
    case Failure(e) => Failure(e)
    case Success(mapper) =>
      match Mapper.MapInput(mapper, message)
      case Failure(e) => Failure(e)
      case Success(input) =>
        match NewWorker(workerOption, catalog)
        case Failure(e) => Failure(e)
        case Success(worker) =>
          match Worker.Process(worker, input)
          case Failure(e) => Failure(e)
          case Success(output) => Mapper.MapOutput(mapper, output)
  }

  /** With the classes resolved and neither mapping raising, `run_worker` is `map_output(process(map_input(message)))`. */
  lemma RunWorkerComposes(mapperOption: Value, workerOption: Value, args: seq<(Name, Value)>, catalog: Catalog, message: Value,
                          cls: Mapper.MapperClass, worker: Worker.WorkerClass)
    requires mapperOption == Plain(Klass(cls.name)) && cls.name in catalog.mappers && catalog.mappers[cls.name] == cls
    requires workerOption == Plain(Klass(worker.name)) && worker.name in catalog.workers && catalog.workers[worker.name] == worker
    requires var mapper := Mapper.MapperInstance(cls, InitializeArguments.Assigned(cls.readers, args));
             Mapper.MapInput(mapper, message).Success? && Worker.Process(worker, Mapper.MapInput(mapper, message).value).Success?
    ensures var mapper := Mapper.MapperInstance(cls, InitializeArguments.Assigned(cls.readers, args));
            RunWorker(mapperOption, workerOption, args, catalog, message)
              == Mapper.MapOutput(mapper, Worker.Process(worker, Mapper.MapInput(mapper, message).value).value)
  {
  }

  /** With a mapper that inherits both identity mappings, `run_worker` is just the worker's `process`. */
  lemma RunWorkerIdentityMapper(mapperOption: Value, workerOption: Value, args: seq<(Name, Value)>, catalog: Catalog, message: Value)
    requires CreateMapper(mapperOption, args, catalog).Success?
    requires CreateMapper(mapperOption, args, catalog).value.cls.mapInput.Inherited?
    requires CreateMapper(mapperOption, args, catalog).value.cls.mapOutput.Inherited?
    requires NewWorker(workerOption, catalog).Success?
    ensures RunWorker(mapperOption, workerOption, args, catalog, message) == Worker.Process(NewWorker(workerOption, catalog).value, message)
  {
  }

  /** A worker that inherits `process` makes `run_worker` fail on every message. */
  lemma RunWorkerBaseWorkerFails(mapperOption: Value, workerOption: Value, args: seq<(Name, Value)>, catalog: Catalog, message: Value)
    requires NewWorker(workerOption, catalog).Success? && NewWorker(workerOption, catalog).value.process.Inherited?
    ensures RunWorker(mapperOption, workerOption, args, catalog, message).Failure?
    ensures CreateMapper(mapperOption, args, catalog).Success? && Mapper.MapInput(CreateMapper(mapperOption, args, catalog).value, message).Success?
        ==> RunWorker(mapperOption, workerOption, args, catalog, message) == Failure(Worker.NotImplemented)
  {
  }

  /** Without a `:mapper` option, `run_worker` fails (on `nil.new`) before anything else runs. */
  lemma RunWorkerWithoutMapper(workerOption: Value, args: seq<(Name, Value)>, catalog: Catalog, message: Value)
    ensures RunWorker(Nil, workerOption, args, catalog, message) == Failure(NoNew)
  {
  }

  /** The test suite's mapper: `input[:number]` in, `{new_number: number}` out. */
  function NumberIn(attributes: Mapper.Attributes, input: Value): Result<Value> {
    match input
    case Plain(Hash(pairs)) => Success(HashGet(pairs, Plain(Symbol("number"))))
    case _ => Failure(NoMethodError("undefined method `[]'"))
  }

  function NewNumberOut(attributes: Mapper.Attributes, number: Value): Result<Value> {
    Success(Plain(Hash([(Plain(Symbol("new_number")), number)])))
  }

  /** It declares the reader `number` but, like `Oni::Mapper`, no constructor of its own. */
  const ExampleMapper := Mapper.MapperClass("ExampleMapper", {"number"}, false, Overridden(NumberIn), Overridden(NewNumberOut))

  const ExampleCatalog := Catalog(map["ExampleMapper" := ExampleMapper], map["DoublingWorker" := Worker.Doubling])

  /** The test suite's daemon: `{number: 10}` is processed into `{new_number: 20}`. */
  lemma ExamplePipeline()
    ensures RunWorker(Plain(Klass("ExampleMapper")), Plain(Klass("DoublingWorker")), MapperArguments(Inherited), ExampleCatalog,
                      Plain(Hash([(Plain(Symbol("number")), Plain(Int(10)))])))
         == Success(Plain(Hash([(Plain(Symbol("new_number")), Plain(Int(20)))])))
  {
  }

  /**
   * `create_mapper` as written: `new(mapper_arguments)` passes one argument,
   * so a mapper class without a constructor of its own (`Oni::Mapper`
   * defines none) fails the arity check of the inherited zero-parameter
   * `initialize`, whatever the hash holds.
   */
  function CreateMapperAsWritten(mapperOption: Value, args: seq<(Name, Value)>, catalog: Catalog): (r: Result<Mapper.MapperInstance>)
    ensures CreateMapper(mapperOption, args, catalog).Failure? ==> r == CreateMapper(mapperOption, args, catalog)
    ensures CreateMapper(mapperOption, args, catalog).Success? && CreateMapper(mapperOption, args, catalog).value.cls.optionsConstructor
            ==> r == CreateMapper(mapperOption, args, catalog)
    ensures CreateMapper(mapperOption, args, catalog).Success? && !CreateMapper(mapperOption, args, catalog).value.cls.optionsConstructor
            ==> r == Failure(WrongArity(1, 0))
  {
    match mapperOption
    case Plain(Klass(name)) =>
      if name in catalog.mappers then
        var cls := catalog.mappers[name];
        if cls.optionsConstructor then Success(Mapper.MapperInstance(cls, InitializeArguments.Assigned(cls.readers, args)))
        else Failure(WrongArity(1, 0))
      else Failure(NoNew)
    case _ => Failure(NoNew)
  }

  /**
   * As written, `Oni::Mapper` and the test suite's mapper cannot be created
   * by the daemon at all, even with the default empty `mapper_arguments`,
   * while the intended `create_mapper` builds both.
   */
  lemma StockMapperRejectsArguments(args: seq<(Name, Value)>)
    ensures var catalog := Catalog(map["Oni::Mapper" := Mapper.Base], map[]);
            && CreateMapperAsWritten(Plain(Klass("Oni::Mapper")), args, catalog) == Failure(WrongArity(1, 0))
            && CreateMapper(Plain(Klass("Oni::Mapper")), args, catalog).Success?
    ensures CreateMapperAsWritten(Plain(Klass("ExampleMapper")), MapperArguments(Inherited), ExampleCatalog)
         == Failure(ArgumentError("wrong number of arguments (given 1, expected 0)"))
    ensures CreateMapper(Plain(Klass("ExampleMapper")), MapperArguments(Inherited), ExampleCatalog).Success?
  {
    assert Decimal(1) == ['1'] && Decimal(0) == ['0'];
    assert WrongArity(1, 0).message == "wrong number of arguments (given " + ['1'] + ", expected " + ['0'] + ")";
  }

  /** A mapper whose `map_input` returns its attribute `factor`: the arguments a daemon passes decide the worker's input. */
  function FactorIn(attributes: Mapper.Attributes, input: Value): Result<Value> {
    Success(InitializeArguments.Attribute(attributes, "factor"))
  }

  const FactorMapper := Mapper.MapperClass("FactorMapper", {"factor"}, true, Overridden(FactorIn), Inherited)

  const FactorCatalog := Catalog(map["FactorMapper" := FactorMapper], map["DoublingWorker" := Worker.Doubling])

  /**
   * `mapper_arguments` reaches the mapping methods: with `{factor: n}` the
   * pipeline doubles `n`, and with the default `{}` the worker gets `nil`
   * and fails.
   */
  lemma {:induction false} ArgumentsReachMapping(n: int, message: Value)
    ensures RunWorker(Plain(Klass("FactorMapper")), Plain(Klass("DoublingWorker")), [(Sym("factor"), Plain(Int(n)))], FactorCatalog, message)
         == Success(Plain(Int(2 * n)))
    ensures RunWorker(Plain(Klass("FactorMapper")), Plain(Klass("DoublingWorker")), MapperArguments(Inherited), FactorCatalog, message).Failure?
  {
    var args := [(Sym("factor"), Plain(Int(n)))];
    InitializeArguments.AssignedReader(FactorMapper.readers, args, 0);
    InitializeArguments.UnmentionedUnset(FactorMapper.readers, [], "factor");
  }

  /** `receive`: the messages a subclass yields, or the default's exception. */
  function Receive(receive: Override<seq<Value>>): (r: Result<seq<Value>>)
    ensures receive.Inherited? <==> r == Failure(ReceiveNotImplemented)
    ensures receive.Overridden? ==> r == Success(receive.f)
  {
    match receive
    case Inherited => Failure(ReceiveNotImplemented)
    case Overridden(messages) => Success(messages)
  }

  /** The jobs `start` schedules for `n` messages, numbered from `first`. */
  function Jobs(first: nat, n: nat): (s: seq<TP.Job>)
    ensures |s| == n && forall k :: 0 <= k < n ==> s[k] == TP.Task(first + k)
  {
    seq(n, k requires 0 <= k < n => TP.Task(first + k))
  }

  /** What `complete` receives when each message in turn is processed: the successful results, in order. */
  function Completions(mapperOption: Value, workerOption: Value, args: seq<(Name, Value)>, catalog: Catalog, messages: seq<Value>): seq<Value>
    decreases |messages|
  {
    if messages == [] then []
    else
      var earlier := Completions(mapperOption, workerOption, args, catalog, messages[..|messages| - 1]);
      match RunWorker(mapperOption, workerOption, args, catalog, messages[|messages| - 1])
      case Success(output) => earlier + [output]
      case Failure(_) => earlier
  }

  /** The messages the jobs `ids` captured, in the order of `ids`. */
  function MessagesOf(closures: seq<Value>, ids: seq<nat>): (ms: seq<Value>)
    requires forall k :: 0 <= k < |ids| ==> ids[k] < |closures|
    ensures |ms| == |ids| && forall k :: 0 <= k < |ids| ==> ms[k] == closures[ids[k]]
  {
    seq(|ids|, k requires 0 <= k < |ids| => closures[ids[k]])
  }

  /** Every job id in a queue whose jobs are all below `bound` is below `bound`. */
  lemma {:induction false} TaskIdsBelow(q: seq<TP.Job>, bound: nat)
    requires forall k :: 0 <= k < |q| && q[k].Task? ==> q[k].id < bound
    ensures forall k :: 0 <= k < |TP.TaskIds(q)| ==> TP.TaskIds(q)[k] < bound
    decreases |q|
  {
    if q != [] {
      TaskIdsBelow(q[1..], bound);
    }
  }

  class Daemon {
    const config: Configurable.Registry
    const cls: Configurable.ClassId
    const catalog: Catalog
    /** The subclass's `receive`, if it defines one. */
    const receive: Override<seq<Value>>
    /** The subclass's `mapper_arguments`, if it redefines the hook. */
    const mapperArguments: Override<seq<(Name, Value)>>
    /** Whether the subclass defines `after_initialize`. */
    const hasAfterInitialize: bool
    const pool: TP.ThreadPool
    var afterInitializeCalls: nat
    /** The message each scheduled closure captured: job `Task(k)` processes `closures[k]`. */
    var closures: seq<Value>
    /** The outputs passed to `complete`, in order. */
    var completed: seq<Value>

    /** Every queued job refers to a captured message. */
    ghost predicate Valid()
      reads this, pool
    {
      forall k :: 0 <= k < |pool.queue| && pool.queue[k].Task? ==> pool.queue[k].id < |closures|
    }

    /** `initialize`: a pool sized by `threads`, then `after_initialize` once if it is defined. */
    constructor (config: Configurable.Registry, cls: Configurable.ClassId, catalog: Catalog,
                 receive: Override<seq<Value>>, mapperArguments: Override<seq<(Name, Value)>>, hasAfterInitialize: bool)
      requires ThreadsIsInteger(config.tables, cls)
      modifies config
      ensures Valid() && fresh(pool)
      ensures this.config == config && this.cls == cls && this.catalog == catalog
      ensures this.receive == receive && this.mapperArguments == mapperArguments && this.hasAfterInitialize == hasAfterInitialize
      ensures config.tables == Configurable.Touch(old(config.tables), cls)
      ensures Plain(Int(pool.amount)) == Configurable.Resolved(old(config.tables), cls, Sym("threads"), Plain(Int(DefaultThreadAmount)))
      ensures pool.queue == [] && pool.threads == [] && pool.ran == []
      ensures afterInitializeCalls == if hasAfterInitialize then 1 else 0
      ensures closures == [] && completed == []
    {
      var threads := config.Option(cls, Sym("threads"), Plain(Int(DefaultThreadAmount)));
      this.config := config;
      this.cls := cls;
      this.catalog := catalog;
      this.receive := receive;
      this.mapperArguments := mapperArguments;
      this.hasAfterInitialize := hasAfterInitialize;
      pool := new TP.ThreadPool(threads.d.i);
      closures := [];
      completed := [];
      afterInitializeCalls := 0;
      new;
      if hasAfterInitialize {
        afterInitializeCalls := afterInitializeCalls + 1;
      }
    }

    /**
     * `start`: starts the pool, then schedules one closure per message
     * `receive` yields, in order; the default `receive` raises after the
     * pool has started.
     */
    method Start() returns (outcome: Outcome)
      requires Valid()
      modifies this`closures, pool
      ensures Valid()
      ensures pool.threads == old(pool.threads) + TP.Spawned(pool.amount)
      ensures pool.ran == old(pool.ran)
      ensures receive.Inherited? ==> outcome == Fail(ReceiveNotImplemented) && pool.queue == old(pool.queue) && closures == old(closures)
      ensures receive.Overridden? ==>
        (outcome == Pass
         && closures == old(closures) + receive.f
         && pool.queue == old(pool.queue) + Jobs(|old(closures)|, |receive.f|))
    {
      pool.Start();
      match Receive(receive) {
        case Failure(e) =>
          return Fail(e);
        case Success(messages) =>
          for i := 0 to |messages|
            invariant Valid()
            invariant closures == old(closures) + messages[..i]
            invariant pool.queue == old(pool.queue) + Jobs(|old(closures)|, i)
            invariant pool.threads == old(pool.threads) + TP.Spawned(pool.amount) && pool.ran == old(pool.ran)
          {
            var _ := pool.Schedule(TP.Given(TP.Task(|closures|)));
            closures := closures + [messages[i]];
            assert messages[..i + 1] == messages[..i] + [messages[i]];
          }
          assert messages[..|messages|] == messages;
          outcome := Pass;
      }
    }

    /** `process(message)`: `complete(run_worker(message))`; nothing is completed when it raises. */
    method Process(message: Value) returns (result: Result<Value>)
      modifies this`completed, config
      ensures config.tables == Configurable.Touch(old(config.tables), cls)
      ensures var mapperOption := Configurable.Resolved(old(config.tables), cls, Sym("mapper"), Nil);
              var workerOption := Configurable.Resolved(old(config.tables), cls, Sym("worker"), Nil);
              !mapperOption.Factory? && !workerOption.Factory? ==>
                result == RunWorker(mapperOption, workerOption, MapperArguments(mapperArguments), catalog, message)
      ensures result.Success? ==> completed == old(completed) + [result.value]
      ensures result.Failure? ==> completed == old(completed)
    {
      Configurable.TouchKeepsTables(config.tables, cls, cls);
      var mapperOption := config.Option(cls, Sym("mapper"));
      var workerOption := config.Option(cls, Sym("worker"));
      result := RunWorker(mapperOption, workerOption, MapperArguments(mapperArguments), catalog, message);
      if result.Success? {
        completed := completed + [result.value];
      }
    }

    /**
     * The scheduled closures `{ process(message) }` run one after another:
     * `complete` receives each successful result in turn.
     */
    method ProcessAll(messages: seq<Value>)
      modifies this`completed, config
      ensures |messages| == 0 ==> config.tables == old(config.tables)
      ensures |messages| > 0 ==> config.tables == Configurable.Touch(old(config.tables), cls)
      ensures var mapperOption := Configurable.Resolved(old(config.tables), cls, Sym("mapper"), Nil);
              var workerOption := Configurable.Resolved(old(config.tables), cls, Sym("worker"), Nil);
              !mapperOption.Factory? && !workerOption.Factory? ==>
                completed == old(completed) + Completions(mapperOption, workerOption, MapperArguments(mapperArguments), catalog, messages)
    {
      ghost var mapperOption := Configurable.Resolved(config.tables, cls, Sym("mapper"), Nil);
      ghost var workerOption := Configurable.Resolved(config.tables, cls, Sym("worker"), Nil);
      for i := 0 to |messages|
        invariant i == 0 ==> config.tables == old(config.tables)
        invariant i > 0 ==> config.tables == Configurable.Touch(old(config.tables), cls)
        invariant !mapperOption.Factory? && !workerOption.Factory? ==>
                    completed == old(completed) + Completions(mapperOption, workerOption, MapperArguments(mapperArguments), catalog, messages[..i])
      {
        Configurable.TouchKeepsTables(old(config.tables), cls, cls);
        var _ := Process(messages[i]);
        assert messages[..i + 1][..i] == messages[..i];
      }
      assert messages[..|messages|] == messages;
    }

    /**
     * `stop`: stops the pool. The closures its threads ran there are
     * processed afterwards, in the order the threads popped them.
     */
    method Stop() returns (joined: bool)
      requires Valid()
      modifies this`completed, pool, config
      ensures Valid() && pool.queue == []
      ensures var d := TP.Drain(old(pool.queue) + TP.Sentinels(pool.amount), TP.CountRunning(old(pool.threads)));
        && pool.ran == old(pool.ran) + d.ran
        && joined == (d.running == 0)
        && (joined ==> pool.threads == [])
        && (!joined ==> |pool.threads| == |old(pool.threads)| && TP.CountRunning(pool.threads) == d.running)
        && (|d.ran| == 0 ==> config.tables == old(config.tables))
        && (|d.ran| > 0 ==> config.tables == Configurable.Touch(old(config.tables), cls))
        && (forall k :: 0 <= k < |d.ran| ==> d.ran[k] < |closures|)
        && (var mapperOption := Configurable.Resolved(old(config.tables), cls, Sym("mapper"), Nil);
            var workerOption := Configurable.Resolved(old(config.tables), cls, Sym("worker"), Nil);
            !mapperOption.Factory? && !workerOption.Factory? ==>
              completed == old(completed)
                         + Completions(mapperOption, workerOption, MapperArguments(mapperArguments), catalog, MessagesOf(closures, d.ran)))
    {
      ghost var q0 := old(pool.queue) + TP.Sentinels(pool.amount);
      ghost var d := TP.Drain(q0, TP.CountRunning(pool.threads));
      var before := |pool.ran|;
      joined := pool.Stop();
      var ids := pool.ran[before..];
      assert ids == d.ran;
      TP.DrainConsumesPrefix(q0, TP.CountRunning(old(pool.threads)));
      TaskIdsBelow(q0[..|q0| - |d.rest|], |closures|);
      ProcessAll(MessagesOf(closures, ids));
    }
  }

  /** The message the test suite's daemon receives, and the output it completes with. */
  const ExampleMessage := Plain(Hash([(Plain(Symbol("number")), Plain(Int(10)))]))
  const ExampleOutput := Plain(Hash([(Plain(Symbol("new_number")), Plain(Int(20)))]))

  /** The test suite's daemon class: `set :mapper`, `set :worker`, `set :threads, 2`, and a new instance. */
  method NewExampleDaemon() returns (daemon: Daemon)
    ensures fresh(daemon) && fresh(daemon.pool) && fresh(daemon.config) && daemon.Valid()
    ensures daemon.pool.amount == 2 && daemon.pool.queue == [] && daemon.pool.threads == [] && daemon.pool.ran == []
    ensures daemon.closures == [] && daemon.completed == [] && daemon.afterInitializeCalls == 1
    ensures daemon.catalog == ExampleCatalog && daemon.receive == Overridden([ExampleMessage]) && daemon.mapperArguments.Inherited?
    ensures Configurable.Resolved(daemon.config.tables, daemon.cls, Sym("mapper"), Nil) == Plain(Klass("ExampleMapper"))
    ensures Configurable.Resolved(daemon.config.tables, daemon.cls, Sym("worker"), Nil) == Plain(Klass("DoublingWorker"))
  {
    var c := "ExampleDaemon";
    var config := new Configurable.Registry();
    config.Set(c, Sym("mapper"), Plain(Klass("ExampleMapper")));
    config.Set(c, Sym("worker"), Plain(Klass("DoublingWorker")));
    config.Set(c, Sym("threads"), Plain(Int(2)));
    ghost var t := config.tables[c];
    assert Configurable.Stored(t, "mapper") == Plain(Klass("ExampleMapper"));
    assert Configurable.Stored(t, "worker") == Plain(Klass("DoublingWorker"));
    assert Configurable.Stored(t, "threads") == Plain(Int(2));
    daemon := new Daemon(config, c, ExampleCatalog, Overridden([ExampleMessage]), Inherited, true);
    assert config.tables[c] == t;
  }

  /**
   * The test suite's daemon (threads 2, `receive` yielding `{number: 10}`
   * once, an `after_initialize` hook): after `start` and `stop`, `complete`
   * has received `{new_number: 20}` exactly once.
   */
  method ProcessJobScenario() returns (initialized: nat, started: nat, joined: bool, completed: seq<Value>)
    ensures initialized == 1 && started == 2 && joined
    ensures completed == [ExampleOutput]
  {
    var daemon := NewExampleDaemon();
    initialized := daemon.afterInitializeCalls;
    var _ := daemon.Start();
    started := |daemon.pool.threads|;
    TP.CountSpawned(2);
    assert daemon.pool.queue == [TP.Task(0)] && daemon.closures == [ExampleMessage];
    assert [] + TP.Spawned(2) == TP.Spawned(2);
    assert TP.CountRunning(daemon.pool.threads) == 2;
    TP.StopRunsEveryJobOnce([TP.Task(0)], 2, 2);
    assert TP.TaskIds([TP.Task(0)]) == [0];
    ExamplePipeline();
    assert Completions(Plain(Klass("ExampleMapper")), Plain(Klass("DoublingWorker")), MapperArguments(Inherited), ExampleCatalog, [ExampleMessage]) == [ExampleOutput];
    joined := daemon.Stop();
    completed := daemon.completed;
  }
}
