# Oni job daemon, modelled in Dafny

This project models the sequential core of Oni, a small Ruby library for job daemons. It covers five pieces:

- **Configurable** (`configurable.dfy`): per-class option tables. `set` and `set_multiple` write them at class level, and `option` and `require_option!` read them on instances. Names are normalised with `to_sym`. A default fills in only for `nil`/`false`. A stored callable is called again on every read.
- **Mapper** and **Worker** (`mapper.dfy`, `worker.dfy`): the base classes. Mapping is the identity by default. The default `process` raises `NotImplementedError`, and the default `extra_error_data` is `nil`.
- **ThreadPool** (`thread_pool.dfy`): a class holding a FIFO queue of jobs, a list of thread states and a fixed `amount`. A worker thread's `loop { queue.pop.call }` is a single `Step`. `stop` queues `amount` terminate sentinels, lets the threads drain the queue (`join`), then clears everything. The pure function `Drain` says what draining leaves: which jobs ran, the rest of the queue, and how many threads are still looping.
- **Daemon** (`daemon.dfy`): the constructor (a pool sized by `threads`, then `after_initialize`), `start` (start the pool, then schedule one closure per message from `receive`), `process`/`run_worker` (`map_output(process(map_input(message)))`, then `complete`), `create_mapper` with `mapper_arguments`, and `stop`.
- **InitializeArguments** and **WrappedError** (`initialize_arguments.dfy`, `wrapped_error.dfy`): constructors that loop over an options hash. They set an instance variable only for keys that name a reader.

`values.dfy` holds the shared Ruby values: `nil`, `false`, plain objects, callables, exceptions, and Symbol/String names. An options hash is a list of pairs in insertion order.

Notes on what the code in `lib/oni/daemon.rb` does:
- `create_mapper` with no `:mapper` option calls `nil.new` and fails with `NoMethodError`. With a mapper class that has no constructor of its own it fails on the arity check; the model uses the intended behaviour and records the code as written under "## Findings".
- `complete` receives one argument, the output of `run_worker`.
- `start` starts the thread pool, then schedules one closure per message on it.
- `run_worker` builds the worker with no arguments and calls `process(input)` on it. The daemon's tests are written for another interface (a worker built from the input, and `complete(message, output, timings)`); the model follows the code.
- The file has no timeout, error callback, `before_start`/`after_start` hook or zero-thread mode.

## Model

| member | source | states |
|---|---|---|
| Values.Key | lib/oni/configurable.rb:40 | `name.to_sym`: the key is the name's text, whether it was written as a Symbol or a String |
| Values.KeyIgnoresSpelling | lib/oni/configurable.rb:86 | `:a` and `"a"` give the same key, and names with different text give different keys |
| Configurable.Touch | lib/oni/configurable.rb:64-66 | first access creates the class's table empty; every existing table is kept as it was |
| Configurable.TouchKeepsTables | lib/oni/configurable.rb:64-66 | reading a table (which may create it) changes what no class's table holds |
| Configurable.TablesArePerClass | lib/oni/configurable.rb:64-66 | an option set on one class (e.g. a parent) is not read by `option` on another class (e.g. a subclass) |
| Configurable.Put | lib/oni/configurable.rb:86 | after storing, the key `name.to_sym` holds `v`, every other key reads as before, and the key set grows by that key only |
| Configurable.SetIn | lib/oni/configurable.rb:85-87 | `set` changes only the named class's table; no other class's table changes |
| Configurable.SetThenStored | lib/oni/configurable.rb:85-87 | after `set(k, v)` the class maps `k.to_sym` to `v`; every other key and class keeps its value |
| Configurable.SetOverwrites | lib/oni/configurable.rb:85-87 | a second `set` on the same key gives the same tables as the second `set` alone |
| Configurable.SetAll | lib/oni/configurable.rb:97-101 | `set` on each pair in order keeps every existing key, and the last pair's key holds the last pair's value |
| Configurable.SetAllUntouched | lib/oni/configurable.rb:97-101 | a key that no pair of `set_multiple` names keeps its presence and value |
| Configurable.SetAllLastWins | lib/oni/configurable.rb:97-101 | a key named by `set_multiple` holds the value of the last pair naming it (`:a` and `"a"` are the same key) |
| Configurable.Registry.Options | lib/oni/configurable.rb:64-66 | returns the class's table (empty if new) and creates it if it was missing |
| Configurable.Registry.Set | lib/oni/configurable.rb:85-87 | the new tables are `SetIn` of the old ones |
| Configurable.Registry.SetMultiple | lib/oni/configurable.rb:97-101 | the tables equal `set` applied to each pair in order; an empty hash changes nothing, not even table creation |
| Configurable.Registry.Option | lib/oni/configurable.rb:39-44 | creates the table if missing; returns the resolved value when it is not callable (nothing is promised about a callable's result) |
| Configurable.OptionReturnsSetValue | lib/oni/configurable.rb:39-43 | a non-callable value set under a name is what `option` returns, whether set or read as Symbol or String |
| Configurable.Resolve | lib/oni/configurable.rb:41 | the settled value is the stored one or the default; a truthy stored value always wins; a truthy default always gives a truthy value; a `nil`/`false` default never applies |
| Configurable.Read | lib/oni/configurable.rb:39-44 | `option` returns the settled value when it is not callable and otherwise what its call produced; a truthy non-callable default over a non-callable entry always gives a truthy value |
| Configurable.DefaultFillsFalsy | lib/oni/configurable.rb:41 | a truthy default is returned exactly when the stored value is absent, `nil` or `false` (or already equal to it) |
| Configurable.TruthyStoredKept | lib/oni/configurable.rb:41 | a truthy stored value, including `0`, is returned whatever the default |
| Configurable.FalsyDefaultIgnored | lib/oni/configurable.rb:41 | a `nil`/`false` default never applies: `option(:x, false)` on an unset option is `nil` |
| Configurable.FactoryReadsMayDiffer | lib/oni/configurable.rb:43 | a callable resolved value yields the value of that read's call, so reads whose calls differ return different values |
| Configurable.Require | lib/oni/configurable.rb:52-56 | `require_option!` passes iff the read value is truthy, and otherwise raises ArgumentError with the source's message |
| Configurable.RequireRaisesIffFalsy | lib/oni/configurable.rb:52-56 | `require_option!` raises exactly when `option(name)` is `nil`/`false` |
| Configurable.Registry.RequireOption | lib/oni/configurable.rb:52-56 | option tables are only touched; a raise is always the ArgumentError for that name; for a non-callable option the outcome is `Require` of its value |
| Mapper.MapInput | lib/oni/mapper.rb:15-17 | the base `map_input` returns its argument unchanged; a redefined one sees the mapper's attributes and its argument |
| Mapper.MapOutput | lib/oni/mapper.rb:26-28 | the base `map_output` returns its argument unchanged; a redefined one sees the mapper's attributes and its argument |
| Mapper.IdentityRoundTrip | lib/oni/mapper.rb:15-28 | with the base mappings, `map_output(map_input(x)) == x` |
| Mapper.OptionOnInstance | lib/oni/mapper.rb:6 | an option set on a mapper class is read by `option` on its instances |
| Worker.Process | lib/oni/worker.rb:14-16 | the base `process` fails with NotImplementedError on every input |
| Worker.ProcessAsWritten | lib/oni/worker.rb:14-16 | `process` as declared, with no parameter: no argument raises NotImplementedError; any argument fails the arity check with Ruby's ArgumentError "wrong number of arguments (given n, expected 0)"; an overriding `process(message)` expects exactly one |
| Worker.BaseProcessWithInputIsArgumentError | lib/oni/daemon.rb:82-83 | called with the input as `run_worker` calls it, the declared `process` agrees with the intended one for overriding subclasses and raises "wrong number of arguments (given 1, expected 0)" for the base class |
| Worker.ExtraErrorData | lib/oni/worker.rb:30-31 | the base `extra_error_data` is `nil` |
| Worker.BaseProcessFails | lib/oni/worker.rb:14-31 | `Oni::Worker` itself always raises NotImplementedError and has `nil` extra error data |
| Worker.OptionOnInstance | lib/oni/worker.rb:6 | an option set on a worker class is read by `option` on its instances |
| Worker.Double | spec/oni/worker_spec.rb:8-10 | `message * 2` doubles an integer and fails on values that have no `*` |
| Worker.DoublingReplacesDefault | spec/oni/worker_spec.rb:32-36 | a subclass's `process` replaces the failing default: the doubling worker maps 10 to 20 |
| ThreadPool.Sentinels | lib/oni/thread_pool.rb:39-41 | `amount.times` queues `amount` terminate sentinels, and none when `amount <= 0` |
| ThreadPool.Spawned | lib/oni/thread_pool.rb:32 | `amount.times` spawns `amount` looping threads, and none when `amount <= 0` |
| ThreadPool.CountSpawned | lib/oni/thread_pool.rb:31-33 | the spawned threads are all looping: their count is `amount` (0 for `amount <= 0`) |
| ThreadPool.Drain | lib/oni/thread_pool.rb:73-79 | draining never adds looping threads and ends only when no thread loops or the queue is empty |
| ThreadPool.DrainConsumesPrefix | lib/oni/thread_pool.rb:73-79 | the threads consume a prefix of the queue (FIFO), run that prefix's jobs in order, and each exited thread consumed exactly one sentinel |
| ThreadPool.DrainUnfold | lib/oni/thread_pool.rb:76 | one pop runs the head job or, for a sentinel, takes one thread out of its loop |
| ThreadPool.CountRunningExit | lib/oni/thread_pool.rb:75-77 | a thread that pops a sentinel leaves its loop: exactly one fewer thread loops |
| ThreadPool.DrainSentinels | lib/oni/thread_pool.rb:38-46 | r threads and n sentinels: each thread exits on one sentinel; extra sentinels stay queued; extra threads stay blocked |
| ThreadPool.StopRunsEveryJobOnce | lib/oni/thread_pool.rb:38-46 | with k jobs queued and 1 <= r <= amount looping threads, `stop` runs every job exactly once in queue order and all threads exit |
| ThreadPool.StopWithSurplusThreads | lib/oni/thread_pool.rb:38-46 | with more looping threads than sentinels, every job still runs but some threads never exit, so `join` cannot return |
| ThreadPool.ThreadPool.constructor | lib/oni/thread_pool.rb:22-26 | the new pool has the given amount (default 10), an empty queue and no threads |
| ThreadPool.ThreadPool.Start | lib/oni/thread_pool.rb:31-33 | appends exactly `amount` looping thread handles; the queue is unchanged |
| ThreadPool.ThreadPool.Schedule | lib/oni/thread_pool.rb:60-66 | without a block it raises LocalJumpError and leaves the queue unchanged; otherwise it appends the block at the tail |
| ThreadPool.ThreadPool.Step | lib/oni/thread_pool.rb:73-79 | a looping thread pops the head; it runs a job or leaves its loop on a sentinel; it blocks (changes nothing) on an empty queue or if it already exited |
| ThreadPool.ThreadPool.Join | lib/oni/thread_pool.rb:43 | threads take turns until none loops or the queue is empty; what ran, what is left and how many still loop is `Drain` of the old state |
| ThreadPool.ThreadPool.Stop | lib/oni/thread_pool.rb:38-46 | queues `amount` sentinels, runs the drained jobs, and when all threads exit clears threads and queue; otherwise it reports that `join` would block |
| ThreadPool.StartStopScenario | spec/oni/thread_pool_spec.rb:4-11 | a pool of 2 has 2 threads after `start`, and no threads and an empty queue after `stop` |
| ThreadPool.ScheduleWorkScenario | spec/oni/thread_pool_spec.rb:13-27 | two jobs scheduled on two started threads each run exactly once before `stop` returns |
| ThreadPool.NoBlockScenario | spec/oni/thread_pool_spec.rb:29-37 | scheduling without a block raises LocalJumpError and queues nothing |
| Daemon.Threads | lib/oni/daemon.rb:56-58 | `threads` is 5 when the `:threads` option is absent, `nil` or `false`, the stored value when it is truthy and not callable, and the call's result when it is callable |
| Daemon.ThreadsDefault | lib/oni/daemon.rb:56-58 | an unset, `nil` or `false` `:threads` option gives `DEFAULT_THREAD_AMOUNT = 5` |
| Daemon.ThreadsSet | lib/oni/daemon.rb:56-58 | an integer `:threads` option, `0` included, is used as it is |
| Daemon.MapperArguments | lib/oni/daemon.rb:121-123 | `mapper_arguments` is the empty hash unless a subclass redefines it, and then is the subclass's hash |
| Daemon.CreateMapper | lib/oni/daemon.rb:111-113 | succeeds iff `option(:mapper)` names a mapper class; the new mapper's attributes are exactly those `mapper_arguments` sets through its readers; otherwise `new` is undefined |
| Daemon.DefaultMapperHasNoAttributes | spec/oni/daemon_spec.rb:92-97 | with the default `mapper_arguments` the new mapper has every attribute `nil` |
| Daemon.MapperGetsArguments | lib/oni/daemon.rb:111-123 | with a redefined `mapper_arguments`, each key naming a reader of the mapper reaches it with its (last) value, and no other key is set |
| Daemon.CreateMapperAsWritten | lib/oni/daemon.rb:111-113 | `new(mapper_arguments)` as written: it agrees with `CreateMapper` for a class with an options constructor and when no class is found; a class without one, `Oni::Mapper` included, raises "wrong number of arguments (given 1, expected 0)" |
| Daemon.StockMapperRejectsArguments | lib/oni/mapper.rb:5-29 | as written, neither `Oni::Mapper` nor the test suite's mapper can be created by `create_mapper`, even with the default `{}`, while the intended `create_mapper` builds both |
| Daemon.ArgumentsReachMapping | lib/oni/daemon.rb:105-113 | the arguments given to the mapper change what `run_worker` returns: a `map_input` that returns the attribute `factor` makes the doubling pipeline give `2n` for `{factor: n}` and fail for the default `{}` |
| Daemon.NewWorker | lib/oni/daemon.rb:82 | `option(:worker).new` succeeds iff the option names a worker class, and then gives that class |
| Daemon.RunWorker | lib/oni/daemon.rb:79-86 | a failed `create_mapper` is the result; a successful result means the mapper and worker were created and neither `map_input` nor `process` raised (with the intended one-parameter `process` and the intended `create_mapper`) |
| Daemon.RunWorkerComposes | lib/oni/daemon.rb:79-86 | with the classes resolved and no step raising, `run_worker(m) == map_output(process(map_input(m)))` |
| Daemon.RunWorkerIdentityMapper | lib/oni/daemon.rb:79-86 | with a mapper that keeps both identity mappings, `run_worker` is the worker's `process` of the raw message |
| Daemon.RunWorkerBaseWorkerFails | lib/oni/daemon.rb:79-86 | with the intended one-parameter `process`, a worker that keeps the base `process` makes `run_worker` fail, with NotImplementedError once the input is mapped |
| Daemon.RunWorkerWithoutMapper | lib/oni/daemon.rb:111-113 | with no `:mapper` option, `run_worker` fails with NoMethodError before anything else runs |
| Daemon.ExamplePipeline | spec/oni/daemon_spec.rb:5-15 | the test mapper plus the doubling worker process `{number: 10}` into `{new_number: 20}` |
| Daemon.Receive | lib/oni/daemon.rb:93-95 | the default `receive` raises NotImplementedError; an overriding one yields its messages |
| Daemon.Daemon.constructor | lib/oni/daemon.rb:26-30 | the pool's amount equals `threads`, its queue and threads are empty, and `after_initialize` runs once exactly when it is defined |
| Daemon.Daemon.Start | lib/oni/daemon.rb:36-42 | starts the pool first; then the i-th queued job captures the i-th message `receive` yields; the default `receive` raises after the pool started |
| Daemon.Daemon.Process | lib/oni/daemon.rb:66-70 | with non-callable options the result is `run_worker(message)`; `complete` receives it exactly once on success and never on failure |
| Daemon.Daemon.ProcessAll | lib/oni/daemon.rb:40 | the scheduled closures `process(message)` run in turn: `complete` receives the successful results in order; option tables are only touched, and only if some closure ran |
| Daemon.Daemon.Stop | lib/oni/daemon.rb:47-49 | the pool's queue is empty; once joined its threads are cleared, otherwise the thread list keeps its length and the drained count still loops; `complete` has received the results of the jobs the pool ran, in pop order; option tables are touched exactly when some job ran |
| Daemon.ProcessJobScenario | spec/oni/daemon_spec.rb:110-118 | the test daemon (2 threads, one message `{number: 10}`) calls `after_initialize` once; after `start` and `stop`, `complete` received exactly `{new_number: 20}` |
| InitializeArguments.Assigned | lib/oni/initialize_arguments.rb:25-29 | the instance variables set are exactly the option keys that name a reader |
| InitializeArguments.AssignedOnlyReaders | lib/oni/initialize_arguments.rb:25-29 | only keys that name a reader and appear in the options become instance variables |
| InitializeArguments.AssignedReader | lib/oni/initialize_arguments.rb:25-29 | every option key that names a reader is set to exactly its value (the last one if named twice) |
| InitializeArguments.UnmentionedUnset | lib/oni/initialize_arguments.rb:25-29 | attributes the options do not mention stay `nil`; in particular an empty hash sets nothing |
| InitializeArguments.NonReaderIgnored | lib/oni/initialize_arguments.rb:27 | a key that names no reader is ignored |
| InitializeArguments.Instance.constructor | lib/oni/initialize_arguments.rb:25-29 | the loop over the options leaves exactly the instance variables `Assigned` describes |
| InitializeArguments.TwoAttributesScenario | spec/oni/initialize_arguments_spec.rb:12-17 | `new(a: 10, b: 20)` with readers `a`, `b` reads back 10 and 20 |
| WrappedError.WrappedError.constructor | lib/oni/wrapped_error.rb:35-41 | keeps the message and sets exactly the reader-named options |
| WrappedError.OnlyReadersStored | lib/oni/wrapped_error.rb:38-40 | only `original_error` and `parameters` are stored; any other key is ignored |
| WrappedError.WrappedError.From | lib/oni/wrapped_error.rb:23-29 | `from(e, p)` has `e`'s message, `original_error == e` and `parameters == p` (default `nil`) |
| WrappedError.MessageOnlyScenario | spec/oni/wrapped_error_spec.rb:10-12 | `new('foo')` has message `foo`, and both readers are `nil` |
| WrappedError.FromScenario | spec/oni/wrapped_error_spec.rb:27-43 | `from(StandardError.new('Hello world'), {foo: :bar})` copies the message, keeps the error and stores the parameters |

## Left out

- Real threads are not modelled: `Thread.new`, `join`, `throw :terminate`, preemption and thread safety. A thread's loop is a sequence of `Step`s. A blocking `Queue#pop` on an empty queue is a step that does nothing.
- ThreadPool.ThreadPool.Stop: when `join` would block forever (more looping threads than sentinels, for example after `start` ran twice), the model returns `joined == false`, where the source's `join` blocks forever or aborts with a deadlock error ("No live threads left").
- An exception that escapes a closure and kills its thread is not modelled. In `Daemon.Daemon.Process` a failing `run_worker` returns the exception and nothing is completed; the thread goes on.
- Daemon.Daemon.Stop: in the source a started thread runs each closure as soon as it pops it, which can be during `start` (while `receive` is still yielding) or while `stop` waits. The model defers every pop to `stop` and processes the closures there, in pop order. This is one of the interleavings the source allows. A `receive` that never returns (a real job source) is not captured.
- Daemon.RunWorker: the pipeline calls the intended one-parameter `Worker.Process`, not the zero-parameter `process` that `lib/oni/worker.rb` declares (see Findings). With the code as written, a worker that keeps the base `process` makes `run_worker` raise ArgumentError ("wrong number of arguments (given 1, expected 0)") instead of NotImplementedError; workers that redefine `process(message)` behave the same either way.
- Daemon.Daemon.Process: it reads `:mapper` and `:worker` before mapping the input. The source reads `:worker` only after `map_input` returned. The order matters only for callable options, whose side effects are outside the model.
- Daemon.Daemon.constructor: requires the `threads` option to resolve to a non-callable integer. The source passes any value to `ThreadPool.new`, and a non-integer fails later in `times`.
- Daemon.CreateMapper: `lib/oni/mapper.rb` defines no constructor, so as written `option(:mapper).new(mapper_arguments)` raises ArgumentError "wrong number of arguments (given 1, expected 0)" for `Oni::Mapper` and for every subclass without a one-parameter constructor, the test suite's mapper included (`Daemon.CreateMapperAsWritten`; see Findings). The rest of the model uses the intended `create_mapper`, which builds every mapper the way `InitializeArguments` builds objects, as the daemon's tests expect. A class-valued option naming a class outside the catalog fails as if `new` were undefined.
- Configurable.Registry.Option: what a stored callable returns is code outside the model, so the method says nothing about it. `FactoryReadsMayDiffer` states the no-memoisation property instead.
- `respond_to?(key)` is modelled as membership in a declared set of reader names. In Ruby any public method name counts (e.g. `to_s`). For WrappedError the set is just `original_error` and `parameters`.
- A WrappedError message other than a string or `nil` (Ruby calls `to_s` on it) is not modelled.
- Timings, timeouts, the error callback with `extra_error_data`, the `before_start` and `after_start` hooks, the zero-thread mode and signal trapping are not modelled. `lib/oni/daemon.rb` has none of them.
- `lib/oni/daemons/sqs.rb` is not part of this model: it polls Amazon SQS over the network. Its local logic is a `require_option!` check, covered by Configurable.
- `examples/github_status.rb` is not part of this model: it does HTTP, JSON parsing, `sleep` and signals.

## Findings

| source | as written | input that shows it | evidently intended | confidence | as-written member | corrected member |
|---|---|---|---|---|---|---|
| lib/oni/worker.rb:14 | `def process` declares no parameter, but `run_worker` (lib/oni/daemon.rb:83) and the worker tests call `process(input)` | `Oni::Worker.new.process(10)` raises ArgumentError; so does `run_worker` with a worker that keeps the base `process`, once its mapper has a one-parameter constructor (a stock mapper already raises at `create_mapper`, next row) | `process(input)` raising NotImplementedError for any input | not executed; high (Ruby checks arity before running a method body) | Worker.ProcessAsWritten, Worker.BaseProcessWithInputIsArgumentError | Worker.Process, Worker.BaseProcessFails |
| lib/oni/daemon.rb:112 | `option(:mapper).new(mapper_arguments)` passes one argument, but `Oni::Mapper` (lib/oni/mapper.rb) declares no constructor, so the inherited `initialize` takes none | a daemon with `set :mapper, Oni::Mapper`, or with the test suite's mapper (spec/oni/daemon_spec.rb:5-15): `create_mapper` raises ArgumentError and `run_worker` stops there | mappers built from the `mapper_arguments` hash, setting the attributes their readers name (as `InitializeArguments` does), so `create_mapper` with `{}` gives a mapper whose attributes are `nil` | not executed; high (Ruby checks arity before running `initialize`) | Daemon.CreateMapperAsWritten, Daemon.StockMapperRejectsArguments | Daemon.CreateMapper, Daemon.DefaultMapperHasNoAttributes |
