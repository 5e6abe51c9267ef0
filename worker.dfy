/**
 * `Oni::Worker`: runs one unit of work on mapped input. The base class's
 * `process` raises; a subclass supplies its own.
 */
module Worker {
  import opened Values
  import Configurable

  /** A worker class: its name (for its options table), `process`, and `extra_error_data`. */
  datatype WorkerClass = WorkerClass(
    name: Configurable.ClassId,
    process: Override<Value -> Result<Value>>,
    extraErrorData: Override<Value>)

  /** `Oni::Worker` itself. */
  const Base := WorkerClass("Oni::Worker", Inherited, Inherited)

  /** The error the base `process` raises. */
  const NotImplemented := NotImplementedError("You must implement #process yourself")

  /** `process(input)` as intended: the base class raises NotImplementedError whatever the input. */
  function Process(w: WorkerClass, input: Value): (r: Result<Value>)
    ensures w.process.Inherited? ==> r == Failure(NotImplemented)
  {
    match w.process
    case Inherited => Failure(NotImplemented)
    case Overridden(f) => f(input)
  }

  /**
   * `process` as the base class declares it: with no parameter. Called with
   * no argument it raises NotImplementedError, but called with the input, as
   * the daemon does, it fails on the arity check first. An overriding
   * `process(message)` declares one parameter.
   */
  function ProcessAsWritten(w: WorkerClass, args: seq<Value>): (r: Result<Value>)
    ensures w.process.Inherited? && args == [] ==> r == Failure(NotImplemented)
    ensures w.process.Inherited? && args != [] ==> r == Failure(WrongArity(|args|, 0))
    ensures w.process.Overridden? && |args| == 1 ==> r == w.process.f(args[0])
    ensures w.process.Overridden? && |args| != 1 ==> r == Failure(WrongArity(|args|, 1))
  {
    match w.process
    case Inherited => if args == [] then Failure(NotImplemented) else Failure(WrongArity(|args|, 0))
    case Overridden(f) => if |args| == 1 then f(args[0]) else Failure(WrongArity(|args|, 1))
  }

  /**
   * Called with one input, the declared `process` agrees with the intended
   * one for every subclass that overrides it, and differs for the base
   * class: that raises ArgumentError, not the documented NotImplementedError.
   */
  lemma BaseProcessWithInputIsArgumentError(w: WorkerClass, input: Value)
    ensures w.process.Overridden? ==> ProcessAsWritten(w, [input]) == Process(w, input)
    ensures w.process.Inherited? ==> ProcessAsWritten(w, [input]) == Failure(WrongArity(1, 0))
    ensures w.process.Inherited? ==> ProcessAsWritten(w, [input]) != Process(w, input)
    ensures ProcessAsWritten(Base, [input])
         == Failure(ArgumentError("wrong number of arguments (given 1, expected 0)"))
  {
    assert Decimal(1) == ['1'] && Decimal(0) == ['0'];
    assert WrongArity(1, 0).message == "wrong number of arguments (given " + ['1'] + ", expected " + ['0'] + ")";
  }

  /** `extra_error_data`: `nil` unless a subclass says otherwise. */
  function ExtraErrorData(w: WorkerClass): (r: Value)
    ensures w.extraErrorData.Inherited? ==> r == Nil
  {
    match w.extraErrorData
    case Inherited => Nil
    case Overridden(v) => v
  }

  /** The base worker fails on every input. */
  lemma BaseProcessFails(input: Value)
    ensures Process(Base, input) == Failure(NotImplemented)
    ensures ExtraErrorData(Base) == Nil
  {
  }

  /** `message * 2` as the test suite's worker computes it, for integers and strings. */
  function Double(message: Value): (r: Result<Value>)
    ensures message.Plain? && message.d.Int? ==> r == Success(Plain(Int(2 * message.d.i)))
    ensures !(message.Plain? && (message.d.Int? || message.d.Text?)) ==> r.Failure?
  {
    match message
    case Plain(Int(n)) => Success(Plain(Int(n + n)))
    case Plain(Text(s)) => Success(Plain(Text(s + s)))
    case _ => Failure(NoMethodError("undefined method `*'"))
  }

  /** The test suite's subclass that overrides `process` with doubling. */
  const Doubling := WorkerClass("DoublingWorker", Overridden(Double), Inherited)

  /** Overriding `process` replaces the failing default: the doubling worker maps 10 to 20. */
  lemma DoublingReplacesDefault(n: int)
    ensures Process(Doubling, Plain(Int(n))) == Success(Plain(Int(2 * n)))
    ensures Process(Doubling, Plain(Int(10))) == Success(Plain(Int(20)))
    ensures Process(Doubling, Plain(Int(n))) != Process(Base, Plain(Int(n)))
  {
  }

  /** `include Configurable`: an option set on a worker class is read by `option` on its instances. */
  lemma OptionOnInstance(tables: map<Configurable.ClassId, Configurable.Table>, w: WorkerClass, s: string, v: Value, produced: Value)
    requires !v.Factory?
    ensures Configurable.Read(Configurable.SetIn(tables, w.name, Sym(s), v), w.name, Sym(s), Nil, produced) == v
  {
    Configurable.OptionReturnsSetValue(tables, w.name, s, v, produced);
  }
}
