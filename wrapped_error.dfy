/**
 * `Oni::WrappedError`: an error carrying the error it wraps and arbitrary
 * parameters (for example the input of a worker). Its constructor sets the
 * options `original_error` and `parameters`, the two readers it has, and
 * ignores every other key.
 */
module WrappedError {
  import opened Values
  import InitializeArguments

  /** The readers an option key must name to be stored. */
  const Readers: set<string> := {"original_error", "parameters"}

  /** The `message` argument: omitted (`nil`) or a string. */
  datatype MessageArg = NoMessage | Msg(text: string)

  class WrappedError {
    const message: MessageArg
    var ivars: map<string, Value>

    /** `initialize(message = nil, options = {})`. */
    constructor (message: MessageArg := NoMessage, options: seq<(Name, Value)> := [])
      ensures this.message == message
      ensures ivars == InitializeArguments.Assigned(Readers, options)
    {
      this.message := message;
      ivars := map[];
      new;
      for i := 0 to |options|
        invariant ivars == InitializeArguments.Assigned(Readers, options[..i])
      {
        assert options[..i + 1][..i] == options[..i];
        var (key, value) := options[i];
        if Key(key) in Readers {
          ivars := ivars[Key(key) := value];
        }
      }
      assert options[..|options|] == options;
    }

    /** `message`: the given text, or the class name when none was given (as `Exception#message` does). */
    function Message(): string
      reads this
    {
      match message
      case NoMessage => "Oni::WrappedError"
      case Msg(text) => text
    }

    function OriginalError(): Value
      reads this
    {
      InitializeArguments.Attribute(ivars, "original_error")
    }

    function Parameters(): Value
      reads this
    {
      InitializeArguments.Attribute(ivars, "parameters")
    }

    /** `WrappedError.from(error, parameters = nil)`. */
    static method From(error: Error, parameters: Value := Nil) returns (w: WrappedError)
      ensures fresh(w)
      ensures w.Message() == error.message
      ensures w.OriginalError() == Plain(Raised(error))
      ensures w.Parameters() == parameters
    {
      var options := [(Sym("original_error"), Plain(Raised(error))), (Sym("parameters"), parameters)];
      w := new WrappedError(Msg(error.message), options);
      InitializeArguments.AssignedReader(Readers, options, 0);
      InitializeArguments.AssignedReader(Readers, options, 1);
    }
  }

  /** Only `original_error` and `parameters` are stored; any other key is ignored. */
  lemma OnlyReadersStored(options: seq<(Name, Value)>, k: string)
    requires k != "original_error" && k != "parameters"
    ensures k !in InitializeArguments.Assigned(Readers, options)
  {
    InitializeArguments.NonReaderIgnored(Readers, options, k);
  }

  /** `WrappedError.new('foo')`: the message is set, and both readers are `nil`. */
  method MessageOnlyScenario() returns (message: string, original: Value, parameters: Value)
    ensures message == "foo" && original == Nil && parameters == Nil
  {
    var w := new WrappedError(Msg("foo"));
    message := w.Message();
    original := w.OriginalError();
    parameters := w.Parameters();
  }

  /** The test suite's `from(StandardError.new('Hello world'), {foo: :bar})`. */
  method FromScenario() returns (message: string, original: Value, parameters: Value)
    ensures message == "Hello world"
    ensures original == Plain(Raised(StandardError("Hello world")))
    ensures parameters == Plain(Hash([(Plain(Symbol("foo")), Plain(Symbol("bar")))]))
  {
    var cause := StandardError("Hello world");
    var w := WrappedError.From(cause, Plain(Hash([(Plain(Symbol("foo")), Plain(Symbol("bar")))])));
    message := w.Message();
    original := w.OriginalError();
    parameters := w.Parameters();
  }
}
