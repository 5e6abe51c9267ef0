/**
 * The Ruby values the library passes around, reduced to what its logic
 * inspects: truthiness (only `nil` and `false` are falsy), callables
 * (anything responding to `#call`), option names given as a Symbol or a
 * String, and the exceptions it raises.
 */
module Values {

  /** The exceptions the modelled code raises or wraps. */
  datatype Error =
    | ArgumentError(message: string)
    | NotImplementedError(message: string)
    | LocalJumpError(message: string)
    | NoMethodError(message: string)
    | StandardError(message: string)

  /** A non-callable Ruby object other than `nil` and `false`. */
  datatype Datum =
    | True
    | Int(i: int)
    | Text(s: string)
    | Symbol(name: string)
    | Klass(name: string)           // a class object, e.g. the value of `set :worker, SomeWorker`
    | Hash(pairs: seq<(Value, Value)>)
    | Raised(error: Error)          // an exception object

  /**
   * Any Ruby value. `Factory` is an object responding to `#call` (a proc);
   * what its call returns is code outside this model, identified by `tag`.
   */
  datatype Value =
    | Nil
    | False
    | Plain(d: Datum)
    | Factory(tag: nat)

  /** Ruby truthiness: everything except `nil` and `false`, including `0`. */
  predicate Truthy(v: Value) {
    !(v.Nil? || v.False?)
  }

  /** An option or attribute name as a caller writes it: `:threads` or `"threads"`. */
  datatype Name = Sym(s: string) | Str(s: string)

  /** `name.to_sym` (and `name.to_s`): both spellings give the same key. */
  function Key(name: Name): (r: string)
    ensures r == name.s
  {
    name.s
  }

  /** `:a.to_sym` and `"a".to_sym` are the same key; names with different text are different keys. */
  lemma KeyIgnoresSpelling(s: string, t: string)
    ensures Key(Sym(s)) == Key(Str(s))
    ensures s != t ==> Key(Sym(s)) != Key(Str(t)) && Key(Sym(s)) != Key(Sym(t))
  {
  }

  /** `n.to_s`: the decimal digits of `n`, most significant first. */
  function Decimal(n: nat): (r: string)
    ensures |r| >= 1 && forall i :: 0 <= i < |r| ==> '0' <= r[i] <= '9'
    ensures n < 10 ==> r == [(48 + n) as char]
  {
    if n < 10 then [(48 + n) as char] else Decimal(n / 10) + [(48 + n % 10) as char]
  }

  /** The ArgumentError Ruby raises when a method declaring `expected` parameters is given `given` arguments. */
  function WrongArity(given: nat, expected: nat): Error {
    ArgumentError("wrong number of arguments (given " + Decimal(given) + ", expected " + Decimal(expected) + ")")
  }

  /** A value or the exception that was raised instead. */
  datatype Result<+T> = Success(value: T) | Failure(error: Error)

  /** Success without a value, or the exception that was raised. */
  datatype Outcome = Pass | Fail(error: Error)

  /** A method a subclass may redefine: either the base class's or the subclass's own. */
  datatype Override<+F> = Inherited | Overridden(f: F)

  /** `hash[key]`: the value of the first pair with that key, `nil` when there is none. */
  function HashGet(pairs: seq<(Value, Value)>, key: Value): Value
    decreases |pairs|
  {
    if pairs == [] then Nil
    else if pairs[0].0 == key then pairs[0].1
    else HashGet(pairs[1..], key)
  }
}
