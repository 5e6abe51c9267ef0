/**
 * `Oni::Mapper`: turns a daemon message into worker input and a worker
 * result into daemon output. The base class maps both ways by identity; a
 * subclass may redefine either method (and may raise from it).
 */
module Mapper {
  import opened Values
  import Configurable

  /** A mapper object's instance variables, by name. */
  type Attributes = map<string, Value>

  /** A mapping method: it sees the mapper's attributes and its argument. */
  type Mapping = (Attributes, Value) -> Result<Value>

  /**
   * A mapper class: its name (for its options table), its readers, whether
   * it defines a constructor taking an options hash (as one including
   * `InitializeArguments` does), and its two mapping methods.
   */
  datatype MapperClass = MapperClass(
    name: Configurable.ClassId,
    readers: set<string>,
    optionsConstructor: bool,
    mapInput: Override<Mapping>,
    mapOutput: Override<Mapping>)

  /** A mapper object: its class and the attributes its constructor set. */
  datatype MapperInstance = MapperInstance(cls: MapperClass, attributes: Attributes)

  /** `Oni::Mapper` itself: no readers, no constructor of its own, identity mappings. */
  const Base := MapperClass("Oni::Mapper", {}, false, Inherited, Inherited)

  /** `map_input(input)` on mapper `m`. */
  function MapInput(m: MapperInstance, input: Value): (r: Result<Value>)
    ensures m.cls.mapInput.Inherited? ==> r == Success(input)
  {
    match m.cls.mapInput
    case Inherited => Success(input)
    case Overridden(f) => f(m.attributes, input)
  }

  /** `map_output(output)` on mapper `m`. */
  function MapOutput(m: MapperInstance, output: Value): (r: Result<Value>)
    ensures m.cls.mapOutput.Inherited? ==> r == Success(output)
  {
    match m.cls.mapOutput
    case Inherited => Success(output)
    case Overridden(f) => f(m.attributes, output)
  }

  /** With both methods inherited, mapping in and then out gives back the message. */
  lemma IdentityRoundTrip(m: MapperInstance, x: Value)
    requires m.cls.mapInput.Inherited? && m.cls.mapOutput.Inherited?
    ensures MapInput(m, x).Success?
    ensures MapOutput(m, MapInput(m, x).value) == Success(x)
  {
  }

  /** `include Configurable`: an option set on a mapper class is read by `option` on its instances. */
  lemma OptionOnInstance(tables: map<Configurable.ClassId, Configurable.Table>, m: MapperClass, s: string, v: Value, produced: Value)
    requires !v.Factory?
    ensures Configurable.Read(Configurable.SetIn(tables, m.name, Sym(s), v), m.name, Sym(s), Nil, produced) == v
  {
    Configurable.OptionReturnsSetValue(tables, m.name, s, v, produced);
  }
}
