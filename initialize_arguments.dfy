/**
 * `Oni::InitializeArguments`: a constructor taking an options hash and
 * setting, for each key the object responds to, the instance variable of
 * that name. Which names an object responds to is given as a set of
 * reader names; the hash is a list of pairs in insertion order.
 */
module InitializeArguments {
  import opened Values

  /** The instance variables set from `options`, key by key in hash order. */
  function Assigned(readers: set<string>, options: seq<(Name, Value)>): (r: map<string, Value>)
    ensures r.Keys == (set i | 0 <= i < |options| && Key(options[i].0) in readers :: Key(options[i].0))
    decreases |options|
  {
    if options == [] then map[]
    else
      var prev := Assigned(readers, options[..|options| - 1]);
      var (key, value) := options[|options| - 1];
      if Key(key) in readers then prev[Key(key) := value] else prev
  }

  /** A reader's value: the instance variable, `nil` when it was never set. */
  function Attribute(ivars: map<string, Value>, name: string): Value {
    if name in ivars then ivars[name] else Nil
  }

  /** Only keys that name a reader are set, and only keys the options mention. */
  lemma {:induction false} AssignedOnlyReaders(readers: set<string>, options: seq<(Name, Value)>, k: string)
    requires k in Assigned(readers, options)
    ensures k in readers
    ensures exists i :: 0 <= i < |options| && Key(options[i].0) == k
    decreases |options|
  {
    var n := |options| - 1;
    if k in Assigned(readers, options[..n]) {
      AssignedOnlyReaders(readers, options[..n], k);
      var i :| 0 <= i < n && Key(options[..n][i].0) == k;
      assert Key(options[i].0) == k;
    } else {
      assert Key(options[n].0) == k;
    }
  }

  /** A key naming a reader is set to exactly its value (the last one, if the hash names it twice). */
  lemma {:induction false} AssignedReader(readers: set<string>, options: seq<(Name, Value)>, i: nat)
    requires i < |options| && Key(options[i].0) in readers
    requires forall j :: i < j < |options| ==> Key(options[j].0) != Key(options[i].0)
    ensures Key(options[i].0) in Assigned(readers, options)
    ensures Attribute(Assigned(readers, options), Key(options[i].0)) == options[i].1
    decreases |options|
  {
    var n := |options| - 1;
    if i < n {
      AssignedReader(readers, options[..n], i);
    }
  }

  /** An attribute the options do not mention stays `nil`. */
  lemma {:induction false} UnmentionedUnset(readers: set<string>, options: seq<(Name, Value)>, k: string)
    requires forall i :: 0 <= i < |options| ==> Key(options[i].0) != k
    ensures k !in Assigned(readers, options)
    ensures Attribute(Assigned(readers, options), k) == Nil
    decreases |options|
  {
    if options != [] {
      UnmentionedUnset(readers, options[..|options| - 1], k);
    }
  }

  /** A key with no matching reader is ignored, whatever its value. */
  lemma {:induction false} NonReaderIgnored(readers: set<string>, options: seq<(Name, Value)>, k: string)
    requires k !in readers
    ensures k !in Assigned(readers, options)
    decreases |options|
  {
    if options != [] {
      NonReaderIgnored(readers, options[..|options| - 1], k);
    }
  }

  /** An object built with `new(options)` from a class including `InitializeArguments`. */
  class Instance {
    const readers: set<string>
    var ivars: map<string, Value>

    /** `initialize(options = {})`. */
    constructor (readers: set<string>, options: seq<(Name, Value)> := [])
      ensures this.readers == readers
      ensures ivars == Assigned(readers, options)
    {
      this.readers := readers;
      ivars := map[];
      new;
      for i := 0 to |options|
        invariant ivars == Assigned(readers, options[..i])
      {
        assert options[..i + 1][..i] == options[..i];
        var (key, value) := options[i];
        if Key(key) in readers {
          ivars := ivars[Key(key) := value];
        }
      }
      assert options[..|options|] == options;
    }

    /** The reader `name`. */
    function Get(name: string): Value
      reads this
    {
      Attribute(ivars, name)
    }
  }

  /** The test suite's class with readers `a` and `b`, built with `a: 10, b: 20`. */
  method TwoAttributesScenario() returns (a: Value, b: Value)
    ensures a == Plain(Int(10)) && b == Plain(Int(20))
  {
    var options := [(Sym("a"), Plain(Int(10))), (Sym("b"), Plain(Int(20)))];
    var instance := new Instance({"a", "b"}, options);
    a := instance.Get("a");
    b := instance.Get("b");
  }
}
