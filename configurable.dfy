/**
 * The `Configurable` mixin: a table of options per including class, written
 * with `set`/`set_multiple` at class level and read with `option` on
 * instances. Each class has its own table; nothing is looked up in a parent
 * class's table. A stored callable is invoked afresh on every read.
 */
module Configurable {
  import opened Values

  /** The name of a class that includes `Configurable`. */
  type ClassId = string

  /** One class's `@options` hash, keyed by `to_sym` of the option name. */
  type Table = map<string, Value>

  /** `options[key]`: `nil` for a key that was never set. */
  function Stored(t: Table, key: string): Value {
    if key in t then t[key] else Nil
  }

  /** The table of class `c`, as `options` would return it. */
  function TableOf(tables: map<ClassId, Table>, c: ClassId): Table {
    if c in tables then tables[c] else map[]
  }

  /** `@options ||= {}`: the first access to a class's table creates it empty. */
  function Touch(tables: map<ClassId, Table>, c: ClassId): (r: map<ClassId, Table>)
    ensures c in r && r[c] == TableOf(tables, c)
    ensures forall d :: d in tables ==> d in r && r[d] == tables[d]
    ensures forall d :: d in r && d != c ==> d in tables
  {
    if c in tables then tables else tables[c := map[]]
  }

  /** `options[name.to_sym] = value` on one table. */
  function Put(t: Table, name: Name, v: Value): (r: Table)
    ensures Stored(r, Key(name)) == v
    ensures forall k :: k != Key(name) ==> Stored(r, k) == Stored(t, k)
    ensures r.Keys == t.Keys + {Key(name)}
  {
    t[Key(name) := v]
  }

  /** `set(name, v)` on class `c`: only `c`'s table changes. */
  function SetIn(tables: map<ClassId, Table>, c: ClassId, name: Name, v: Value): (r: map<ClassId, Table>)
    ensures r.Keys == tables.Keys + {c}
    ensures forall d :: d in tables && d != c ==> r[d] == tables[d]
  {
    tables[c := Put(TableOf(tables, c), name, v)]
  }

  /** The table after `set` has been called on each pair in turn. */
  function SetAll(t: Table, pairs: seq<(Name, Value)>): (r: Table)
    ensures t.Keys <= r.Keys
    ensures pairs != [] ==> Key(pairs[|pairs| - 1].0) in r && r[Key(pairs[|pairs| - 1].0)] == pairs[|pairs| - 1].1
    decreases |pairs|
  {
    if pairs == [] then t
    else Put(SetAll(t, pairs[..|pairs| - 1]), pairs[|pairs| - 1].0, pairs[|pairs| - 1].1)
  }

  /** `value = default if default and !value`: a truthy default replaces a stored `nil`/`false` (or a missing entry). */
  function Resolve(stored: Value, default: Value): (r: Value)
    ensures r == stored || r == default
    ensures Truthy(stored) ==> r == stored
    ensures Truthy(default) ==> Truthy(r)
    ensures !Truthy(default) ==> r == stored
  {
    if Truthy(default) && !Truthy(stored) then default else stored
  }

  /** The value `option(name, default)` settles on before it is called (if callable). */
  function Resolved(tables: map<ClassId, Table>, c: ClassId, name: Name, default: Value): Value {
    Resolve(Stored(TableOf(tables, c), Key(name)), default)
  }

  /**
   * What `option(name, default)` returns, where `produced` is what the
   * callable returns for this read, if the resolved value is callable.
   */
  function Read(tables: map<ClassId, Table>, c: ClassId, name: Name, default: Value, produced: Value): (r: Value)
    ensures !Resolved(tables, c, name, default).Factory? ==> r == Resolved(tables, c, name, default)
    ensures Resolved(tables, c, name, default).Factory? ==> r == produced
    ensures Truthy(default) && !default.Factory? && !Stored(TableOf(tables, c), Key(name)).Factory? ==> Truthy(r)
  {
    var v := Resolved(tables, c, name, default);
    if v.Factory? then produced else v
  }

  /** The error `require_option!` raises: an ArgumentError naming the option that is not set. */
  function MissingOption(name: Name): Error {
    ArgumentError("The option " + Key(name) + " is required but isn't set")
  }

  /** `require_option!(name)` given the value `option(name)` returned. */
  function Require(read: Value, name: Name): (r: Outcome)
    ensures r.Pass? <==> Truthy(read)
    ensures r.Fail? ==> r.error == MissingOption(name)
  {
    if Truthy(read) then Pass else Fail(MissingOption(name))
  }

  // ---------------------------------------------------------------------------
  // Properties of the table
  // ---------------------------------------------------------------------------

  /** After `set(k, v)` the class's table maps `k.to_sym` to `v`; other keys and other classes keep theirs. */
  lemma SetThenStored(tables: map<ClassId, Table>, c: ClassId, name: Name, v: Value, d: ClassId, k: string)
    ensures Stored(TableOf(SetIn(tables, c, name, v), d), k)
         == if d == c && k == Key(name) then v else Stored(TableOf(tables, d), k)
  {
  }

  /** A second `set` on the same key overwrites the first. */
  lemma SetOverwrites(tables: map<ClassId, Table>, c: ClassId, name: Name, v1: Value, v2: Value)
    ensures SetIn(SetIn(tables, c, name, v1), c, name, v2) == SetIn(tables, c, name, v2)
  {
    assert Put(Put(TableOf(tables, c), name, v1), name, v2) == Put(TableOf(tables, c), name, v2);
  }

  /** Keys that no pair of `set_multiple` names keep their old entry. */
  lemma {:induction false} SetAllUntouched(t: Table, pairs: seq<(Name, Value)>, k: string)
    requires forall i :: 0 <= i < |pairs| ==> Key(pairs[i].0) != k
    ensures (k in SetAll(t, pairs)) == (k in t)
    ensures Stored(SetAll(t, pairs), k) == Stored(t, k)
    decreases |pairs|
  {
    if pairs != [] {
      SetAllUntouched(t, pairs[..|pairs| - 1], k);
    }
  }

  /** A key named by `set_multiple` ends up holding the value of the LAST pair that names it. */
  lemma {:induction false} SetAllLastWins(t: Table, pairs: seq<(Name, Value)>, i: nat)
    requires i < |pairs|
    requires forall j :: i < j < |pairs| ==> Key(pairs[j].0) != Key(pairs[i].0)
    ensures Key(pairs[i].0) in SetAll(t, pairs)
    ensures Stored(SetAll(t, pairs), Key(pairs[i].0)) == pairs[i].1
    decreases |pairs|
  {
    var n := |pairs| - 1;
    if i < n {
      SetAllLastWins(t, pairs[..n], i);
    }
  }

  /** Reading the table of a class does not change what any class's table holds. */
  lemma TouchKeepsTables(tables: map<ClassId, Table>, c: ClassId, d: ClassId)
    ensures TableOf(Touch(tables, c), d) == TableOf(tables, d)
  {
  }

  // ---------------------------------------------------------------------------
  // Properties of `option` and `require_option!`
  // ---------------------------------------------------------------------------

  /** A non-callable value set under a name is what `option` returns, whether the name is a Symbol or a String. */
  lemma OptionReturnsSetValue(tables: map<ClassId, Table>, c: ClassId, s: string, v: Value, produced: Value)
    requires !v.Factory?
    ensures Read(SetIn(tables, c, Sym(s), v), c, Sym(s), Nil, produced) == v
    ensures Read(SetIn(tables, c, Str(s), v), c, Sym(s), Nil, produced) == v
    ensures Read(SetIn(tables, c, Sym(s), v), c, Str(s), Nil, produced) == v
  {
  }

  /** A truthy (non-callable) default is returned exactly when the stored value is absent, `nil` or `false`. */
  lemma DefaultFillsFalsy(tables: map<ClassId, Table>, c: ClassId, name: Name, default: Value, produced: Value)
    requires Truthy(default) && !default.Factory?
    requires !Stored(TableOf(tables, c), Key(name)).Factory?
    ensures Read(tables, c, name, default, produced) == default
        <==> !Truthy(Stored(TableOf(tables, c), Key(name))) || Stored(TableOf(tables, c), Key(name)) == default
  {
  }

  /** A truthy stored value, `0` included, is never replaced by a default. */
  lemma TruthyStoredKept(tables: map<ClassId, Table>, c: ClassId, name: Name, default: Value, produced: Value)
    requires Truthy(Stored(TableOf(tables, c), Key(name)))
    requires !Stored(TableOf(tables, c), Key(name)).Factory?
    ensures Read(tables, c, name, default, produced) == Stored(TableOf(tables, c), Key(name))
  {
  }

  /** A falsy default is ignored: `option(:x, false)` on an unset option is `nil`, not `false`. */
  lemma FalsyDefaultIgnored(tables: map<ClassId, Table>, c: ClassId, name: Name, default: Value, produced: Value)
    requires !Truthy(default)
    requires !Stored(TableOf(tables, c), Key(name)).Factory?
    ensures Read(tables, c, name, default, produced) == Stored(TableOf(tables, c), Key(name))
  {
  }

  /**
   * When the resolved value is callable, `option` returns what that call
   * produced: reads are not memoised, so two reads whose calls produce
   * different values differ.
   */
  lemma FactoryReadsMayDiffer(tables: map<ClassId, Table>, c: ClassId, name: Name, default: Value, p1: Value, p2: Value)
    requires Resolved(tables, c, name, default).Factory?
    ensures Read(tables, c, name, default, p1) == p1
    ensures p1 != p2 ==> Read(tables, c, name, default, p1) != Read(tables, c, name, default, p2)
  {
  }

  /** Each class has its own table: an option set on one class is not seen by another, a subclass included. */
  lemma TablesArePerClass(tables: map<ClassId, Table>, parent: ClassId, child: ClassId, name: Name, v: Value, default: Value, produced: Value)
    requires parent != child
    ensures Read(SetIn(tables, parent, name, v), child, name, default, produced) == Read(tables, child, name, default, produced)
  {
  }

  /** `require_option!` raises exactly when the option reads as `nil`/`false`. */
  lemma RequireRaisesIffFalsy(tables: map<ClassId, Table>, c: ClassId, name: Name, produced: Value)
    ensures Require(Read(tables, c, name, Nil, produced), name).Fail?
        <==> !Truthy(Read(tables, c, name, Nil, produced))
  {
  }

  // ---------------------------------------------------------------------------
  // The class-level state
  // ---------------------------------------------------------------------------

  /** Calls a stored callable. Its code is outside the model: callers learn nothing about the result. */
  method Call(f: Value) returns (r: Value)
    requires f.Factory?
  {
    r := Plain(Int(f.tag));
  }

  /** The `@options` hashes of every class that includes `Configurable`. */
  class Registry {
    var tables: map<ClassId, Table>

    constructor ()
      ensures tables == map[]
    {
      tables := map[];
    }

    /** `ClassMethods#options`: the class's table, created empty on first access. */
    method Options(c: ClassId) returns (t: Table)
      modifies this
      ensures tables == Touch(old(tables), c)
      ensures t == TableOf(old(tables), c)
      ensures c !in old(tables) ==> t == map[]
    {
      if c !in tables {
        tables := tables[c := map[]];
      }
      t := tables[c];
    }

    /** `ClassMethods#set`. */
    method Set(c: ClassId, name: Name, v: Value)
      modifies this
      ensures tables == SetIn(old(tables), c, name, v)
    {
      var t := Options(c);
      tables := tables[c := Put(t, name, v)];
    }

    /** `ClassMethods#set_multiple`: `set` on each pair in order (an empty hash touches nothing). */
    method SetMultiple(c: ClassId, pairs: seq<(Name, Value)>)
      modifies this
      ensures pairs == [] ==> tables == old(tables)
      ensures pairs != [] ==> tables == old(tables)[c := SetAll(TableOf(old(tables), c), pairs)]
    {
      for i := 0 to |pairs|
        invariant i == 0 ==> tables == old(tables)
        invariant i > 0 ==> tables == old(tables)[c := SetAll(TableOf(old(tables), c), pairs[..i])]
      {
        assert pairs[..i + 1][..i] == pairs[..i];
        Set(c, pairs[i].0, pairs[i].1);
      }
      assert pairs[..|pairs|] == pairs;
    }

    /** `option(name, default)`, read on an instance of class `c`. */
    method Option(c: ClassId, name: Name, default: Value := Nil) returns (r: Value)
      modifies this
      ensures tables == Touch(old(tables), c)
      ensures !Resolved(old(tables), c, name, default).Factory? ==> r == Resolved(old(tables), c, name, default)
    {
      var t := Options(c);
      var v := Resolve(Stored(t, Key(name)), default);
      if v.Factory? {
        r := Call(v);
      } else {
        r := v;
      }
    }

    /** `require_option!(name)` on an instance of class `c`. */
    method RequireOption(c: ClassId, name: Name) returns (outcome: Outcome)
      modifies this
      ensures tables == Touch(old(tables), c)
      ensures outcome.Fail? ==> outcome.error == MissingOption(name)
      ensures !Resolved(old(tables), c, name, Nil).Factory? ==>
                outcome == Require(Resolved(old(tables), c, name, Nil), name)
    {
      var v := Option(c, name);
      outcome := Require(v, name);
    }
  }
}
