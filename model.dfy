/**
 * The Model store of src/Model.js: a key/value map whose `set`, `remove` and
 * `fill` produce diff records and fire `change` events carrying them.
 */
module Models {
  import opened Js

  datatype Kind = Add | Change | Remove

  /** A diff record `{type, name, oldValue, newValue}`. */
  datatype Record = Record(kind: Kind, name: string, oldValue: Value, newValue: Value)

  type Store = map<string, Value>

  /** An object's own properties in enumeration order. */
  type Entries = seq<(string, Value)>

  /** `store[name]`: the stored value, `undefined` when the key is absent. */
  function Lookup(store: Store, name: string): Value
  {
    if name in store then store[name] else Undefined
  }

  /**
   * The record `setProperty` returns for writing `value` under `name`: none
   * exactly when the old value is identical (`===`) to the new one; `add`
   * when the key was absent, `change` when it was present.
   */
  function RecordFor(store: Store, name: string, value: Value): (r: Option<Record>)
    ensures r.None? <==> Lookup(store, name) == value
    ensures r.Some? ==> r.value.name == name && r.value.newValue == value
                        && r.value.oldValue == Lookup(store, name)
                        && (r.value.kind == Add <==> name !in store)
                        && r.value.kind != Remove
  {
    var oldValue := Lookup(store, name);
    if oldValue == value then None
    else Some(Record(if name in store then Change else Add, name, oldValue, value))
  }

  /** A record as a list of zero or one entries. */
  function Listed(r: Option<Record>): seq<Record>
  {
    if r.Some? then [r.value] else []
  }

  /** The keys of some entries. */
  function KeysOf(data: Entries): set<string>
  {
    set i | 0 <= i < |data| :: data[i].0
  }

  predicate DistinctKeys(data: Entries)
  {
    forall i, j :: 0 <= i < j < |data| ==> data[i].0 != data[j].0
  }

  /** The store after writing every entry in order. */
  function Apply(store: Store, data: Entries): Store
  {
    if data == [] then store
    else
      var last := data[|data| - 1];
      Apply(store, data[..|data| - 1])[last.0 := last.1]
  }

  /** The records `fill` collects: each entry's record against the store as the earlier entries left it. */
  function FillRecords(store: Store, data: Entries): seq<Record>
  {
    if data == [] then []
    else
      var last := data[|data| - 1];
      FillRecords(store, data[..|data| - 1]) + Listed(RecordFor(Apply(store, data[..|data| - 1]), last.0, last.1))
  }

  /** Each entry's record against the store as it was before the fill. */
  function Diff(store: Store, data: Entries): seq<Record>
  {
    if data == [] then []
    else
      var last := data[|data| - 1];
      Diff(store, data[..|data| - 1]) + Listed(RecordFor(store, last.0, last.1))
  }

  /** Writing entries leaves every other key as it was, and adds their keys. */
  lemma {:induction false} ApplyElsewhere(store: Store, data: Entries, k: string)
    ensures k in Apply(store, data) <==> k in store || k in KeysOf(data)
    ensures k !in KeysOf(data) ==> Lookup(Apply(store, data), k) == Lookup(store, k)
  {
    if data != [] {
      var init := data[..|data| - 1];
      ApplyElsewhere(store, init, k);
      assert KeysOf(data) == KeysOf(init) + {data[|data| - 1].0} by {
        forall x | x in KeysOf(data) ensures x in KeysOf(init) + {data[|data| - 1].0} {
          var i :| 0 <= i < |data| && data[i].0 == x;
          if i < |data| - 1 {
            assert init[i] == data[i];
          }
        }
        forall x | x in KeysOf(init) ensures x in KeysOf(data) {
          var i :| 0 <= i < |init| && init[i].0 == x;
          assert data[i] == init[i];
        }
      }
    }
  }

  /** After writing entries with distinct keys, each key holds its entry's value. */
  lemma {:induction false} ApplyHolds(store: Store, data: Entries, i: nat)
    requires DistinctKeys(data) && i < |data|
    ensures Lookup(Apply(store, data), data[i].0) == data[i].1
  {
    var init := data[..|data| - 1];
    if i < |data| - 1 {
      assert init[i] == data[i];
      ApplyHolds(store, init, i);
    }
  }

  /**
   * With distinct keys (as an object's own keys are), the records `fill`
   * collects are the differences from the store as it was before the fill.
   */
  lemma {:induction false} FillRecordsAreDiff(store: Store, data: Entries)
    requires DistinctKeys(data)
    ensures FillRecords(store, data) == Diff(store, data)
  {
    if data != [] {
      var init := data[..|data| - 1];
      var last := data[|data| - 1];
      FillRecordsAreDiff(store, init);
      assert forall i :: 0 <= i < |init| ==> init[i] == data[i];
      assert last.0 !in KeysOf(init);
      ApplyElsewhere(store, init, last.0);
      assert last.0 in Apply(store, init) <==> last.0 in store;
    }
  }

  /** No entry whose value the store already holds contributes a record. */
  lemma {:induction false} DiffEmpty(store: Store, data: Entries)
    requires forall i :: 0 <= i < |data| ==> Lookup(store, data[i].0) == data[i].1
    ensures Diff(store, data) == []
  {
    if data != [] {
      var init := data[..|data| - 1];
      assert forall i :: 0 <= i < |init| ==> init[i] == data[i];
      DiffEmpty(store, init);
    }
  }

  /** Filling the same data a second time finds nothing to change. */
  lemma RefillFindsNothing(store: Store, data: Entries)
    requires DistinctKeys(data)
    ensures FillRecords(Apply(store, data), data) == []
  {
    forall i | 0 <= i < |data|
      ensures Lookup(Apply(store, data), data[i].0) == data[i].1
    {
      ApplyHolds(store, data, i);
    }
    FillRecordsAreDiff(Apply(store, data), data);
    DiffEmpty(Apply(store, data), data);
  }

  /** Writing the value a key already holds changes neither the store nor produces a record. */
  lemma SetSameValue(store: Store, name: string)
    requires name in store
    ensures store[name := store[name]] == store
    ensures RecordFor(store, name, store[name]) == None
  {
  }

  /** Writing `undefined` under an absent key stores the key, yet produces no record. */
  lemma SetUndefinedOnAbsentKey(store: Store, name: string)
    requires name !in store
    ensures name in store[name := Undefined]
    ensures RecordFor(store, name, Undefined) == None
  {
  }

  /** `fill({a: 1, b: 2})` on an empty store yields two `add` records in key order. */
  lemma FillTwoIntoEmpty(a: string, b: string, x: Value, y: Value)
    requires a != b && x != Undefined && y != Undefined
    ensures FillRecords(map[], [(a, x), (b, y)])
            == [Record(Add, a, Undefined, x), Record(Add, b, Undefined, y)]
  {
    var data := [(a, x), (b, y)];
    FillRecordsAreDiff(map[], data);
    var one := [(a, x)];
    assert data[..1] == one && one[..0] == [];
    assert Diff(map[], one) == [Record(Add, a, Undefined, x)];
  }

  /** A Model: its store and the `changes` list of every `change` event it fired. */
  class Model {
    var store: Store
    var changes: seq<seq<Record>>

    /** `initialize`: an empty store (the option copy is the base class's, see Abstracts). */
    constructor ()
      ensures store == map[] && changes == []
    {
      store := map[];
      changes := [];
    }

    /** `fetch(query)`: resolves with the query unchanged. */
    method Fetch<Q>(query: Q) returns (r: Q)
      ensures r == query
    {
      r := query;
    }

    /** `get(name)`: the stored value, `undefined` when absent. */
    function Get(name: string): (v: Value)
      reads this
      ensures name in store ==> v == store[name]
      ensures name !in store ==> v == Undefined
    {
      Lookup(store, name)
    }

    /** `setProperty`: always writes the value; returns a record when the value differs. */
    method SetProperty(name: string, value: Value) returns (r: Option<Record>)
      modifies this
      ensures store == old(store)[name := value] && changes == old(changes)
      ensures r == RecordFor(old(store), name, value)
    {
      var kind := if name in store then Change else Add;
      var oldValue := Lookup(store, name);
      store := store[name := value];
      if oldValue != value {
        r := Some(Record(kind, name, oldValue, value));
      } else {
        r := None;
      }
    }

    /** `set(name, value, {silent})`: one `change` event with the one record, unless silent or unchanged. */
    method Set(name: string, value: Value, silent: bool) returns (v: Value)
      modifies this
      ensures v == value
      ensures store == old(store)[name := value]
      ensures var r := RecordFor(old(store), name, value);
              changes == old(changes) + (if r.Some? && !silent then [[r.value]] else [])
    {
      var record := SetProperty(name, value);
      if record.Some? && !silent {
        changes := changes + [[record.value]];
      }
      v := value;
    }

    /**
     * `remove(name, {silent})`: nothing for an absent key; otherwise deletes
     * that key only, fires a `remove` record unless silent, and returns the
     * old value.
     */
    method Remove(name: string, silent: bool) returns (v: Value)
      modifies this
      ensures name !in old(store) ==> v == Undefined && store == old(store) && changes == old(changes)
      ensures name in old(store) ==>
                && v == old(store)[name]
                && store == old(store) - {name}
                && changes == old(changes) + (if silent then [] else [[Record(Kind.Remove, name, v, Undefined)]])
    {
      if name !in store {
        return Undefined;
      }
      v := store[name];
      store := store - {name};
      if !silent {
        changes := changes + [[Record(Kind.Remove, name, v, Undefined)]];
      }
    }

    /**
     * `fill(data, {silent})`: writes every entry in order and fires at most
     * one `change` event holding all their records; returns `data`.
     */
    method Fill(data: Entries, silent: bool) returns (d: Entries)
      modifies this
      ensures d == data
      ensures store == Apply(old(store), data)
      ensures var records := FillRecords(old(store), data);
              changes == old(changes) + (if records != [] && !silent then [records] else [])
    {
      var records: seq<Record> := [];
      var i := 0;
      while i < |data|
        invariant 0 <= i <= |data|
        invariant store == Apply(old(store), data[..i])
        invariant records == FillRecords(old(store), data[..i])
        invariant changes == old(changes)
      {
        assert data[..i + 1][..i] == data[..i];
        var record := SetProperty(data[i].0, data[i].1);
        if record.Some? {
          records := records + [record.value];
        }
        i := i + 1;
      }
      assert data[..i] == data;
      if records != [] && !silent {
        changes := changes + [records];
      }
      d := data;
    }
  }
}
