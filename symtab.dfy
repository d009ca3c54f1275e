/** A symbol table from names to values of any type, one flat scope. */
module SymTabs {
  import opened Wrappers

  /** `table[key]` of a Swift dictionary: the bound value, or none. */
  function MapLookup<T>(table: map<string, T>, key: string): (r: Option<T>)
    ensures r.Some? <==> key in table
    ensures r.Some? ==> r.value == table[key]
  {
    if key in table then Some(table[key]) else None
  }

  class SymTab<T> {
    var table: map<string, T>

    /** `init(_:)`: the table starts as the given bindings (empty by default). */
    constructor (initialValues: map<string, T>)
      ensures table == initialValues
    {
      table := initialValues;
    }

    /** `insert(_:for:)`: bind or rebind one key. */
    method Insert(value: T, key: string)
      modifies this
      ensures table == old(table)[key := value]
    {
      table := table[key := value];
    }

    /** `lookup(_:)`. */
    function Lookup(key: string): (r: Option<T>)
      reads this
      ensures r == MapLookup(table, key)
    {
      MapLookup(table, key)
    }
  }

  /** After binding `key`, looking it up gives the new value and every other key is as before. */
  lemma LookupAfterInsert<T>(table: map<string, T>, key: string, value: T, other: string)
    ensures MapLookup(table[key := value], key) == Some(value)
    ensures other != key ==> MapLookup(table[key := value], other) == MapLookup(table, other)
  {
  }

  /** Inserting never removes a key, and a second insert of the same key overwrites the first. */
  lemma InsertKeepsKeys<T>(table: map<string, T>, key: string, v1: T, v2: T)
    ensures table.Keys + {key} == table[key := v1].Keys
    ensures table[key := v1][key := v2] == table[key := v2]
  {
  }
}
