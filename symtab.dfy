/** The interpreter's variable table (blast/symtab.py): a dictionary from names to values,
    read by `__getitem__` and updated in place by `__setitem__`. */
module SymbolTables {
  import opened Wrappers

  /** `symbols[name]` on a dictionary: the bound value, or None where Python raises KeyError. */
  function Lookup<V>(symbols: map<string, V>, name: string): Option<V> {
    if name in symbols then Some(symbols[name]) else None
  }

  /** A fresh table binds nothing, so every lookup fails. */
  lemma FreshTableBindsNothing<V>(symbols: map<string, V>, name: string)
    requires symbols == map[]
    ensures Lookup(symbols, name) == None
  {
  }

  /** A lookup after a set of the same name gives the value set. */
  lemma GetAfterSet<V>(symbols: map<string, V>, name: string, value: V)
    ensures Lookup(symbols[name := value], name) == Some(value)
  {
  }

  /** A set on a bound name replaces the old value: nothing of the first set survives the second. */
  lemma SetOverwrites<V>(symbols: map<string, V>, name: string, first: V, second: V)
    ensures symbols[name := first][name := second] == symbols[name := second]
    ensures Lookup(symbols[name := first][name := second], name) == Some(second)
  {
  }

  /** A set leaves the binding of every other name as it was, and binds no other new name. */
  lemma SetLeavesOthers<V>(symbols: map<string, V>, name: string, value: V, other: string)
    requires other != name
    ensures Lookup(symbols[name := value], other) == Lookup(symbols, other)
    ensures symbols[name := value].Keys == symbols.Keys + {name}
  {
  }

  /** The table object. */
  class SymbolTable<V> {
    var symbols: map<string, V>

    /** `__init__`: an empty dictionary. */
    constructor ()
      ensures symbols == map[]
    {
      symbols := map[];
    }

    /** `__getitem__`: the value bound to `name`; None stands for the KeyError an unbound name
        raises. */
    method Get(name: string) returns (r: Option<V>)
      ensures r.Some? <==> name in symbols
      ensures r.Some? ==> r.value == symbols[name]
    {
      if name in symbols {
        return Some(symbols[name]);
      }
      return None;
    }

    /** `__setitem__`: binds `name` to `value`, replacing any earlier binding. */
    method Set(name: string, value: V)
      modifies this
      ensures symbols == old(symbols)[name := value]
    {
      symbols := symbols[name := value];
    }
  }
}
