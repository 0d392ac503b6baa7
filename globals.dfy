/**
 * The process-wide symbol table: the named constants of both precisions and
 * the table of installed functions, keyed by name.
 */
module Globals {
  import opened Complex

  /** M_E and M_PI as the double-precision tables hold them. */
  const E_DP: real := 2.718281828459045
  const PI_DP: real := 3.141592653589793
  /** e and pi to the 25 significant digits of the multiprecision type. */
  const E_MP: real := 2.718281828459045235360287
  const PI_MP: real := 3.141592653589793238462643

  /** consts_dp: "e", "\pi" and "i" as double-precision complex values. */
  function ConstsDp(): (m: map<string, Cx>)
    ensures m.Keys == {"e", "\\pi", "i"}
    ensures m["i"] == I
    ensures m["e"].im == 0.0 && m["\\pi"].im == 0.0
    ensures m["e"].re > 2.7 && m["\\pi"].re > 3.14
  {
    map["e" := Cx(E_DP, 0.0), "\\pi" := Cx(PI_DP, 0.0), "i" := Cx(0.0, 1.0)]
  }

  /** consts_mp: the same three names as multiprecision values (the table stores pointers to them). */
  function ConstsMp(): (m: map<string, Cx>)
    ensures m.Keys == {"e", "\\pi", "i"}
    ensures m["i"] == I
    ensures m["e"].im == 0.0 && m["\\pi"].im == 0.0
  {
    map["e" := Cx(E_MP, 0.0), "\\pi" := Cx(PI_MP, 0.0), "i" := Cx(0.0, 1.0)]
  }

  /**
   * The two constant tables name the same constants, so an identifier other
   * than the parameter is accepted in one precision exactly when it is
   * accepted in the other.
   */
  lemma SameConstantNames(name: string)
    ensures name in ConstsDp() <==> name in ConstsMp()
    ensures ConstsDp().Keys == ConstsMp().Keys
  {
  }

  /**
   * fxn_table: installed entry points by function name. A handle is the
   * address of a native routine; 0 stands for the null pointer.
   */
  class FxnTable {
    var entries: map<string, nat>

    /** The table starts empty. */
    constructor ()
      ensures entries == map[]
    {
      entries := map[];
    }

    /**
     * fxn_table[name] through std::map::operator[]: the stored handle, and for
     * a name that is not yet present a new entry holding 0, which is returned.
     */
    method Subscript(name: string) returns (h: nat)
      modifies this
      ensures h == if name in old(entries) then old(entries)[name] else 0
      ensures entries == if name in old(entries) then old(entries) else old(entries)[name := 0]
    {
      if name !in entries {
        entries := entries[name := 0];
      }
      h := entries[name];
    }

    /** fxn_table[name] = h: adds the entry or overwrites the one already there. */
    method Put(name: string, h: nat)
      modifies this
      ensures entries == old(entries)[name := h]
    {
      entries := entries[name := h];
    }
  }

  /** The effect of operator[] on the table contents, as a function: it only ever adds a 0 entry. */
  function SubscriptEntries(entries: map<string, nat>, name: string): (r: map<string, nat>)
    ensures name in r && r[name] == (if name in entries then entries[name] else 0)
    ensures entries.Keys <= r.Keys && r.Keys == entries.Keys + {name}
    ensures forall k :: k in entries ==> r[k] == entries[k]
  {
    if name in entries then entries else entries[name := 0]
  }

  /** A name that holds a non-null handle keeps it through any number of lookups. */
  lemma {:induction false} SubscriptKeepsHandles(entries: map<string, nat>, names: seq<string>, name: string)
    requires name in entries && entries[name] != 0
    ensures name in SubscriptAll(entries, names) && SubscriptAll(entries, names)[name] == entries[name]
    decreases |names|
  {
    if names != [] {
      SubscriptKeepsHandles(SubscriptEntries(entries, names[0]), names[1..], name);
    }
  }

  /** The table after looking up each of `names` in turn. */
  function SubscriptAll(entries: map<string, nat>, names: seq<string>): map<string, nat>
    decreases |names|
  {
    if names == [] then entries else SubscriptAll(SubscriptEntries(entries, names[0]), names[1..])
  }

  /** Looking up a name that holds no handle never makes it hold one: it holds 0 afterwards. */
  lemma {:induction false} SubscriptNeverInvents(entries: map<string, nat>, names: seq<string>, name: string)
    requires name !in entries || entries[name] == 0
    ensures name !in SubscriptAll(entries, names) || SubscriptAll(entries, names)[name] == 0
    decreases |names|
  {
    if names != [] {
      SubscriptNeverInvents(SubscriptEntries(entries, names[0]), names[1..], name);
    }
  }
}
