/**
 * A model of the Fetch standard's `Headers` object as the proxy uses it: a
 * dictionary whose keys are header names lower-cased on the way in, updated in
 * place by `set` and `delete`.
 */
module HeaderMaps {
  import opened Wrappers
  import opened Text

  predicate LowerKeys(m: map<string, string>)
  {
    forall k :: k in m ==> IsFolded(k)
  }

  /** A header list: every name is already lower-cased, as `Headers` stores it. */
  type Fields = m: map<string, string> | LowerKeys(m) witness map[]

  /** `headers.get(name)`: the value under the case-insensitive name, or `null`. */
  function Lookup(fields: Fields, name: string): (r: Option<string>)
    ensures r.Some? <==> Fold(name) in fields
    ensures r.Some? ==> r.value == fields[Fold(name)]
  {
    if Fold(name) in fields then Some(fields[Fold(name)]) else None
  }

  /**
   * `get` compares names without regard to case: it finds a value exactly when
   * some stored name equals `name` ignoring case, and then it is that name's value.
   */
  lemma LookupIgnoresCase(fields: Fields, name: string)
    ensures Lookup(fields, name).Some? <==> exists k :: k in fields && Fold(k) == Fold(name)
    ensures forall k :: k in fields && Fold(k) == Fold(name) ==> Lookup(fields, name) == Some(fields[k])
  {
  }

  /** The list after `set(name, value)`: `get` of any spelling of `name` now yields `value`, and of any other name what it did. */
  function Put(fields: Fields, name: string, value: string): (r: Fields)
    ensures forall other :: Lookup(r, other) == if Fold(other) == Fold(name) then Some(value) else Lookup(fields, other)
  {
    FoldIdempotent(name);
    fields[Fold(name) := value]
  }

  /** The list after `delete(name)`: `get` of any spelling of `name` now yields `null`, and of any other name what it did. */
  function Remove(fields: Fields, name: string): (r: Fields)
    ensures forall other :: Lookup(r, other) == if Fold(other) == Fold(name) then None else Lookup(fields, other)
  {
    fields - {Fold(name)}
  }

  class Headers {
    var fields: Fields

    /** `new Headers(init)`: a copy that later updates do not share with `init`. */
    constructor (init: Fields)
      ensures fields == init
    {
      fields := init;
    }

    function Get(name: string): (r: Option<string>)
      reads this
      ensures r == Lookup(fields, name)
    {
      Lookup(fields, name)
    }

    /** `headers.set(name, value)`: replaces every value under the name. */
    method Set(name: string, value: string)
      modifies this
      ensures fields == old(fields)[Fold(name) := value] == Put(old(fields), name, value)
    {
      FoldIdempotent(name);
      fields := fields[Fold(name) := value];
    }

    /** `headers.delete(name)`: no-op when the name is absent. */
    method Delete(name: string)
      modifies this
      ensures fields == old(fields) - {Fold(name)} == Remove(old(fields), name)
    {
      fields := fields - {Fold(name)};
    }
  }
}
