/**
 * Shard names as callers pass them: a Ruby String or a Ruby Symbol.
 * The model keeps only the Symbol form of a name once it has been stored.
 */
module ShardNames {
  import opened Wrappers

  /** A shard name: `'shard1'` is `Str("shard1")`, `:shard1` is `Sym("shard1")`. */
  datatype Name = Str(chars: string) | Sym(chars: string)

  /** `to_sym`: a String becomes the Symbol with the same text; a Symbol is returned as it is. */
  function ToSym(n: Name): (r: Name)
    ensures r.Sym? && r.chars == n.chars
    ensures n.Sym? ==> r == n
  {
    Sym(n.chars)
  }

  /** A stored selection: no shard, or a shard name in Symbol form. */
  predicate Normalised(o: Option<Name>)
  {
    o.Some? ==> o.value.Sym?
  }

  /** The cast done by `current_shard=`: `nil` stays `nil`, anything else becomes a Symbol. */
  function Cast(name: Option<Name>): (r: Option<Name>)
    ensures Normalised(r)
    ensures r.None? <==> name.None?
    ensures name.Some? ==> r.value.chars == name.value.chars
  {
    if name.None? then None else Some(ToSym(name.value))
  }

  /** Casting a value that has already been cast changes nothing. */
  lemma CastIdempotent(name: Option<Name>)
    ensures Cast(Cast(name)) == Cast(name)
  {
  }

  /** A value in stored form is its own cast, so writing back what was read is exact. */
  lemma CastFixesNormalised(o: Option<Name>)
    requires Normalised(o)
    ensures Cast(o) == o
  {
  }

  /** Two names select the same shard exactly when their texts agree: `'shard1'` and `:shard1` do. */
  lemma CastIdentifies(a: Name, b: Name)
    ensures Cast(Some(a)) == Cast(Some(b)) <==> a.chars == b.chars
  {
  }
}
