/** Absent-or-present values: a TypeScript `T | undefined` result, or a `T | null` column. */
module Wrappers {

  datatype Option<+T> = None | Some(value: T)

  /** An optional, nullable input field: the key is missing, it holds `null`, or it holds a value. */
  datatype Field<+T> = Omitted | Null | Value(value: T)

  /** `f ?? null`: a missing key and an explicit `null` both become `null`. */
  function OrNull<T>(f: Field<T>): (r: Option<T>)
    ensures r.Some? <==> f.Value?
    ensures f.Value? ==> r.value == f.value
  {
    match f
    case Value(v) => Some(v)
    case _ => None
  }

  /** A field as it reads once serialised: a missing key is spelt `null`. */
  function Filled<T>(f: Field<T>): (r: Field<T>)
    ensures !r.Omitted?
    ensures f.Value? ==> r == f
  {
    if f.Omitted? then Null else f
  }

  /** `{ ...old, ...updates }` on a required column: a key present in the update wins. */
  function Overwrite<T>(update: Option<T>, current: T): (r: T)
    ensures update.Some? ==> r == update.value
    ensures update.None? ==> r == current
  {
    match update
    case Some(v) => v
    case None => current
  }

  /** `{ ...old, ...updates }` on a nullable column: a missing key keeps the current value. */
  function OverwriteNullable<T>(update: Field<T>, current: Option<T>): (r: Option<T>)
    ensures update.Omitted? ==> r == current
    ensures !update.Omitted? ==> r == OrNull(update)
  {
    match update
    case Omitted => current
    case Null => None
    case Value(v) => Some(v)
  }

  /** `{ ...old, ...updates }` where the current value may itself be a missing key. */
  function OverwriteField<T>(update: Field<T>, current: Field<T>): (r: Field<T>)
    ensures update.Omitted? ==> r == current
    ensures !update.Omitted? ==> r == update
  {
    if update.Omitted? then current else update
  }

  /** The column value a field of an existing record is re-inserted as. */
  function AsField<T>(o: Option<T>): (f: Field<T>)
    ensures OrNull(f) == o
    ensures !f.Omitted?
  {
    match o
    case Some(v) => Value(v)
    case None => Null
  }
}
