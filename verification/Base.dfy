/** Types and small facts that every module of the model shares. */
module Base {

  datatype Option<+T> = None | Some(value: T)

  /** Row identifiers. A fresh identifier is one that the model has not handed out yet. */
  type Uuid = nat

  predicate NoDuplicates<T(==)>(s: seq<T>) {
    forall i, j :: 0 <= i < j < |s| ==> s[i] != s[j]
  }
}
