/** Failure-carrying values shared by every module of the model. */
module Base {

  datatype Option<+T> = None | Some(value: T)

  /** A Go `(T, error)` pair: either a value or the text of the error. */
  datatype Result<+T> = Ok(value: T) | Err(error: string)

  /**
   * Go visits a map in an unspecified order; `order` stands for one such
   * visit: every key of `m`, each exactly once.
   */
  predicate ListsKeysOnce<K, V>(order: seq<K>, m: map<K, V>) {
    && (forall k :: k in m ==> k in order)
    && (forall i :: 0 <= i < |order| ==> order[i] in m)
    && (forall i, j :: 0 <= i < j < |order| ==> order[i] != order[j])
  }
}
