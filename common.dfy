/** Shared vocabulary: Java nullable references, failure values, and map enumerations. */
module Common {

  /** A Java reference that may be null. */
  datatype Nullable<+T> = Null | NonNull(value: T)

  /** The outcome of parsing text that may be malformed. */
  datatype Option<+T> = None | Some(value: T) {
    predicate IsFailure() { None? }
    function PropagateFailure<U>(): Option<U> requires None? { None }
    function Extract(): T requires Some? { value }
  }

  /** The Java exceptions that the modelled operations throw. */
  datatype Exception =
    | UnsupportedOperation(message: string)   // UnsupportedOperationException
    | Unimplemented(message: string)          // H2O.unimpl(...)
    | IllegalState(message: string)           // IllegalStateException
    | NullPointer                             // dereferencing a null field
    | ColumnNotFound(name: string)            // a frame lacks the named column

  /** A call that either returns a value or throws. */
  datatype Result<+T> = Success(value: T) | Failure(error: Exception)

  /** A call that returns nothing or throws. */
  datatype Outcome = Pass | Fail(error: Exception)

  /** `s` lists every element of `keys` exactly once: one possible iteration order of a hash map. */
  ghost predicate Enumerates<T>(s: seq<T>, keys: set<T>) {
    && (forall i, j | 0 <= i < j < |s| :: s[i] != s[j])
    && (forall i | 0 <= i < |s| :: s[i] in keys)
    && (forall x | x in keys :: x in s)
  }

  /** An enumeration has as many elements as the set it enumerates. */
  lemma {:induction false} EnumerationLength<T>(s: seq<T>, keys: set<T>)
    requires Enumerates(s, keys)
    ensures |s| == |keys|
  {
    if s != [] {
      var rest := s[..|s| - 1];
      var last := s[|s| - 1];
      assert last !in rest by {
        forall i | 0 <= i < |rest| ensures rest[i] != last {
          assert s[i] != s[|s| - 1];
        }
      }
      forall x | x in keys - {last} ensures x in rest {
        var i :| 0 <= i < |s| && s[i] == x;
        assert rest[i] == x;
      }
      EnumerationLength(rest, keys - {last});
    }
  }
}
