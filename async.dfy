/** internal/async: the value-or-error record that concurrent fetches send
    back over a channel. */
module Async {
  import opened Wrappers

  /** `Result[T]`: a value together with an error, nil (`None`) on success. */
  datatype Result<T> = Result(value: T, err: Option<Error>) {

    /** `IsErr`: the error is set. */
    predicate IsErr() { err.Some? }
  }

  /** `SuccessResult(v)`: carries `v` and no error. */
  function SuccessResult<T>(v: T): (r: Result<T>)
    ensures r.value == v && !r.IsErr()
  {
    Result(v, None)
  }

  /** `ErrorResult(e)`: carries `e` and Go's zero value of `T`, which the caller
      passes in as `zero` because Dafny has no generic zero value. */
  function ErrorResult<T>(e: Error, zero: T): (r: Result<T>)
    ensures r.IsErr() && r.err == Some(e) && r.value == zero
  {
    Result(zero, Some(e))
  }

  /** `ResultFrom(v, err)`: wraps a `(value, error)` return pair unchanged. */
  function ResultFrom<T>(v: T, err: Option<Error>): (r: Result<T>)
    ensures r.value == v && r.err == err
    ensures r.IsErr() <==> err.Some?
  {
    Result(v, err)
  }

  /** A success is exactly a wrapped pair without error, and the test pairs
      ("hello", nil) and ("", error "hello") keep both halves. */
  lemma ResultFromExamples()
    ensures ResultFrom("hello", None) == SuccessResult("hello")
    ensures ResultFrom("hello", None).value == "hello"
    ensures ResultFrom("", Some("hello")).err == Some("hello")
    ensures ResultFrom("", Some("hello")) == ErrorResult("hello", "")
  {
  }
}
