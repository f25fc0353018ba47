/** Status values shared by every module: the error kinds the C++ code raises
    through `absl::Status`, and the failure-compatible wrappers the model uses
    for `absl::StatusOr<T>`, `std::optional<T>` and a bare `absl::Status`. */
module Status {

  /** The `absl::StatusCode`s the modelled code produces or forwards. */
  datatype Code = InvalidArgument | NotFound | Internal

  datatype Error = Error(code: Code, message: string)

  /** `absl::StatusOr<T>`. */
  datatype Result<+T> = Ok(value: T) | Err(error: Error) {
    predicate IsFailure() { Err? }

    function PropagateFailure<U>(): Result<U>
      requires Err?
    {
      Err(error)
    }

    function Extract(): T
      requires Ok?
    {
      value
    }
  }

  /** `std::optional<T>`, and a nullable pointer. */
  datatype Option<+T> = None | Some(value: T)

  /** A bare `absl::Status`: either OK or an error. */
  datatype Outcome = Pass | Fail(error: Error)

  /** Applies `f` to the elements of `s` in order and collects the results;
      the first element whose conversion fails aborts the whole walk with that
      error. This is the shape of every loop of `TF_ASSIGN_OR_RETURN` calls
      in the modelled code. It peels the LAST element, so that extending a
      prefix by one element is one unfolding. */
  function MapResult<A, B>(f: A -> Result<B>, s: seq<A>): (r: Result<seq<B>>)
    ensures r.Ok? <==> forall i :: 0 <= i < |s| ==> f(s[i]).Ok?
    ensures r.Ok? ==> |r.value| == |s| && forall i :: 0 <= i < |s| ==> f(s[i]) == Ok(r.value[i])
    ensures r.Err? ==> exists k :: FirstFailure(f, s, k) && f(s[k]) == Err(r.error)
  {
    if s == [] then Ok([])
    else
      var init := s[..|s| - 1];
      match MapResult(f, init)
      case Err(e) =>
        assert forall k :: FirstFailure(f, init, k) ==> FirstFailure(f, s, k);
        Err(e)
      case Ok(prefix) =>
        match f(s[|s| - 1])
        case Err(e) =>
          assert FirstFailure(f, s, |s| - 1);
          Err(e)
        case Ok(b) => Ok(prefix + [b])
  }

  /** `k` is the first index of `s` at which `f` fails. */
  ghost predicate FirstFailure<A, B>(f: A -> Result<B>, s: seq<A>, k: int) {
    0 <= k < |s| && f(s[k]).Err? && forall j :: 0 <= j < k ==> f(s[j]).Ok?
  }

  /** Once a prefix has failed, the elements after it change nothing: the
      walk stops at the first failure. */
  lemma {:induction false} MapResultStopsAtFirstFailure<A, B>(f: A -> Result<B>, s: seq<A>, i: nat)
    requires i <= |s| && MapResult(f, s[..i]).Err?
    ensures MapResult(f, s) == MapResult(f, s[..i])
  {
    if i < |s| {
      var init := s[..|s| - 1];
      assert init[..i] == s[..i];
      MapResultStopsAtFirstFailure(f, init, i);
    } else {
      assert s[..i] == s;
    }
  }

  /** If `g` undoes `f` on every element, the walk with `g` undoes the walk
      with `f`. */
  lemma {:induction false} MapResultInverse<A, B>(f: A -> Result<B>, g: B -> Result<A>, s: seq<A>)
    requires MapResult(f, s).Ok?
    requires forall i :: 0 <= i < |s| ==> g(f(s[i]).value) == Ok(s[i])
    ensures MapResult(g, MapResult(f, s).value) == Ok(s)
  {
    var t := MapResult(f, s).value;
    forall i | 0 <= i < |t| ensures g(t[i]) == Ok(s[i]) {
      assert f(s[i]) == Ok(t[i]);
    }
    var u := MapResult(g, t);
    assert u.Ok?;
    assert forall i :: 0 <= i < |t| ==> u.value[i] == s[i];
    assert u.value == s;
  }
}
