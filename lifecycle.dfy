/** Vocabulary shared by the three data-driven views: the request status each
    view keeps in `apiStatus`, the JavaScript notion of an optional property,
    and the render branches a view can choose between. */
module Lifecycle {

  /** The four values of `apiStatusConstants`. */
  datatype ApiStatus = Initial | InProgress | Success | Failure

  /** A nullable piece of view state (`null` or an object). */
  datatype Option<+T> = None | Some(value: T)

  /** A property read from a JSON payload or from React props: absent
      (`undefined`), explicitly `null`, or present with a value. */
  datatype Field<+T> = Undefined | Null | Present(value: T)

  /** The render branches the views choose between. `NoView` is React's
      `null` (nothing rendered). */
  datatype Branch = NoView | HeroView | LoaderView | SuccessView | FailureView | NoDataView

  /** The guard `username === '' || username === undefined`. A `null`
      username passes it. */
  predicate UsernameMissing(username: Field<string>): (missing: bool)
    ensures username == Undefined ==> missing
    ensures username == Null ==> !missing
    ensures username.Present? ==> (missing <==> |username.value| == 0)
  {
    username == Undefined || username == Present("")
  }
}
