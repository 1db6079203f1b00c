/** Option, Result and Poll: the shapes Rust's `Option`, `Result` and
    `std::task::Poll` give to the values the runtime passes around. */
module Wrappers {

  datatype Option<+T> = None | Some(value: T)

  datatype Result<+T, +E> = Ok(value: T) | Err(error: E)
  {
    /** `map_err`: keeps a success, converts an error. */
    function MapErr<F>(convert: E -> F): (r: Result<T, F>)
      ensures r.Ok? <==> Ok?
      ensures Ok? ==> r.value == value
      ensures Err? ==> r.error == convert(error)
    {
      match this
      case Ok(v) => Ok(v)
      case Err(e) => Err(convert(e))
    }
  }

  /** The state of a future: still waiting, or finished with a value. */
  datatype Poll<+T> = Pending | Ready(value: T)
}
