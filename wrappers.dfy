/** Option and Result, and the Python exceptions the modelled code can raise. */
module Wrappers {

  datatype Option<+T> = None | Some(value: T)

  datatype Result<+T, +E> = Success(value: T) | Failure(error: E)

  /** The exceptions raised (and not swallowed) by the modelled services. */
  datatype Exception =
    | AttributeError(name: string)    // attribute lookup on an object or on None failed
    | ApiStatusError(status: int)     // the news API answered with a status other than 200
    | RequestFailed                   // requests raised a RequestException (network or JSON decoding)

  /** Looking up attribute `name` on an object whose attributes are
      `attrs`: AttributeError when it has none of that name. */
  function Attr(attrs: set<string>, name: string): (r: Result<(), Exception>)
    ensures r.Success? <==> name in attrs
    ensures r.Failure? ==> r.error == AttributeError(name)
  {
    if name in attrs then Success(()) else Failure(AttributeError(name))
  }
}
