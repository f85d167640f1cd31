/** Failure-carrying values shared by every module of the model. */
module Wrappers {

  datatype Option<+T> = None | Some(value: T)

  datatype Result<+T, +E> = Ok(value: T) | Err(error: E)

  /** The Python exceptions the modelled code can raise and not catch.
      `LookupError` is the one the dashboard raises on purpose; the others
      come from indexing (`IndexError`), dictionary access (`KeyError`) and
      `int()` of a non-digit (`ValueError`). Opening the login page can
      also raise what `login` does not catch: `LinkNotFoundError`, which
      mechanicalsoup raises on a 404 because the browser is built with
      `raise_on_404=True`, and requests' `ReadTimeout`. */
  datatype PyException = IndexError | KeyError | LookupError | ValueError | LinkNotFoundError | ReadTimeout
}
