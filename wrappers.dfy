/** Values that stand for Python's None-or-value and for a call that either
    returns or raises. Exceptions of the source are carried as values. */
module Wrappers {

  datatype Option<+T> = None | Some(value: T)

  /** The exceptions the modelled code raises or lets escape. */
  datatype Exception =
    | TaskException            // entity/task.py: DATA does not decode as JSON
    | TypeError
    | ValueError
    | KeyError
    | AttributeError
    | MixedEntitiesException   // access/base.py: records of different entities
    | EntityNotFound           // access/base.py: a subclass of IndexError
    | NoValidEntity            // entity/base.py: no entity class for a table name
    | DatabaseError            // sqlite3.DatabaseError and its subclasses
    | InterfaceError           // sqlite3.InterfaceError: a value that cannot be bound
    | TimeoutError             // asyncio.TimeoutError: the client gave up waiting

  /** Python's `except IndexError` catches exactly EntityNotFound here. */
  predicate IsIndexError(e: Exception) {
    e == EntityNotFound
  }

  datatype Outcome<+T> = Ok(value: T) | Raised(error: Exception) {

    predicate IsFailure() {
      Raised?
    }

    function PropagateFailure<U>(): Outcome<U>
      requires Raised?
    {
      Raised(error)
    }

    function Extract(): T
      requires Ok?
    {
      value
    }
  }
}
