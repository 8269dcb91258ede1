/** Failure-compatible wrappers and the Java exceptions shared by the modules of the model. */
module Base {

  /**
   * The throwables the modelled code raises or catches, and those of code it calls but does
   * not model (a target method, a controller method).  All are Exceptions except
   * InitializerError (ExceptionInInitializerError), NoClassDefFound (NoClassDefFoundError)
   * and ApplicationError, which are Errors.
   */
  datatype JavaException =
    | ClassNotFound(className: string)      // ClassNotFoundException from Class.forName
    | NullPointer                           // NullPointerException
    | IOFailure                             // IOException from a resource or jar connection
    | InstantiationFailure(className: string) // InstantiationException or IllegalAccessException from newInstance
    | ProxyCreationFailure(className: string) // what proxy creation throws for a class it cannot subclass
    | RuntimeException(cause: JavaException)  // a RuntimeException wrapping its cause
    | InitializerError(className: string)   // a static initializer threw
    | NoClassDefFound(className: string)    // a class whose static initializer threw is initialised again
    | ApplicationException(id: nat)         // any other Exception, told apart by an identifier
    | ApplicationError(id: nat)             // any other Error, told apart by an identifier
  {
    /** Whether `catch (Exception e)` catches it. */
    predicate IsException() { !InitializerError? && !NoClassDefFound? && !ApplicationError? }
  }

  /** An optional value: `None` stands for Java's `null`. */
  datatype Option<+T> = None | Some(value: T)

  /** The outcome of a step that may fail with an exception of kind `E`. */
  datatype Result<+T, +E> = Success(value: T) | Failure(error: E) {
    predicate IsFailure() { Failure? }

    function PropagateFailure<U>(): Result<U, E>
      requires Failure?
    {
      Failure(error)
    }

    function Extract(): T
      requires Success?
    {
      value
    }
  }
}
