/** The exception types the modelled code throws or carries, with their messages. */
module Exceptions {

  datatype Exception =
    | ArgumentException(message: string)
    | ArgumentNullException(paramName: string)
    /** Thrown by `Enumerable.SingleOrDefault` when more than one element matches. */
    | InvalidOperationException(message: string)
    | RoutingSlipException(message: string)
    | ConfigurationException(message: string)
    /** Any other exception, e.g. one raised by the embedder's compensation logic. */
    | OtherException(typeName: string, message: string)
}
