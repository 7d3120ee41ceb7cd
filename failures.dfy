/**
  What an awaited call or a service can throw, shared by the services and the
  request handlers.
 */
module Failures {
  /** A thrown error: a MongoError with its code, or any other error by its name. */
  datatype Thrown =
    | MongoError(code: int)   // an instance of mongoose.mongo.MongoError, with its code
    | OtherError(name: string)
}
