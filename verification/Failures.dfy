/** Failing calls, for every component that talks to a store. */
module Failures {
  /** How a call to a store can fail: it is not done, or it is done and its reply is lost. */
  datatype Fault = NoFault | NotDone | ReplyLost
  {
    predicate Done() { this != NotDone }

    predicate Failed() { this != NoFault }
  }
}
