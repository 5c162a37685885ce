/**
 * How a status-checked `fetch` chain ends, as seen by the `.then`/`.catch`
 * handlers of AssignmentsList and SubmissionsList. The network itself is not
 * modelled: the outcome is an input to the view's transition function.
 */
module Fetch {

  datatype Outcome<T> =
    | Ok(body: T)              // response.ok and the JSON body parsed to `body`
    | NotOk                    // a response arrived with a non-2xx status
    | Failed(message: string)  // fetch or JSON parsing threw an error with this message

  /** The text the `.catch` handler stores: the component's own message for a
      non-2xx status (thrown by the first `.then`), or the thrown error's message. */
  function CaughtMessage<T>(o: Outcome<T>, notOkMessage: string): string
    requires !o.Ok?
  {
    match o
    case NotOk => notOkMessage
    case Failed(message) => message
  }
}
