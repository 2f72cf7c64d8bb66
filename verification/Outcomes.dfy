/** What forward records about a connection. */
module Outcomes {

  datatype Label = OK | Timeout | NotAllowed | DialFailed | Rejected
}
