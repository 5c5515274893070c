/** The two result shapes used throughout: an absent value, and a refusal with its status code. */
module Wrappers {

  datatype Option<+T> = None | Some(value: T)

  /** `Refused` stands for the service's exceptions; `status` is the HTTP status they carry. */
  datatype Outcome<+T> = Done(value: T) | Refused(status: nat)
}
