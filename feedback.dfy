/** The toast messages (`message.success` / `message.error`) the pages show. */
module Feedback {
  datatype Notice = Success(text: string) | Failure(text: string)
}
