/**
 * The completion gateway: the remote language-model call that each flow awaits.
 *
 * The call itself is foreign code. It is modelled by what it can hand back to a
 * flow: a structured output, a null output, or a thrown value.
 */
module Completion {

  /** A value thrown by the gateway: an `Error` instance with its message, or any other value. */
  datatype Thrown = ErrorInstance(message: string) | OtherValue

  /** What awaiting the prompt yields: `{ output }` with a value, `{ output: null }`, or an exception. */
  datatype Outcome<T> = Output(value: T) | NoOutput | Threw(thrown: Thrown)

  /** The gateway, as seen by one flow: the outcome it gives for each rendered prompt text. */
  type Gateway<T> = string -> Outcome<T>

  /**
   * The result of a public operation together with the prompts it sent to the
   * gateway, in order. An empty `calls` means the gateway was never consulted.
   */
  datatype Run<T> = Run(result: T, calls: seq<string>)
}
