/**
 * llm/llm.py: the chat model. Prompts and model choice are outside the
 * model; each call is represented by its scripted outcome.
 */
module Llm {
  /** The outcome of one `llm.invoke(...)`: the response's content, or the exception it raised. */
  datatype Reply = Content(text: string) | Raises(reason: string)
}
