/** The chat messages the apps hand to the language model and keep in their history. */
module ChatMessages {

  /** A system instruction, a user turn, or a model reply; each carries its text. */
  datatype Message =
    | SystemMessage(content: string)
    | HumanMessage(content: string)
    | AiMessage(content: string)
}
