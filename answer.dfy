/**
 The answer step: read the session's history, ask the language model for a
 final answer, record the exchange in the memory store, return the answer.
 */
module AnswerAgent {
  import opened Memory

  /** The language-model call of the answer step. Its prompt is built from the
      query, the context and the history, so its output is taken as some
      function of these three. */
  type AnswerModel = (string, string, seq<Message>) -> string

  /** The message the answer step records for `query` in session `id`: the
      model's answer to a prompt built from the history as it was before the
      record is added. */
  function AnswerTurn(llm: AnswerModel, sessions: Sessions, query: string, context: string, id: string): Message
  {
    Message(query, llm(query, context, History(sessions, id)))
  }

  /** generate_answer: reads history, calls the model once, appends exactly one
      message to `id` and returns the answer it stored. */
  method GenerateAnswer(query: string, context: string, id: string, llm: AnswerModel, memory: MemoryManager)
    returns (answer: string)
    requires memory.Valid()
    modifies memory
    ensures memory.Valid()
    ensures answer == AnswerTurn(llm, old(memory.sessions), query, context, id).answer
    ensures memory.sessions == Appended(old(memory.sessions), id, Message(query, answer))
  {
    var history := memory.GetSessionHistory(id);
    var response := llm(query, context, history);
    memory.AddMessage(id, Message(query, response));
    answer := response;
  }

  /** The turn being answered is not part of the history in its own prompt:
      the prompt's history is the stored history minus its last message, and
      that last message is the turn itself. */
  lemma AnswerPromptExcludesOwnTurn(llm: AnswerModel, sessions: Sessions, query: string, context: string, id: string)
    ensures var t := AnswerTurn(llm, sessions, query, context, id);
            var after := History(Appended(sessions, id, t), id);
            |after| > 0 && after[|after| - 1] == t
            && t.answer == llm(query, context, after[..|after| - 1])
  {
  }
}
