/** The creative chatbot: a registry of chat sessions, each growing by a
    user message and the model's answer per call.  The Groq completion is an
    oracle from the prompt messages to the answer or an error. */
module Chatbot {
  import opened Wrappers
  import opened ChatModels

  const SystemPrompt: string :=
    "You are a Creative AI assistant specialized in generating innovative ideas. \n"
    + "                        Focus on providing unique, actionable suggestions while considering multiple perspectives."

  /** The messages sent to the model: the system prompt and the current
      message only, whatever the session already holds. */
  function Prompt(message: string): (p: seq<(string, string)>)
    ensures |p| == 2 && p[0] == ("system", SystemPrompt) && p[1] == ("user", message)
  {
    [("system", SystemPrompt), ("user", message)]
  }

  class CreativeAIChatbot {
    var sessions: map<Uuid, ChatSession>
    const defaults: Defaults

    ghost predicate Valid()
      reads this
    {
      KeyedById(sessions)
    }

    constructor (defaults: Defaults)
      ensures Valid() && sessions == map[] && this.defaults == defaults
    {
      sessions := map[];
      this.defaults := defaults;
    }

    /** `process_message(user_id, message, session_id)`.  The session is
        found or created and the user message appended before the model is
        asked, so when generation fails the user message stays and the error
        is raised wrapped. */
    method ProcessMessage(
      userId: string, message: string, sessionId: Option<Uuid>,
      complete: seq<(string, string)> -> Result<string>)
      returns (r: Result<ChatSession>)
      requires Valid()
      modifies this`sessions
      ensures Valid()
      ensures var (s, m) := Start(old(sessions), sessionId, NewSession(defaults, userId));
        var asked := s.messages + [NewMessage(defaults, message, "user")];
        match complete(Prompt(message))
        case Failure(e) =>
          && r == Failure("Error generating response: " + e)
          && sessions == m[s.id := s.(messages := asked)]
        case Success(answer) =>
          && r.Success? && r.value == s.(messages := asked + [NewMessage(defaults, answer, "assistant")])
          && sessions == m[s.id := r.value]
    {
      var (session, registry) := Start(sessions, sessionId, NewSession(defaults, userId));
      sessions := registry;
      session := session.(messages := session.messages + [NewMessage(defaults, message, "user")]);
      sessions := sessions[session.id := session];
      var response := complete(Prompt(message));
      if response.Failure? {
        return Failure("Error generating response: " + response.error);
      }
      session := session.(messages := session.messages + [NewMessage(defaults, response.value, "assistant")]);
      sessions := sessions[session.id := session];
      r := Success(session);
    }
  }
}
