/** The chat records shared by the two chatbots, and their get-or-create
    session rule.  The pydantic defaults of `ChatSession.id`, `created_at`,
    `updated_at` and `Message.timestamp` are evaluated once, when the model
    classes are defined; `Defaults` holds those values, so every session
    created without an id gets the same one. */
module ChatModels {
  import opened Wrappers
  import opened Json

  type Uuid = string

  datatype Message = Message(content: string, role: string, timestamp: int)

  datatype ChatSession = ChatSession(
    id: Uuid,
    userId: string,
    messages: seq<Message>,
    metadata: seq<(string, Json)>,
    createdAt: int,
    updatedAt: int)

  /** The default values fixed when the model classes were defined. */
  datatype Defaults = Defaults(sessionId: Uuid, now: int)

  /** `Message(content=..., role=...)`. */
  function NewMessage(d: Defaults, content: string, role: string): (m: Message)
    ensures m.content == content && m.role == role && m.timestamp == d.now
  {
    Message(content, role, d.now)
  }

  /** `ChatSession(user_id=...)`: the shared default id, no messages, no
      metadata. */
  function NewSession(d: Defaults, userId: string): (s: ChatSession)
    ensures s.id == d.sessionId && s.userId == userId && s.messages == [] && s.metadata == []
  {
    ChatSession(d.sessionId, userId, [], [], d.now, d.now)
  }

  /** Every stored session sits under its own id. */
  ghost predicate KeyedById(sessions: map<Uuid, ChatSession>) {
    forall k :: k in sessions ==> sessions[k].id == k
  }

  /** `if session_id and session_id in self.sessions` (a UUID is always
      truthy): the stored session is reused; otherwise `created` is stored under
      its id.  The result is the session in use and the new registry. */
  function Start(sessions: map<Uuid, ChatSession>, sessionId: Option<Uuid>, created: ChatSession)
    : (r: (ChatSession, map<Uuid, ChatSession>))
    requires KeyedById(sessions)
    ensures KeyedById(r.1) && r.0.id in r.1 && r.1[r.0.id] == r.0
    ensures sessionId.Some? && sessionId.value in sessions ==> r == (sessions[sessionId.value], sessions)
    ensures !(sessionId.Some? && sessionId.value in sessions) ==> r == (created, sessions[created.id := created])
  {
    if sessionId.Some? && sessionId.value in sessions then (sessions[sessionId.value], sessions)
    else (created, sessions[created.id := created])
  }

  /** As written: two conversations started without a session id share the
      default id, so the second replaces the first and only one session is
      left. */
  lemma NewSessionsCollide(d: Defaults, user1: string, user2: string)
    ensures var (_, m1) := Start(map[], None, NewSession(d, user1));
      var (_, m2) := Start(m1, None, NewSession(d, user2));
      && |m1| == 1 && |m2| == 1
      && m2[d.sessionId].userId == user2
      && (user1 != user2 ==> forall k :: k in m2 ==> m2[k].userId != user1)
  {
    var (_, m1) := Start(map[], None, NewSession(d, user1));
    var (_, m2) := Start(m1, None, NewSession(d, user2));
    assert m1.Keys == {d.sessionId};
    assert m2.Keys == {d.sessionId};
  }

  /** As intended: a new session with an id not yet in use is added beside
      every stored session, which stays as it was. */
  lemma FreshSessionKeepsOthers(sessions: map<Uuid, ChatSession>, created: ChatSession)
    requires KeyedById(sessions) && created.id !in sessions
    ensures var (_, m) := Start(sessions, None, created);
      && |m| == |sessions| + 1
      && forall k :: k in sessions ==> k in m && m[k] == sessions[k]
  {
  }
}
