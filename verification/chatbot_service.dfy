/**
 * The chatbot service: a session store keyed by session id, the context built from the properties a
 * session viewed, and one round trip to the language model per message. The store is the
 * `chat_sessions` collection; the model reply and the property lookup are function parameters.
 */
module ChatbotService {
  import opened Wrappers
  import opened ChatMemory
  import Text

  /** What the context needs of a property: its title and county. */
  datatype PropertySummary = PropertySummary(title: string, county: string)

  const PublicMaxTokens := 500
  const AdminMaxTokens := 700
  const AdminInstructions := "You are an admin assistant. Only suggest actions if allowed, confirm critical operations, never hallucinate."
  const PublicInstructions := "You are a public Kenyan real estate assistant. Always provide accurate, concise, and friendly guidance. Do not provide admin access."

  // ---------------------------------------------------------------- the store

  /** A fresh session: no messages, nothing viewed, no intent or stage; an empty identity is stored as null. */
  function NewSession(sessionId: string, userType: UserType, identity: Option<string>, now: int): (r: ChatSession)
    ensures r.sessionId == sessionId && r.userType == userType && r.createdAt == now
    ensures r.messages == [] && r.viewedProperties == []
    ensures r.lastIntent.None? && r.journeyStage.None?
    ensures r.identity == if Truthy(identity) then identity else None
  {
    ChatSession(sessionId, userType, if identity.Some? && identity.value != "" then identity else None, [], None, None, [], now)
  }

  /** Every stored session sits under its own id. */
  ghost predicate KeyedById(sessions: map<string, ChatSession>)
  {
    forall k :: k in sessions ==> sessions[k].sessionId == k
  }

  /** The store after get-or-create: unchanged when the id is present, otherwise with a fresh session added. */
  function Opened(sessions: map<string, ChatSession>, sessionId: string, userType: UserType, identity: Option<string>, now: int)
    : (r: map<string, ChatSession>)
    ensures sessionId in r && r.Keys == sessions.Keys + {sessionId}
    ensures forall k :: k in sessions ==> r[k] == sessions[k]
    ensures sessionId !in sessions ==> r[sessionId] == NewSession(sessionId, userType, identity, now)
  {
    if sessionId in sessions then sessions else sessions[sessionId := NewSession(sessionId, userType, identity, now)]
  }

  /** A second get-or-create with the same id inserts nothing, whatever its other arguments. */
  lemma OpenTwiceInsertsOnce(sessions: map<string, ChatSession>, sessionId: string,
                             u1: UserType, i1: Option<string>, t1: int, u2: UserType, i2: Option<string>, t2: int)
    ensures Opened(Opened(sessions, sessionId, u1, i1, t1), sessionId, u2, i2, t2) == Opened(sessions, sessionId, u1, i1, t1)
  {
  }

  lemma OpenedKeepsKeying(sessions: map<string, ChatSession>, sessionId: string, userType: UserType, identity: Option<string>, now: int)
    requires KeyedById(sessions)
    ensures KeyedById(Opened(sessions, sessionId, userType, identity, now))
  {
  }

  /** The two messages one exchange appends: the user's, then the assistant's. */
  function Exchange(userMessage: string, botMessage: string, now: int): (r: seq<ChatMessage>)
    ensures |r| == 2 && r[0].role == User && r[1].role == Assistant
    ensures r[0].content == userMessage && r[1].content == botMessage
  {
    [ChatMessage(User, userMessage, now), ChatMessage(Assistant, botMessage, now)]
  }

  /**
   * The store after saving an exchange: the session under `sessionId` gets the two messages at the end
   * and its identity and user type set; no other session changes; an unknown id matches nothing.
   */
  function Saved(sessions: map<string, ChatSession>, sessionId: string, userMessage: string, botMessage: string,
                 userType: UserType, identity: Option<string>, now: int): (r: map<string, ChatSession>)
    ensures r.Keys == sessions.Keys
    ensures forall k :: k in sessions && k != sessionId ==> r[k] == sessions[k]
    ensures sessionId in sessions ==>
      var before, after := sessions[sessionId], r[sessionId];
      && after.messages == before.messages + Exchange(userMessage, botMessage, now)
      && after.identity == identity && after.userType == userType
      && after == before.(messages := after.messages, identity := identity, userType := userType)
  {
    if sessionId in sessions then
      var s := sessions[sessionId];
      sessions[sessionId := s.(messages := s.messages + Exchange(userMessage, botMessage, now), identity := identity, userType := userType)]
    else sessions
  }

  lemma SavedKeepsKeying(sessions: map<string, ChatSession>, sessionId: string, userMessage: string, botMessage: string,
                         userType: UserType, identity: Option<string>, now: int)
    requires KeyedById(sessions)
    ensures KeyedById(Saved(sessions, sessionId, userMessage, botMessage, userType, identity, now))
  {
  }

  /** Saving keeps the history: earlier messages stay in place and the exchange is the last two. */
  lemma SavedAppendsExchange(sessions: map<string, ChatSession>, sessionId: string, userMessage: string, botMessage: string,
                             userType: UserType, identity: Option<string>, now: int)
    requires sessionId in sessions
    ensures var before := sessions[sessionId].messages;
      var after := Saved(sessions, sessionId, userMessage, botMessage, userType, identity, now)[sessionId].messages;
      && |after| == |before| + 2
      && after[..|before|] == before
      && after[|before|] == ChatMessage(User, userMessage, now)
      && after[|before| + 1] == ChatMessage(Assistant, botMessage, now)
  {
    var before := sessions[sessionId].messages;
    var after := Saved(sessions, sessionId, userMessage, botMessage, userType, identity, now)[sessionId].messages;
    assert after == before + Exchange(userMessage, botMessage, now);
    assert after[..|before|] == before;
  }

  // ---------------------------------------------------------------- context and prompt

  /** The context line of one viewed id: "title - county", or "" when the lookup finds nothing. */
  function ContextLine(found: Option<PropertySummary>): string
  {
    match found
    case Some(p) => p.title + " - " + p.county
    case None => ""
  }

  /** One line per viewed id, in the order viewed. */
  function ContextLines(viewed: seq<string>, lookup: string -> Option<PropertySummary>): (r: seq<string>)
    ensures |r| == |viewed|
    ensures forall i :: 0 <= i < |viewed| ==> r[i] == ContextLine(lookup(viewed[i]))
    decreases |viewed|
  {
    if viewed == [] then [] else [ContextLine(lookup(viewed[0]))] + ContextLines(viewed[1..], lookup)
  }

  function BuildContext(session: ChatSession, lookup: string -> Option<PropertySummary>): string
  {
    Text.Join(ContextLines(session.viewedProperties, lookup), "\n")
  }

  /** The found properties' titles and counties have no line breaks. */
  predicate SingleLineSummaries(viewed: seq<string>, lookup: string -> Option<PropertySummary>)
  {
    forall i :: 0 <= i < |viewed| && lookup(viewed[i]).Some? ==>
      '\n' !in lookup(viewed[i]).value.title && '\n' !in lookup(viewed[i]).value.county
  }

  /** Read line by line, the context gives back exactly one line per viewed id, in order. */
  lemma ContextLayout(session: ChatSession, lookup: string -> Option<PropertySummary>)
    requires session.viewedProperties != []
    requires SingleLineSummaries(session.viewedProperties, lookup)
    ensures Text.Split(BuildContext(session, lookup), '\n') == ContextLines(session.viewedProperties, lookup)
  {
    var lines := ContextLines(session.viewedProperties, lookup);
    forall i | 0 <= i < |lines| ensures '\n' !in lines[i] {
      assert lines[i] == ContextLine(lookup(session.viewedProperties[i]));
      assert '\n' !in " - ";
    }
    Text.SplitJoinParts(lines, '\n');
  }

  function Instructions(isAdmin: bool): string
  {
    if isAdmin then AdminInstructions else PublicInstructions
  }

  /** The service's own prompt; `isAdmin` defaults to the public instructions. */
  function BuildPrompt(message: string, context: string, isAdmin: bool := false): string
  {
    Instructions(isAdmin) + "\nContext:\n" + context + "\nUser: " + message + "\nAnswer:"
  }

  lemma PromptPieces(instructions: string, context: string, message: string)
    ensures instructions + "\nContext:\n" + context + "\nUser: " + message + "\nAnswer:"
      == instructions + ['\n'] + ("Context:" + ['\n'] + (context + ['\n'] + ("User: " + message + ['\n'] + "Answer:")))
  {
    assert "\nContext:\n" == ['\n'] + "Context:" + ['\n'];
    assert "\nUser: " == ['\n'] + "User: ";
    assert "\nAnswer:" == ['\n'] + "Answer:";
  }

  lemma LastTwoLines(message: string)
    requires '\n' !in message
    ensures Text.Split("User: " + message + ['\n'] + "Answer:", '\n') == ["User: " + message, "Answer:"]
  {
    var line := "User: " + message;
    assert '\n' !in "User: " && '\n' !in "Answer:";
    assert '\n' !in line;
    Text.SplitTwo(line, "Answer:", '\n');
  }

  lemma HeadingLine(rest: string)
    ensures Text.Split("Context:" + ['\n'] + rest, '\n') == ["Context:"] + Text.Split(rest, '\n')
  {
    assert '\n' !in "Context:";
    Text.SplitAfterLine("Context:", rest, '\n');
  }

  /** The layout for any instructions, context and single-line message. */
  lemma LayoutOf(instructions: string, context: string, message: string)
    requires '\n' !in message
    ensures Text.Split(instructions + "\nContext:\n" + context + "\nUser: " + message + "\nAnswer:", '\n')
      == Text.Split(instructions, '\n') + (["Context:"] + (Text.Split(context, '\n') + ["User: " + message, "Answer:"]))
  {
    PromptPieces(instructions, context, message);
    var last := "User: " + message + ['\n'] + "Answer:";
    LastTwoLines(message);
    Text.SplitConcat(context, last, '\n');
    HeadingLine(context + ['\n'] + last);
    Text.SplitConcat(instructions, "Context:" + ['\n'] + (context + ['\n'] + last), '\n');
  }

  /**
   * The prompt, line by line: the instructions (the admin ones exactly when `isAdmin`), "Context:",
   * the lines of the context, "User: " with the message, and "Answer:".
   */
  lemma PromptLayout(message: string, context: string, isAdmin: bool)
    requires '\n' !in message
    ensures Text.Split(BuildPrompt(message, context, isAdmin), '\n')
      == Text.Split(Instructions(isAdmin), '\n') + (["Context:"] + (Text.Split(context, '\n') + ["User: " + message, "Answer:"]))
    ensures Instructions(isAdmin) == if isAdmin then AdminInstructions else PublicInstructions
  {
    LayoutOf(Instructions(isAdmin), context, message);
  }

  // ---------------------------------------------------------------- the service

  class ChatbotService {
    var sessions: map<string, ChatSession>

    ghost predicate Valid()
      reads this
    {
      KeyedById(sessions)
    }

    constructor()
      ensures sessions == map[] && Valid()
    {
      sessions := map[];
    }

    /** Returns the stored session for `sessionId`, inserting a fresh one first when there is none. */
    method GetOrCreateSession(sessionId: string, userType: UserType, identity: Option<string>, now: int) returns (session: ChatSession)
      requires Valid()
      modifies this
      ensures Valid()
      ensures sessions == Opened(old(sessions), sessionId, userType, identity, now)
      ensures session == sessions[sessionId] && session.sessionId == sessionId
      ensures sessionId in old(sessions) ==> session == old(sessions)[sessionId]
    {
      OpenedKeepsKeying(sessions, sessionId, userType, identity, now);
      if sessionId !in sessions {
        var created := NewSession(sessionId, userType, identity, now);
        sessions := sessions[sessionId := created];
      }
      session := sessions[sessionId];
    }

    /** Appends the exchange to the stored session of `session` and sets its identity and user type. */
    method SaveMessage(session: ChatSession, userMessage: string, botMessage: string, userType: UserType, identity: Option<string>, now: int)
      requires Valid()
      modifies this
      ensures Valid()
      ensures sessions == Saved(old(sessions), session.sessionId, userMessage, botMessage, userType, identity, now)
    {
      SavedKeepsKeying(sessions, session.sessionId, userMessage, botMessage, userType, identity, now);
      var id := session.sessionId;
      if id in sessions {
        var stored := sessions[id];
        sessions := sessions[id := stored.(messages := stored.messages + Exchange(userMessage, botMessage, now),
                                           identity := identity, userType := userType)];
      }
    }

    /** A public message: the public prompt with at most 500 tokens; the exchange is saved with no identity. */
    method HandlePublicMessage(sessionId: string, message: string, lookup: string -> Option<PropertySummary>,
                               llm: (string, nat) -> string, now: int) returns (reply: string)
      requires Valid()
      modifies this
      ensures Valid()
      ensures var store := Opened(old(sessions), sessionId, PublicUser, None, now);
        && reply == llm(BuildPrompt(message, BuildContext(store[sessionId], lookup), false), PublicMaxTokens)
        && sessions == Saved(store, sessionId, message, reply, PublicUser, None, now)
    {
      var session := GetOrCreateSession(sessionId, PublicUser, None, now);
      var context := BuildContext(session, lookup);
      reply := llm(BuildPrompt(message, context), PublicMaxTokens);
      SaveMessage(session, message, reply, PublicUser, None, now);
    }

    /** An admin message: the admin prompt with at most 700 tokens; the session carries the admin's email. */
    method HandleAdminMessage(sessionId: string, message: string, adminEmail: string, lookup: string -> Option<PropertySummary>,
                              llm: (string, nat) -> string, now: int) returns (reply: string)
      requires Valid()
      modifies this
      ensures Valid()
      ensures var store := Opened(old(sessions), sessionId, AdminUser, Some(adminEmail), now);
        && reply == llm(BuildPrompt(message, BuildContext(store[sessionId], lookup), true), AdminMaxTokens)
        && sessions == Saved(store, sessionId, message, reply, AdminUser, Some(adminEmail), now)
    {
      var session := GetOrCreateSession(sessionId, AdminUser, Some(adminEmail), now);
      var context := BuildContext(session, lookup);
      reply := llm(BuildPrompt(message, context, true), AdminMaxTokens);
      SaveMessage(session, message, reply, AdminUser, Some(adminEmail), now);
    }
  }
}
