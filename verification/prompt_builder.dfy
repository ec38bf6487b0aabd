/** The structured LLM prompt: role instructions, the session context, the user's message. */
module PromptBuilder {
  import opened Wrappers
  import opened ChatMemory
  import Seqs
  import Text

  const AdminInstructions := "You are an admin assistant. Only suggest actions if allowed. Confirm critical operations. Do not hallucinate. Provide clear reasoning."
  const PublicInstructions := "You are a friendly Kenyan real estate assistant. Always provide accurate, concise guidance. Do not give admin access. Always respect privacy."

  function Instructions(isAdmin: bool): string
  {
    if isAdmin then AdminInstructions else PublicInstructions
  }

  predicate NonEmpty(s: string)
  {
    s != ""
  }

  /** `heading + value` when the field is set and non-empty, "" otherwise. */
  function FieldLine(heading: string, field: Option<string>): string
  {
    if field.Some? && field.value != "" then heading + field.value else ""
  }

  /** The six candidate context lines in their fixed order; an optional one is "" when its field is empty. */
  function CandidateLines(session: ChatSession): seq<string>
  {
    [ "Session ID: " + session.sessionId,
      "User Type: " + UserTypeName(session.userType),
      FieldLine("Identity: ", session.identity),
      FieldLine("Last Intent: ", session.lastIntent),
      FieldLine("Journey Stage: ", session.journeyStage),
      if |session.viewedProperties| > 0 then "Viewed Properties: " + Text.Join(session.viewedProperties, ", ") else "" ]
  }

  /** The context lines: the candidates with the empty ones dropped. */
  function ContextLines(session: ChatSession): seq<string>
  {
    Seqs.Filter(NonEmpty, CandidateLines(session))
  }

  /** The line `heading + value` when the field is set and non-empty, no line otherwise. */
  function OptionalField(heading: string, field: Option<string>): seq<string>
  {
    if Truthy(field) then [heading + field.value] else []
  }

  /** What the filter keeps of one candidate. */
  function Kept(line: string): seq<string>
  {
    if NonEmpty(line) then [line] else []
  }

  lemma FilterSix(a: string, b: string, c: string, d: string, e: string, f: string)
    ensures Seqs.Filter(NonEmpty, [a, b, c, d, e, f]) == Kept(a) + (Kept(b) + (Kept(c) + (Kept(d) + (Kept(e) + Kept(f)))))
  {
    var s5 := [f];
    var s4 := [e] + s5;
    var s3 := [d] + s4;
    var s2 := [c] + s3;
    var s1 := [b] + s2;
    var s0 := [a] + s1;
    assert s0 == [a, b, c, d, e, f];
    Seqs.FilterCons(NonEmpty, f, []);
    assert s5 == [f] + [];
    Seqs.FilterCons(NonEmpty, e, s5);
    Seqs.FilterCons(NonEmpty, d, s4);
    Seqs.FilterCons(NonEmpty, c, s3);
    Seqs.FilterCons(NonEmpty, b, s2);
    Seqs.FilterCons(NonEmpty, a, s1);
  }

  lemma KeptField(heading: string, field: Option<string>)
    requires heading != ""
    ensures Kept(FieldLine(heading, field)) == OptionalField(heading, field)
  {
  }

  /**
   * The context, line by line: Session ID and User Type always come first, then Identity, Last Intent
   * and Journey Stage each only when set, then Viewed Properties only for a non-empty list.
   */
  lemma ContextLayout(session: ChatSession)
    ensures ContextLines(session) ==
      ["Session ID: " + session.sessionId]
      + (["User Type: " + UserTypeName(session.userType)]
      + (OptionalField("Identity: ", session.identity)
      + (OptionalField("Last Intent: ", session.lastIntent)
      + (OptionalField("Journey Stage: ", session.journeyStage)
      + (if |session.viewedProperties| > 0 then ["Viewed Properties: " + Text.Join(session.viewedProperties, ", ")] else [])))))
  {
    var c := CandidateLines(session);
    FilterSix(c[0], c[1], c[2], c[3], c[4], c[5]);
    assert c == [c[0], c[1], c[2], c[3], c[4], c[5]];
    KeptField("Identity: ", session.identity);
    KeptField("Last Intent: ", session.lastIntent);
    KeptField("Journey Stage: ", session.journeyStage);
  }

  /** The context always has its Session ID line. */
  lemma ContextNotEmpty(session: ChatSession)
    ensures ContextLines(session) != []
  {
    var c := CandidateLines(session);
    assert c[0] in c && NonEmpty(c[0]);
  }

  /** The prompt; `isAdmin` defaults to the public instructions. */
  function BuildPrompt(session: ChatSession, userMessage: string, isAdmin: bool := false): string
  {
    "\n" + Instructions(isAdmin) + "\n\nContext:\n" + Text.Join(ContextLines(session), "\n")
      + "\n\nUser Message:\n" + userMessage + "\n\nAnswer:"
  }

  /** The prompt, line by line. */
  function PromptLines(session: ChatSession, userMessage: string, isAdmin: bool): seq<string>
  {
    ["", Instructions(isAdmin), "", "Context:"] + ContextLines(session) + ["", "User Message:", userMessage, "", "Answer:"]
  }

  /** Five lines joined, for any lines. */
  lemma JoinFive(a: string, b: string, c: string, d: string, e: string, sep: string)
    ensures Text.Join([a, b, c, d, e], sep) == a + sep + (b + sep + (c + sep + (d + sep + e)))
  {
    Text.JoinCons(d, [e], sep);
    Text.JoinCons(c, [d, e], sep);
    Text.JoinCons(b, [c, d, e], sep);
    Text.JoinCons(a, [b, c, d, e], sep);
  }

  lemma TailText(userMessage: string)
    ensures "" + "\n" + ("User Message:" + "\n" + (userMessage + "\n" + ("" + "\n" + "Answer:")))
      == "\nUser Message:\n" + userMessage + "\n\nAnswer:"
  {
  }

  lemma PromptTail(userMessage: string)
    ensures Text.Join(["", "User Message:", userMessage, "", "Answer:"], "\n") == "\nUser Message:\n" + userMessage + "\n\nAnswer:"
  {
    JoinFive("", "User Message:", userMessage, "", "Answer:", "\n");
    TailText(userMessage);
  }

  lemma PromptHead(instructions: string)
    ensures Text.Join(["", instructions, "", "Context:"], "\n") == "\n" + instructions + "\n\nContext:"
  {
    Text.JoinCons("", ["Context:"], "\n");
    Text.JoinCons(instructions, ["", "Context:"], "\n");
    Text.JoinCons("", [instructions, "", "Context:"], "\n");
  }

  lemma PromptPieces(instructions: string, context: string, userMessage: string)
    ensures "\n" + instructions + "\n\nContext:\n" + context + "\n\nUser Message:\n" + userMessage + "\n\nAnswer:"
      == ("\n" + instructions + "\n\nContext:") + "\n" + context + "\n" + ("\nUser Message:\n" + userMessage + "\n\nAnswer:")
  {
    assert "\n\nContext:\n" == "\n\nContext:" + "\n";
    assert "\n\nUser Message:\n" == "\n" + "\nUser Message:\n";
  }

  /** The layout for any instructions, context lines and message. */
  lemma LayoutOf(instructions: string, context: seq<string>, userMessage: string)
    requires context != []
    ensures Text.Join(["", instructions, "", "Context:"] + context + ["", "User Message:", userMessage, "", "Answer:"], "\n")
      == "\n" + instructions + "\n\nContext:\n" + Text.Join(context, "\n") + "\n\nUser Message:\n" + userMessage + "\n\nAnswer:"
  {
    var head := ["", instructions, "", "Context:"];
    var tail := ["", "User Message:", userMessage, "", "Answer:"];
    PromptHead(instructions);
    PromptTail(userMessage);
    Text.JoinConcat(head, context, "\n");
    Text.JoinConcat(head + context, tail, "\n");
    PromptPieces(instructions, Text.Join(context, "\n"), userMessage);
  }

  /**
   * The prompt is, one per line: an empty line, the instructions (the admin ones exactly when `isAdmin`),
   * an empty line, "Context:", the context lines, an empty line, "User Message:", the message, an empty
   * line and "Answer:".
   */
  lemma PromptLayout(session: ChatSession, userMessage: string, isAdmin: bool)
    ensures Text.Join(PromptLines(session, userMessage, isAdmin), "\n") == BuildPrompt(session, userMessage, isAdmin)
    ensures PromptLines(session, userMessage, isAdmin)[1] == if isAdmin then AdminInstructions else PublicInstructions
  {
    ContextNotEmpty(session);
    LayoutOf(Instructions(isAdmin), ContextLines(session), userMessage);
  }
}
