/** The explanation step: flattening the first label result into "key: value"
    lines, choosing the user prompt, and the message list handed to the chat
    model. The chat completion itself is the caller-supplied `complete`. */
module OpenAiCall {
  import opened Text
  import opened JsonValue

  datatype Message = Message(role: string, content: string)

  /** What `explain_drug_from_json` gives back: the model's reply, or an exception
      raised while reading the label document. */
  datatype Reply = Reply(text: string) | Raised

  const SystemMessage := Message("system", "You are a helpful and concise assistant.")

  const PurposeLead := "Here is a medicine purpose: '"
  const QueryLead := "'. User's query: '"
  const QueryInstruction := "Please provide a clear, knowledgeable, and concise answer strictly based on the provided purpose without relying on any external knowledge. Avoid formatting like bold text; use plain text with numbers and decimals as needed."
  const QueryTail := "'. " + QueryInstruction
  /** Written in two pieces so that its first word is a short literal, whose
      characters the verifier can see: PromptsDiffer tells the prompts apart by it. */
  const DefaultQuestion := "Can" + " you briefly explain what condition this medicine is meant to treat and how it helps? "
  const DefaultInstruction := "Please use only the provided content and do not rely on any external knowledge. Keep the response concise, clear, and in plain text without special formatting."
  const DefaultTail := "'. " + DefaultQuestion + DefaultInstruction

  /** `if user_query:` holds for a query that is present and not empty. */
  predicate HasQuery(userQuery: Option<string>): (h: bool)
    ensures h <==> userQuery.Some? && Truthy(JStr(userQuery.value))
  {
    userQuery.Some? && userQuery.value != ""
  }

  /** The user prompt of `OpenAIHandler.send_to_openai`. */
  function UserPrompt(purpose: string, userQuery: Option<string>): (p: string)
    ensures HasQuery(userQuery) ==>
      |p| == |PurposeLead| + |purpose| + |QueryLead| + |userQuery.value| + |QueryTail|
    ensures !HasQuery(userQuery) ==> |p| == |PurposeLead| + |purpose| + |DefaultTail|
  {
    PurposeLead + purpose + PromptTail(userQuery)
  }

  /** What follows the purpose: the quoted query and the query instruction, or the
      default question and instruction. Both open by closing the purpose's quote. */
  function PromptTail(userQuery: Option<string>): (t: string)
    ensures |t| > 0 && t[0] == '\''
  {
    if HasQuery(userQuery) then QueryLead + userQuery.value + QueryTail
    else
      assert DefaultTail[0] == '\'';
      DefaultTail
  }

  /** Both prompts open with the purpose, verbatim, in single quotes. */
  lemma PromptEmbedsPurpose(purpose: string, userQuery: Option<string>)
    ensures var p := UserPrompt(purpose, userQuery);
      |p| > |PurposeLead| + |purpose| &&
      p[..|PurposeLead|] == PurposeLead &&
      p[|PurposeLead|..|PurposeLead| + |purpose|] == purpose &&
      p[|PurposeLead| + |purpose|] == '\''
  {
    QuotedAfterLead(PurposeLead, purpose, PromptTail(userQuery));
  }

  /** The layout of lead + middle + tail, for any three strings. */
  lemma QuotedAfterLead(lead: string, middle: string, tail: string)
    requires |tail| > 0 && tail[0] == '\''
    ensures var p := lead + middle + tail;
      |p| > |lead| + |middle| &&
      p[..|lead|] == lead &&
      p[|lead|..|lead| + |middle|] == middle &&
      p[|lead| + |middle|] == '\''
  {
  }

  /** A non-empty query selects the query prompt, which carries the query right
      after the purpose and ends with the instruction to stay within the purpose. */
  lemma QueryPromptEmbedsQuery(purpose: string, query: string)
    requires query != ""
    ensures var p := UserPrompt(purpose, Some(query));
      var at := |PurposeLead| + |purpose| + |QueryLead|;
      |p| == at + |query| + |QueryTail| &&
      p[at..at + |query|] == query &&
      p[at + |query|..] == QueryTail
  {
    var head := PurposeLead + purpose;
    Regroup(head, QueryLead, query, QueryTail);
    MiddleAt(head + QueryLead, query, QueryTail);
  }

  /** Concatenation regrouped: a + (b + c + d) is (a + b) + c + d. */
  lemma Regroup(a: string, b: string, c: string, d: string)
    ensures a + (b + c + d) == (a + b) + c + d
  {
  }

  /** The layout of a + m + b, for any three strings: m at |a|, then b. */
  lemma MiddleAt(a: string, m: string, b: string)
    ensures var p := a + m + b;
      |p| == |a| + |m| + |b| && p[|a|..|a| + |m|] == m && p[|a| + |m|..] == b
  {
  }

  /** With no query, or an empty one, the prompt is the default one: it does not
      depend on the query and holds nothing but the purpose. */
  lemma DefaultPromptIgnoresQuery(purpose: string, userQuery: Option<string>)
    requires !HasQuery(userQuery)
    ensures UserPrompt(purpose, userQuery) == UserPrompt(purpose, None)
    ensures UserPrompt(purpose, userQuery) == PurposeLead + purpose + DefaultTail
  {
  }

  /** The two prompts never coincide: the tail tells which one was chosen. */
  lemma PromptsDiffer(purpose: string, query: string)
    requires query != ""
    ensures UserPrompt(purpose, Some(query)) != UserPrompt(purpose, None)
  {
    var tq := PromptTail(Some(query));
    var td := PromptTail(None);
    assert tq[3] == QueryLead[3] == 'U';
    assert td[3] == DefaultQuestion[0] == 'C';
    SamePrefixSameRest(PurposeLead + purpose, tq, td);
  }

  /** Two strings with the same beginning are equal only if the rests are. */
  lemma SamePrefixSameRest(a: string, t1: string, t2: string)
    ensures a + t1 == a + t2 ==> t1 == t2
  {
    if a + t1 == a + t2 {
      assert t1 == (a + t1)[|a|..];
    }
  }

  /** The message list sent to the chat model. */
  function Messages(prompt: string): (m: seq<Message>)
    ensures |m| == 2 && m[0] == SystemMessage && m[1].role == "user" && m[1].content == prompt
  {
    [SystemMessage, Message("user", prompt)]
  }

  /** `OpenAIHandler.send_to_openai`: the reply to the fixed system message and
      the selected user prompt. */
  function SendToOpenAi(purpose: string, userQuery: Option<string>, complete: seq<Message> -> string): (reply: string)
    ensures reply == complete([SystemMessage, Message("user", UserPrompt(purpose, userQuery))])
  {
    complete(Messages(UserPrompt(purpose, userQuery)))
  }

  /** `fda_json["results"][0].items()`: the fields of the first result, or None
      where Python raises (not a dict, no "results", an empty or non-list
      "results", a first result that is not a dict). */
  function FirstResultFields(fdaJson: Json): (r: Option<seq<(string, Json)>>)
    ensures r.Some? <==>
      fdaJson.JObj? &&
      (var results := Get(fdaJson.fields, "results");
       results.Some? && results.value.JArr? && results.value.items != [] && results.value.items[0].JObj?)
    ensures r.Some? ==> r.value == Get(fdaJson.fields, "results").value.items[0].fields
  {
    if !fdaJson.JObj? then None
    else
      match Get(fdaJson.fields, "results")
      case None => None
      case Some(results) =>
        match IndexZero(results)
        case Some(JObj(fields)) => Some(fields)
        case _ => None
  }

  /** One line of the context: `f"{key}: {value}"`, the key, a colon and a space,
      then the value's text. */
  function InfoLine(field: (string, Json), repr: Json -> string): (line: string)
    ensures |line| == |field.0| + 2 + |PyStr(field.1, repr)|
  {
    field.0 + ": " + PyStr(field.1, repr)
  }

  /** The line reads back as the key, then ": ", then the value's text. */
  lemma InfoLineLayout(field: (string, Json), repr: Json -> string)
    ensures var line := InfoLine(field, repr);
      var k := |field.0|;
      line[..k] == field.0 && line[k..k + 2] == ": " && line[k + 2..] == PyStr(field.1, repr)
  {
    MiddleAt(field.0, ": ", PyStr(field.1, repr));
  }

  /** The lines of the context, one per field. */
  function InfoLines(fields: seq<(string, Json)>, repr: Json -> string): (lines: seq<string>)
    ensures |lines| == |fields|
    decreases |fields|
  {
    if fields == [] then [] else InfoLines(fields[..|fields| - 1], repr) + [InfoLine(fields[|fields| - 1], repr)]
  }

  /** Line i is the line of field i: the field order is kept. */
  lemma {:induction false} InfoLinesAt(fields: seq<(string, Json)>, repr: Json -> string)
    ensures forall i :: 0 <= i < |fields| ==> InfoLines(fields, repr)[i] == InfoLine(fields[i], repr)
    decreases |fields|
  {
    if fields != [] {
      var n := |fields| - 1;
      var init := fields[..n];
      InfoLinesAt(init, repr);
      var lines := InfoLines(fields, repr);
      assert lines == InfoLines(init, repr) + [InfoLine(fields[n], repr)];
      forall i | 0 <= i < |fields| ensures lines[i] == InfoLine(fields[i], repr) {
        if i < n {
          assert init[i] == fields[i];
        }
      }
    }
  }

  /** The grounding context built from a label document. */
  function Context(fdaJson: Json, repr: Json -> string): (r: Option<string>)
    ensures r.None? <==> FirstResultFields(fdaJson).None?
    ensures r.Some? && FirstResultFields(fdaJson).value == [] ==> r.value == ""
  {
    match FirstResultFields(fdaJson)
    case None => None
    case Some(fields) => Some(Join(InfoLines(fields, repr), "\n"))
  }

  /** Only the first result is read: two documents whose first results agree give
      the same context, whatever their metadata or later results. */
  lemma {:induction false} OnlyFirstResultMatters(a: seq<(string, Json)>, b: seq<(string, Json)>, first: Json, restA: seq<Json>, restB: seq<Json>, repr: Json -> string)
    requires Get(a, "results") == Some(JArr([first] + restA))
    requires Get(b, "results") == Some(JArr([first] + restB))
    ensures Context(JObj(a), repr) == Context(JObj(b), repr)
  {
  }

  /** The context has exactly one "key: value" line per field of the first result,
      separated by "\n" and with no trailing newline: it opens with the first line,
      ends with the last, and holds |fields| - 1 separators. */
  lemma ContextShape(fields: seq<(string, Json)>, repr: Json -> string)
    requires fields != []
    ensures var lines := InfoLines(fields, repr);
      var ctx := Join(lines, "\n");
      |lines| == |fields| &&
      |ctx| == SumLengths(lines) + |fields| - 1 &&
      ctx[..|lines[0]|] == InfoLine(fields[0], repr) &&
      ctx[|ctx| - |lines[|lines| - 1]|..] == InfoLine(fields[|fields| - 1], repr)
  {
    var lines := InfoLines(fields, repr);
    InfoLinesAt(fields, repr);
    JoinStartsWithFirst(lines, "\n");
    JoinEndsWithLast(lines, "\n");
  }

  /** What `explain_drug_from_json` returns: the reply to the prompt built from the
      context, or Raised when the document has no first result to flatten. */
  function Explanation(fdaJson: Json, userQuery: Option<string>, repr: Json -> string,
                       complete: seq<Message> -> string): (r: Reply)
    ensures r == Raised <==> FirstResultFields(fdaJson).None?
  {
    match Context(fdaJson, repr)
    case None => Raised
    case Some(ctx) => Reply(SendToOpenAi(ctx, userQuery, complete))
  }

  /** A document that is a plain string (for instance serialised JSON text) has no
      context: indexing a string with "results" raises TypeError. */
  lemma StringDocumentHasNoContext(text: string, repr: Json -> string)
    ensures Context(JStr(text), repr).None?
  {
  }

  /** `explain_drug_from_json`: builds the context line by line, then asks the chat
      model with the selected prompt. */
  method ExplainDrugFromJson(fdaJson: Json, userQuery: Option<string>, repr: Json -> string,
                             complete: seq<Message> -> string)
    returns (r: Reply)
    ensures r == Explanation(fdaJson, userQuery, repr, complete)
  {
    var first := FirstResultFields(fdaJson);
    if first.None? {
      return Raised;
    }
    var fields := first.value;
    var allInfo: seq<string> := [];
    var i := 0;
    while i < |fields|
      invariant 0 <= i <= |fields|
      invariant allInfo == InfoLines(fields[..i], repr)
    {
      assert fields[..i + 1][..i] == fields[..i];
      allInfo := allInfo + [InfoLine(fields[i], repr)];
      i := i + 1;
    }
    assert fields[..i] == fields;
    var purpose := Join(allInfo, "\n");
    r := Reply(SendToOpenAi(purpose, userQuery, complete));
  }
}
