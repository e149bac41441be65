/** Follow-up questions (user_conversation.py): the cached label text and the user's
    question are put into one prompt, content first. */
module UserConversation {
  import opened Text
  import RedisCache
  import FdaData
  import OpenAiCall

  const ContentLead := "Here is the content:\n"
  const QuestionLead := "\n\nPlease answer the following question based strictly on the content provided above:\n"

  /** `f"{content}"`: a missing cache entry (None) is rendered as the text "None". */
  function ContentText(content: Option<string>): (t: string)
    ensures content.Some? ==> t == content.value
    ensures content.None? ==> t == "None"
  {
    match content
    case None => "None"
    case Some(text) => text
  }

  /** `store_content_and_question(content, question)`. It builds a "question:" key
      and never uses it: nothing is stored, only the prompt is returned. */
  function StoreContentAndQuestion(content: Option<string>, question: string): (prompt: string)
    ensures IsPrefix(ContentLead, prompt)
    ensures |prompt| == |ContentLead| + |ContentText(content)| + |QuestionLead| + |question|
    ensures prompt[|prompt| - |question|..] == question
  {
    ContentLead + ContentText(content) + QuestionLead + question
  }

  /** The prompt opens with the content and ends with the question: the content
      sits at |ContentLead| and the question after it, past the instruction. */
  lemma PromptLayout(content: Option<string>, question: string)
    ensures var prompt := StoreContentAndQuestion(content, question);
      var c := ContentText(content);
      var q := |ContentLead| + |c| + |QuestionLead|;
      |prompt| == q + |question| &&
      prompt[..|ContentLead|] == ContentLead &&
      prompt[|ContentLead|..|ContentLead| + |c|] == c &&
      prompt[|ContentLead| + |c|..q] == QuestionLead &&
      prompt[q..] == question &&
      |ContentLead| + |c| <= q
  {
  }

  /** Once the length of the question is known, the prompt gives back both the
      content and the question. */
  lemma PromptDeterminesParts(c1: string, q1: string, c2: string, q2: string)
    requires |q1| == |q2|
    requires StoreContentAndQuestion(Some(c1), q1) == StoreContentAndQuestion(Some(c2), q2)
    ensures c1 == c2 && q1 == q2
  {
    var p := StoreContentAndQuestion(Some(c1), q1);
    PromptLayout(Some(c1), q1);
    PromptLayout(Some(c2), q2);
    assert |c1| == |c2|;
  }

  /** Moving the middle part m across a boundary: a + c + m + (q + m + r) is also
      a + (c + m + q) + m + r. */
  lemma ShiftAcross(a: string, c: string, m: string, q: string, r: string)
    ensures a + c + m + (q + m + r) == a + (c + m + q) + m + r
  {
    assert a + c + m + (q + m + r) == a + c + m + q + m + r;
  }

  /** Content and question are not separable in general: text that repeats the
      instruction line can move from one to the other without changing the prompt. */
  lemma PromptAmbiguous(c: string, q: string, r: string)
    ensures StoreContentAndQuestion(Some(c), q + QuestionLead + r)
         == StoreContentAndQuestion(Some(c + QuestionLead + q), r)
  {
    ShiftAcross(ContentLead, c, QuestionLead, q, r);
  }

  /** The conversation reads the label cache under the same composite key as the
      identification path, and passes the raw cached text as the content. */
  function ConversationPrompt(store: RedisCache.Store, imprintNumber: string, genericName: string,
                              question: string): (prompt: string)
    reads store
    ensures prompt == StoreContentAndQuestion(store.Get(FdaData.CacheKey(imprintNumber, genericName)), question)
  {
    StoreContentAndQuestion(store.Get(imprintNumber + ":" + genericName), question)
  }

  /** `get_answer_from_openai(prompt)`: the message list sent with the prompt. */
  function AnswerMessages(prompt: string): (m: seq<OpenAiCall.Message>)
    ensures |m| == 2 && m[0] == OpenAiCall.Message("system", "You are a helpful assistant.")
    ensures m[1] == OpenAiCall.Message("user", prompt)
  {
    [OpenAiCall.Message("system", "You are a helpful assistant."), OpenAiCall.Message("user", prompt)]
  }
}
