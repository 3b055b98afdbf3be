/** `_ask_text`: send one prompt, take the next message of the chat, classify
    its text, and delete the prompt whatever happened. */
module PromptSession {
  import opened Values
  import opened PyText
  import opened Effects

  /** The replies that cancel, compared after `strip().lower()`. */
  const CancelWords: set<string> := {"/cancel", "cancel"}

  /** What `client.listen(chat_id)` produced: a message, whose text may be
      absent, or an exception. */
  datatype ListenOutcome = Reply(text: Option<string>) | ListenRaises

  /** How `_ask_text` ends: with a value or `None`, or by propagating the
      exception from `listen`. */
  datatype AskResult = Answered(value: Option<string>) | Propagated

  datatype Session = Session(result: AskResult, trace: seq<Effect>)

  /** The decision part of `_ask_text`: no text or the empty text gives `None`,
      so does a cancel word in any ASCII case; anything else gives the text
      with surrounding whitespace cut and its case kept. */
  function ClassifyReply(text: Option<string>): (r: Option<string>)
    ensures text.None? || text.value == [] ==> r.None?
    ensures r.Some? ==> text.Some? && r.value == Strip(text.value)
    ensures r.Some? ==> Lower(r.value) !in CancelWords
    ensures text.Some? && text.value != [] && Lower(Strip(text.value)) !in CancelWords ==> r.Some?
  {
    if text.None? || text.value == [] then None
    else
      var t := Strip(text.value);
      if Lower(t) in CancelWords then None else Some(t)
  }

  /** A cancel word in any ASCII case, with whitespace around it, cancels. */
  lemma CancelInAnyCase(pre: string, word: string, post: string)
    requires AllSpace(pre) && AllSpace(post) && Lower(word) in CancelWords
    ensures ClassifyReply(Some(pre + word + post)) == None
  {
    var lw := Lower(word);
    assert |word| > 0 && LowerChar(word[0]) == lw[0] && LowerChar(word[|word| - 1]) == lw[|lw| - 1];
    StripSurrounded(pre, word, post);
  }

  /** Text that is not a cancel word comes back as typed, without the
      whitespace around it. */
  lemma PlainReplyKept(pre: string, word: string, post: string)
    requires AllSpace(pre) && AllSpace(post) && word != []
    requires !IsSpace(word[0]) && !IsSpace(word[|word| - 1]) && Lower(word) !in CancelWords
    ensures ClassifyReply(Some(pre + word + post)) == Some(word)
  {
    StripSurrounded(pre, word, post);
  }

  /** A reply of whitespace only is a text, so it is not cancelled: it
      yields the empty string. */
  lemma BlankReplyIsEmptyValue(text: string)
    requires text != [] && AllSpace(text)
    ensures ClassifyReply(Some(text)) == Some([])
  {
    StripSurrounded(text, [], []);
    assert text + [] + [] == text;
    assert Lower([]) == [];
  }

  /** `_ask_text(client, chat_id, prompt)`: exactly one prompt is sent, and its
      deletion is attempted on every path. An exception from that deletion is
      caught and dropped on the spot, so whether it fails can change neither
      the result nor any later effect: the model records only the attempt. */
  function AskText(prompt: Prompt, listen: ListenOutcome): (s: Session)
    ensures s.trace == [SendPrompt(prompt), DeletePrompt]
    ensures s.result.Propagated? <==> listen.ListenRaises?
    ensures listen.Reply? ==> s.result == Answered(ClassifyReply(listen.text))
  {
    var result := match listen
      case ListenRaises => Propagated
      case Reply(text) => Answered(ClassifyReply(text));
    Session(result, [SendPrompt(prompt), DeletePrompt])
  }
}
