/** What one callback does to the outside world, as values: the chat
    transport's calls and the settings writes, in the order they happen. */
module Effects {
  import opened Values
  import opened Keyboards

  /** The text a prompt asks for. */
  datatype Prompt = ValuePrompt(key: string) | TokenPrompt

  /** Messages sent to the chat with `send_message`. */
  datatype Notice =
    | Cancelled
    | Saved(key: string, value: string)
    | ThumbnailHint
    | HyperlinksState(on: bool)
    | TokenSaved
    | Clicked(key: string)
    | UseCommand(command: string)
    | ToolSelected(tool: string)

  /** Which edit call changed the panel message. */
  datatype EditVia = ViaCaption | ViaText

  datatype Effect =
    | PremiumRequiredAlert                                   // cq.answer("❌ Premium required", show_alert=True)
    | Ack                                                    // cq.answer()
    | Edit(via: EditVia, caption: Caption, buttons: seq<string>)  // a successful edit of the panel message
    | SendPrompt(prompt: Prompt)                             // the prompt message of _ask_text
    | DeletePrompt                                           // the attempt to delete it
    | Write(key: string, value: Value)                       // _set_setting
    | Notify(notice: Notice)                                 // client.send_message

  /** The effects of one callback, and whether an exception left the handler
      after the last of them. */
  datatype Outcome = Outcome(trace: seq<Effect>, escaped: bool)

  /** The settings writes of a trace, in order. */
  function Writes(t: seq<Effect>): (w: seq<(string, Value)>)
    ensures |w| <= |t|
  {
    if t == [] then []
    else (if t[0].Write? then [(t[0].key, t[0].value)] else []) + Writes(t[1..])
  }

  lemma {:induction false} WritesAppend(a: seq<Effect>, b: seq<Effect>)
    ensures Writes(a + b) == Writes(a) + Writes(b)
  {
    if a == [] {
      assert a + b == b;
    } else {
      var head := if a[0].Write? then [(a[0].key, a[0].value)] else [];
      assert (a + b)[0] == a[0] && (a + b)[1..] == a[1..] + b;
      WritesAppend(a[1..], b);
      assert Writes(a + b) == head + (Writes(a[1..]) + Writes(b));
      assert head + (Writes(a[1..]) + Writes(b)) == (head + Writes(a[1..])) + Writes(b);
    }
  }

  /** A trace without a write effect writes nothing. */
  lemma {:induction false} NoWrites(t: seq<Effect>)
    requires forall e :: e in t ==> !e.Write?
    ensures Writes(t) == []
    decreases |t|
  {
    if t != [] {
      assert t[0] in t;
      forall e | e in t[1..] ensures !e.Write? {
        assert e in t;
      }
      NoWrites(t[1..]);
    }
  }

  /** The writes of a trace that stores one value between effects that do not. */
  lemma {:induction false} WritesOfStoreTrace(before: seq<Effect>, key: string, value: Value, after: Effect)
    requires forall e :: e in before ==> !e.Write?
    requires !after.Write?
    ensures Writes(before + [Write(key, value), after]) == [(key, value)]
    decreases |before|
  {
    if before == [] {
      assert before + [Write(key, value), after] == [Write(key, value)] + [after];
      WritesAppend([Write(key, value)], [after]);
    } else {
      assert (before + [Write(key, value), after])[1..] == before[1..] + [Write(key, value), after];
      WritesOfStoreTrace(before[1..], key, value, after);
    }
  }

  /** The writes of a prompted and confirmed store. */
  lemma AskedTraceWrites(a: Effect, b: Effect, key: string, value: Value, after: Effect)
    requires !a.Write? && !b.Write? && !after.Write?
    ensures Writes([a, b, Write(key, value), after]) == [(key, value)]
  {
    assert [a, b, Write(key, value), after] == [a, b] + [Write(key, value), after];
    WritesOfStoreTrace([a, b], key, value, after);
  }

  /** The writes of an answered, prompted and confirmed store. */
  lemma PromptTraceWrites(a: Effect, b: Effect, c: Effect, key: string, value: Value, after: Effect)
    requires !a.Write? && !b.Write? && !c.Write? && !after.Write?
    ensures Writes([a, b, c, Write(key, value), after]) == [(key, value)]
  {
    assert [a, b, c, Write(key, value), after] == [a, b, c] + [Write(key, value), after];
    WritesOfStoreTrace([a, b, c], key, value, after);
  }

  lemma ConsThree(e: Effect, t: seq<Effect>, a: Effect, b: Effect, c: Effect)
    requires t == [a, b, c]
    ensures [e] + t == [e, a, b, c]
  {
  }

  lemma ConsFour(e: Effect, t: seq<Effect>, a: Effect, b: Effect, c: Effect, d: Effect)
    requires t == [a, b, c, d]
    ensures [e] + t == [e, a, b, c, d]
  {
  }
}
