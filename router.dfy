/** The routing of `premium_callbacks`: decode the callback payload, then
    decide the effects from the authorisation verdict, the user's current
    settings and what the chat transport did. */
module Router {
  import opened Values
  import opened PyText
  import opened Keyboards
  import opened Effects
  import opened PromptSession

  /** The settings collected as free text under their own key. */
  const FreeTextKeys: set<string> := {"font_color", "font_style", "file_name", "add_credit",
                                      "pdf_watermark", "video_watermark", "video_quality", "auto_topic"}
  /** The settings that ask for a photo. */
  const ThumbnailKeys: set<string> := {"pdf_thumb", "video_thumb"}
  const HyperlinksKey: string := "pdf_hyperlinks"
  /** The button key of the token setting, and the key the token is stored under. */
  const TokenButton: string := "set_token"
  const TokenKey: string := "token"

  /** What the chat transport does during one callback. */
  datatype Transport = Transport(captionEditRaises: bool, textEditRaises: bool, listen: ListenOutcome)

  /** A callback payload, in the order `premium_callbacks` tests it. */
  datatype Action = Navigate(target: Panel) | Setting(key: string) | Command(cmd: string) | Unmatched

  /** How a `ps:` key is handled. */
  datatype SettingKind = FreeText | Thumbnail | Toggle | Token | Other

  /** Decoding of a payload: the three `menu:` payloads exactly, then the
      `ps:` prefix, then the `pc:` prefix; never fails. */
  function Decode(data: string): (a: Action)
    ensures a.Navigate? ==> data == NavPayload(a.target)
    ensures a.Setting? ==> data == "ps:" + a.key
    ensures a.Command? ==> data == "pc:" + a.cmd && !("ps:" <= data)
    ensures a.Unmatched? ==> !("ps:" <= data) && !("pc:" <= data) && forall p :: data != NavPayload(p)
  {
    if data == "menu:main" then Navigate(Main)
    else if data == "menu:premium_settings" then Navigate(PremiumSettings)
    else if data == "menu:premium_commands" then Navigate(PremiumCommands)
    else if "ps:" <= data then
      SplitAfterPrefix(data, "ps:");
      assert data == "ps:" + data[3..];
      Setting(SplitOnce(data, "ps:")[1])
    else if "pc:" <= data then
      SplitAfterPrefix(data, "pc:");
      assert data == "pc:" + data[3..];
      Command(SplitOnce(data, "pc:")[1])
    else Unmatched
  }

  /** How the `ps:` branch treats a key. The classes do not overlap, so each
      kind is chosen exactly for its own keys, and only an unknown key is `Other`. */
  function KindOf(key: string): (k: SettingKind)
    ensures k == FreeText <==> key in FreeTextKeys
    ensures k == Thumbnail <==> key in ThumbnailKeys
    ensures k == Toggle <==> key == HyperlinksKey
    ensures k == Token <==> key == TokenButton
    ensures k == Other <==> key !in FreeTextKeys + ThumbnailKeys + {HyperlinksKey, TokenButton}
  {
    KeyClassesDisjoint();
    if key in FreeTextKeys then FreeText
    else if key in ThumbnailKeys then Thumbnail
    else if key == HyperlinksKey then Toggle
    else if key == TokenButton then Token
    else Other
  }

  /** The notice a command button sends: which slash command to use. */
  function CommandNotice(cmd: string): (n: Notice)
    ensures n == UseCommand("/t2t") <==> cmd == "t2t"
    ensures n == UseCommand("/t2h") <==> cmd == "html_formatter"
    ensures n.UseCommand? || n == ToolSelected(cmd)
  {
    if cmd == "t2t" then UseCommand("/t2t")
    else if cmd == "html_formatter" then UseCommand("/t2h")
    else ToolSelected(cmd)
  }

  /** The key a collected value is stored under. */
  function TargetKey(prompt: Prompt): string
  {
    match prompt
    case ValuePrompt(key) => key
    case TokenPrompt => TokenKey
  }

  function Confirmation(prompt: Prompt, value: string): Notice
  {
    match prompt
    case ValuePrompt(key) => Saved(key, value)
    case TokenPrompt => TokenSaved
  }

  /** Prefix an effect to an outcome. */
  function Then(e: Effect, o: Outcome): Outcome
  {
    Outcome([e] + o.trace, o.escaped)
  }

  /** A menu button: `edit_caption`, and `edit_text` only when that raises,
      then `cq.answer()`; an exception from `edit_text` escapes unanswered. */
  function Render(p: Panel, io: Transport): (o: Outcome)
    ensures o.escaped <==> io.captionEditRaises && io.textEditRaises
    ensures o.escaped ==> o.trace == []
    ensures !o.escaped ==> o.trace == [Edit(if io.captionEditRaises then ViaText else ViaCaption, CaptionOf(p), ButtonsOf(p)), Ack]
  {
    if !io.captionEditRaises then Outcome([Edit(ViaCaption, CaptionOf(p), ButtonsOf(p)), Ack], false)
    else if !io.textEditRaises then Outcome([Edit(ViaText, CaptionOf(p), ButtonsOf(p)), Ack], false)
    else Outcome([], true)
  }

  /** Ask for a value and store it under the prompt's key, or report the
      cancellation and store nothing. */
  function Collect(prompt: Prompt, io: Transport): (o: Outcome)
    // an exception from listen escapes after the prompt was deleted, nothing stored
    ensures io.listen.ListenRaises? ==> o == Outcome([SendPrompt(prompt), DeletePrompt], true)
    // a cancelled or empty reply is reported, and nothing is stored
    ensures io.listen.Reply? && ClassifyReply(io.listen.text).None? ==>
              o == Outcome([SendPrompt(prompt), DeletePrompt, Notify(Cancelled)], false)
    // a value is stored under the prompt's key, then confirmed
    ensures io.listen.Reply? && ClassifyReply(io.listen.text).Some? ==>
              var v := ClassifyReply(io.listen.text).value;
              o == Outcome([SendPrompt(prompt), DeletePrompt, Write(TargetKey(prompt), VStr(v)), Notify(Confirmation(prompt, v))], false)
  {
    var s := AskText(prompt, io.listen);
    match s.result
    case Propagated => Outcome(s.trace, true)
    case Answered(None) => Outcome(s.trace + [Notify(Cancelled)], false)
    case Answered(Some(v)) => Outcome(s.trace + [Write(TargetKey(prompt), VStr(v)), Notify(Confirmation(prompt, v))], false)
  }

  /** Collecting a value stores at most that one value, under the prompt's key. */
  lemma CollectWrites(prompt: Prompt, io: Transport)
    ensures var o := Collect(prompt, io);
      |Writes(o.trace)| <= 1 && forall kv :: kv in Writes(o.trace) ==> kv.0 == TargetKey(prompt)
  {
    match io.listen
    case ListenRaises =>
      NoWrites([SendPrompt(prompt), DeletePrompt]);
    case Reply(text) =>
      match ClassifyReply(text)
      case None =>
        CollectCancelledTrace(prompt, io);
        NoWrites([SendPrompt(prompt), DeletePrompt, Notify(Cancelled)]);
      case Some(v) =>
        CollectStoredTrace(prompt, io, v);
        AskedTraceWrites(SendPrompt(prompt), DeletePrompt, TargetKey(prompt), VStr(v), Notify(Confirmation(prompt, v)));
  }

  /** A `ps:` button, after the query was answered. */
  function SettingRoute(key: string, current: map<string, Value>, io: Transport): (o: Outcome)
    // the generic "Clicked" reply is sent exactly for a key of no known class
    ensures Notify(Clicked(key)) in o.trace <==> KindOf(key) == Other
    // only a prompt whose `listen` raised lets an exception out
    ensures o.escaped <==> (KindOf(key) == FreeText || KindOf(key) == Token) && io.listen.ListenRaises?
    // a thumbnail button only sends the photo hint, and an unknown key only the "Clicked" reply
    ensures KindOf(key) == Thumbnail ==> o == Outcome([Notify(ThumbnailHint)], false)
    ensures KindOf(key) == Other ==> o == Outcome([Notify(Clicked(key))], false)
  {
    match KindOf(key)
    case FreeText => CollectNeverClicks(ValuePrompt(key), io, key); Collect(ValuePrompt(key), io)
    case Thumbnail => Outcome([Notify(ThumbnailHint)], false)
    case Toggle =>
      var on := !Truthy(Get(current, HyperlinksKey, VBool(false)));
      Outcome([Write(HyperlinksKey, VBool(on)), Notify(HyperlinksState(on))], false)
    case Token => CollectNeverClicks(TokenPrompt, io, key); Collect(TokenPrompt, io)
    case Other => Outcome([Notify(Clicked(key))], false)
  }

  /** A prompt never sends the generic "Clicked" reply, and it lets an
      exception out exactly when `listen` raised. */
  lemma CollectNeverClicks(prompt: Prompt, io: Transport, key: string)
    ensures Notify(Clicked(key)) !in Collect(prompt, io).trace
    ensures Collect(prompt, io).escaped <==> io.listen.ListenRaises?
  {
    if io.listen.ListenRaises? {
      RaisedNeverClicks(prompt, io, key);
    } else if ClassifyReply(io.listen.text).None? {
      CancelledNeverClicks(prompt, io, key);
    } else {
      StoredNeverClicks(prompt, io, key, ClassifyReply(io.listen.text).value);
    }
  }

  lemma RaisedNeverClicks(prompt: Prompt, io: Transport, key: string)
    requires io.listen.ListenRaises?
    ensures Notify(Clicked(key)) !in Collect(prompt, io).trace && Collect(prompt, io).escaped
  {
  }

  lemma CancelledNeverClicks(prompt: Prompt, io: Transport, key: string)
    requires io.listen.Reply? && ClassifyReply(io.listen.text).None?
    ensures Notify(Clicked(key)) !in Collect(prompt, io).trace && !Collect(prompt, io).escaped
  {
    CollectCancelledTrace(prompt, io);
  }

  lemma StoredNeverClicks(prompt: Prompt, io: Transport, key: string, value: string)
    requires io.listen.Reply? && ClassifyReply(io.listen.text) == Some(value)
    ensures Notify(Clicked(key)) !in Collect(prompt, io).trace && !Collect(prompt, io).escaped
  {
    CollectStoredTrace(prompt, io, value);
    assert Confirmation(prompt, value) != Clicked(key);
  }

  /** A `ps:` button stores at most one value, under a known settings key. */
  lemma SettingRouteWrites(key: string, current: map<string, Value>, io: Transport)
    ensures var w := Writes(SettingRoute(key, current, io).trace);
      && |w| <= 1
      && (forall kv :: kv in w ==> kv.0 in FreeTextKeys || kv.0 == HyperlinksKey || kv.0 == TokenKey)
      && (w != [] ==> KindOf(key) == FreeText || KindOf(key) == Toggle || KindOf(key) == Token)
  {
    match KindOf(key)
    case FreeText => CollectWrites(ValuePrompt(key), io);
    case Thumbnail => NoWrites([Notify(ThumbnailHint)]);
    case Toggle =>
      var on := !Truthy(Get(current, HyperlinksKey, VBool(false)));
      assert [Write(HyperlinksKey, VBool(on)), Notify(HyperlinksState(on))] == [] + [Write(HyperlinksKey, VBool(on)), Notify(HyperlinksState(on))];
      WritesOfStoreTrace([], HyperlinksKey, VBool(on), Notify(HyperlinksState(on)));
    case Token => CollectWrites(TokenPrompt, io);
    case Other => NoWrites([Notify(Clicked(key))]);
  }

  /** `premium_callbacks` for one callback query whose payload is `data`
      (`cq.data or ""`). An unmatched payload is answered with a bare
      acknowledgement. That is an assumption: the final `cq.answer()` of the
      source (line 259) is indented less than the handler's body, so no
      source line guarantees it. */
  function Route(authorized: bool, data: Option<string>, current: map<string, Value>, io: Transport): (r: Outcome)
    // an unauthorised user gets the alert and nothing else, whatever the payload
    ensures !authorized ==> r == Outcome([PremiumRequiredAlert], false)
    // the query is answered unless edit_text raised on a menu button
    ensures authorized && Ack !in r.trace ==> r.escaped && Decode(data.GetOr("")).Navigate?
  {
    if !authorized then Outcome([PremiumRequiredAlert], false)
    else
      match Decode(data.GetOr(""))
      case Navigate(p) => Render(p, io)
      case Setting(key) => Then(Ack, SettingRoute(key, current, io))
      case Command(cmd) => Outcome([Ack, Notify(CommandNotice(cmd))], false)
      case Unmatched => Outcome([Ack], false)
  }

  /** A callback stores at most one value, only under a known settings key,
      and only for an authorised user pressing a `ps:` button. */
  lemma RouteWrites(authorized: bool, data: Option<string>, current: map<string, Value>, io: Transport)
    ensures var w := Writes(Route(authorized, data, current, io).trace);
      && |w| <= 1
      && (forall kv :: kv in w ==> kv.0 in FreeTextKeys || kv.0 == HyperlinksKey || kv.0 == TokenKey)
      && (w != [] ==> authorized && "ps:" <= data.GetOr(""))
  {
    var r := Route(authorized, data, current, io);
    if !authorized {
      NoWrites([PremiumRequiredAlert]);
    } else {
      match Decode(data.GetOr(""))
      case Navigate(p) =>
        NoWrites(Render(p, io).trace);
      case Setting(key) =>
        var o := SettingRoute(key, current, io);
        SettingRouteWrites(key, current, io);
        WritesAppend([Ack], o.trace);
        NoWrites([Ack]);
      case Command(cmd) =>
        NoWrites([Ack, Notify(CommandNotice(cmd))]);
      case Unmatched =>
        NoWrites([Ack]);
    }
  }

  // ---- Decoding: payloads and actions are inverse ----

  lemma DecodeNavPayload(p: Panel)
    ensures Decode(NavPayload(p)) == Navigate(p)
  {
  }

  /** `key` is the payload without its three-character `ps:` prefix. */
  lemma DecodeSettingPayload(key: string)
    ensures Decode("ps:" + key) == Setting(key)
  {
    var d := "ps:" + key;
    assert d[0] == 'p' && d[1] == 's';
    assert "ps:" <= d;
    assert d[3..] == key;
  }

  /** `cmd` is the payload without its three-character `pc:` prefix. */
  lemma DecodeCommandPayload(cmd: string)
    ensures Decode("pc:" + cmd) == Command(cmd)
  {
    var d := "pc:" + cmd;
    assert d[0] == 'p' && d[1] == 'c';
    assert "pc:" <= d;
    assert d[3..] == cmd;
  }

  // ---- The keyboards ----

  /** The twelve settings keys split exactly into the eight free-text keys,
      the two thumbnail keys, the hyperlinks toggle and the token. */
  lemma SettingsKeysPartition(k: string)
    ensures k in SettingsKeys <==> k in FreeTextKeys + ThumbnailKeys + {HyperlinksKey, TokenButton}
    ensures FreeTextKeys !! ThumbnailKeys
    ensures HyperlinksKey !in FreeTextKeys + ThumbnailKeys && TokenButton !in FreeTextKeys + ThumbnailKeys
    ensures HyperlinksKey != TokenButton
  {
    if k in SettingsKeys {
      SettingsKeyKnown(k);
    } else if k in FreeTextKeys + ThumbnailKeys + {HyperlinksKey, TokenButton} {
      KnownKeyOnKeyboard(k);
    }
    KeyClassesDisjoint();
  }

  lemma SettingsKeyKnown(k: string)
    requires k in SettingsKeys
    ensures k in FreeTextKeys + ThumbnailKeys + {HyperlinksKey, TokenButton}
  {
  }

  lemma KnownKeyOnKeyboard(k: string)
    requires k in FreeTextKeys + ThumbnailKeys + {HyperlinksKey, TokenButton}
    ensures k in SettingsKeys
  {
  }

  // The disjointness half of SettingsKeysPartition, without the keyboard,
  // for KindOf and the routing lemmas.
  lemma KeyClassesDisjoint()
    ensures FreeTextKeys !! ThumbnailKeys
    ensures HyperlinksKey !in FreeTextKeys + ThumbnailKeys && TokenButton !in FreeTextKeys + ThumbnailKeys
    ensures HyperlinksKey != TokenButton
  {
  }

  /** A payload reaches an explicit branch of `premium_callbacks`: it is not
      unmatched, and a settings key does not fall to the generic "Clicked" reply. */
  predicate Routed(data: string)
  {
    !Decode(data).Unmatched? && (Decode(data).Setting? ==> KindOf(Decode(data).key) != Other)
  }

  lemma KnownSettingRouted(key: string)
    requires key in FreeTextKeys + ThumbnailKeys + {HyperlinksKey, TokenButton}
    ensures Routed("ps:" + key)
  {
    DecodeSettingPayload(key);
  }

  /** Every button of the three keyboards reaches an explicit branch. */
  lemma EveryButtonRouted(d: string)
    requires d in SettingsButtons + CommandsButtons + MainButtons
    ensures Routed(d)
  {
    SettingsKeyboardShape();
    CommandsKeyboardShape();
    var settings := Prefixed("ps:", SettingsKeys);
    var commands := Prefixed("pc:", CommandIds);
    assert d in settings || d in commands || d == NavPayload(Main) || d in MainButtons;
    if d in settings {
      var i :| 0 <= i < |SettingsKeys| && d == settings[i];
      SettingsKeyKnown(SettingsKeys[i]);
      KnownSettingRouted(SettingsKeys[i]);
    } else if d in commands {
      var i :| 0 <= i < |CommandIds| && d == commands[i];
      DecodeCommandPayload(CommandIds[i]);
    } else if d == NavPayload(Main) {
      DecodeNavPayload(Main);
    } else {
      assert d == NavPayload(PremiumSettings) || d == NavPayload(PremiumCommands);
      DecodeNavPayload(PremiumSettings);
      DecodeNavPayload(PremiumCommands);
    }
  }

  // ---- Routing ----

  /** A menu button renders its panel's fixed caption and keyboard, whatever
      the settings and the prompt machinery: showing a panel twice shows the
      same thing. */
  lemma NavigationRendersTarget(p: Panel, current1: map<string, Value>, current2: map<string, Value>,
                                io1: Transport, io2: Transport)
    requires io1.captionEditRaises == io2.captionEditRaises && io1.textEditRaises == io2.textEditRaises
    ensures Route(true, Some(NavPayload(p)), current1, io1) == Render(p, io1)
    ensures Route(true, Some(NavPayload(p)), current1, io1) == Route(true, Some(NavPayload(p)), current2, io2)
  {
    DecodeNavPayload(p);
  }

  /** A command button answers the query and names the command to use:
      `/t2t` for `t2t`, `/t2h` for `html_formatter`, otherwise the tool. */
  lemma CommandRouting(cmd: string, current: map<string, Value>, io: Transport)
    ensures Route(true, Some("pc:" + cmd), current, io) == Outcome([Ack, Notify(CommandNotice(cmd))], false)
    ensures cmd == "t2t" ==> CommandNotice(cmd) == UseCommand("/t2t")
    ensures cmd == "html_formatter" ==> CommandNotice(cmd) == UseCommand("/t2h")
    ensures cmd != "t2t" && cmd != "html_formatter" ==> CommandNotice(cmd) == ToolSelected(cmd)
  {
    DecodeCommandPayload(cmd);
  }

  /** A `ps:` button from an authorised user answers the query first. */
  lemma RouteSetting(key: string, current: map<string, Value>, io: Transport)
    ensures Route(true, Some("ps:" + key), current, io) == Then(Ack, SettingRoute(key, current, io))
  {
    DecodeSettingPayload(key);
  }

  /** A free-text setting with a usable reply: answer, prompt, delete the
      prompt, store the trimmed text under the same key, confirm key and value. */
  lemma FreeTextSaved(key: string, current: map<string, Value>, io: Transport, value: string)
    requires key in FreeTextKeys
    requires io.listen.Reply? && ClassifyReply(io.listen.text) == Some(value)
    ensures Route(true, Some("ps:" + key), current, io)
         == Outcome([Ack, SendPrompt(ValuePrompt(key)), DeletePrompt, Write(key, VStr(value)), Notify(Saved(key, value))], false)
    ensures Writes(Route(true, Some("ps:" + key), current, io).trace) == [(key, VStr(value))]
  {
    FreeTextOutcome(key, current, io, value);
    PromptTraceWrites(Ack, SendPrompt(ValuePrompt(key)), DeletePrompt, key, VStr(value), Notify(Saved(key, value)));
  }

  // The outcome half of FreeTextSaved, proved on its own so that each proof stays small.
  lemma FreeTextOutcome(key: string, current: map<string, Value>, io: Transport, value: string)
    requires key in FreeTextKeys
    requires io.listen.Reply? && ClassifyReply(io.listen.text) == Some(value)
    ensures Route(true, Some("ps:" + key), current, io)
         == Outcome([Ack, SendPrompt(ValuePrompt(key)), DeletePrompt, Write(key, VStr(value)), Notify(Saved(key, value))], false)
  {
    FreeTextKind(key);
    PromptedSetting(key, current, io, ValuePrompt(key));
    CollectStored(ValuePrompt(key), io, value);
  }

  /** A `ps:` button that prompts: the answer comes first, then the prompt. */
  lemma PromptedSetting(key: string, current: map<string, Value>, io: Transport, prompt: Prompt)
    requires KindOf(key) == FreeText || KindOf(key) == Token
    requires prompt == if KindOf(key) == Token then TokenPrompt else ValuePrompt(key)
    ensures Route(true, Some("ps:" + key), current, io) == Then(Ack, Collect(prompt, io))
  {
    assert SettingRoute(key, current, io) == Collect(prompt, io);
    RouteSetting(key, current, io);
  }

  lemma CollectStored(prompt: Prompt, io: Transport, value: string)
    requires io.listen.Reply? && ClassifyReply(io.listen.text) == Some(value)
    ensures Then(Ack, Collect(prompt, io))
         == Outcome([Ack, SendPrompt(prompt), DeletePrompt, Write(TargetKey(prompt), VStr(value)), Notify(Confirmation(prompt, value))], false)
  {
    CollectStoredTrace(prompt, io, value);
    ConsFour(Ack, Collect(prompt, io).trace,
             SendPrompt(prompt), DeletePrompt, Write(TargetKey(prompt), VStr(value)), Notify(Confirmation(prompt, value)));
  }

  lemma CollectStoredTrace(prompt: Prompt, io: Transport, value: string)
    requires io.listen.Reply? && ClassifyReply(io.listen.text) == Some(value)
    ensures Collect(prompt, io).trace
         == [SendPrompt(prompt), DeletePrompt, Write(TargetKey(prompt), VStr(value)), Notify(Confirmation(prompt, value))]
  {
  }

  lemma CollectCancelled(prompt: Prompt, io: Transport)
    requires io.listen.Reply? && ClassifyReply(io.listen.text).None?
    ensures Then(Ack, Collect(prompt, io)) == Outcome([Ack, SendPrompt(prompt), DeletePrompt, Notify(Cancelled)], false)
  {
    CollectCancelledTrace(prompt, io);
    ConsThree(Ack, Collect(prompt, io).trace, SendPrompt(prompt), DeletePrompt, Notify(Cancelled));
  }

  lemma CollectCancelledTrace(prompt: Prompt, io: Transport)
    requires io.listen.Reply? && ClassifyReply(io.listen.text).None?
    ensures Collect(prompt, io).trace == [SendPrompt(prompt), DeletePrompt, Notify(Cancelled)]
  {
  }

  lemma FreeTextKind(key: string)
    requires key in FreeTextKeys
    ensures KindOf(key) == FreeText
  {
  }

  /** The token is stored under `token`, not under its button key. */
  lemma TokenStoredUnderToken(current: map<string, Value>, io: Transport, value: string)
    requires io.listen.Reply? && ClassifyReply(io.listen.text) == Some(value)
    ensures Route(true, Some("ps:" + TokenButton), current, io)
         == Outcome([Ack, SendPrompt(TokenPrompt), DeletePrompt, Write(TokenKey, VStr(value)), Notify(TokenSaved)], false)
  {
    TokenOutcome(TokenButton, current, io, value);
  }

  // TokenStoredUnderToken for a key variable equal to the literal button key;
  // the literal payload is only unfolded here, which keeps the proof small.
  lemma TokenOutcome(key: string, current: map<string, Value>, io: Transport, value: string)
    requires key == TokenButton
    requires io.listen.Reply? && ClassifyReply(io.listen.text) == Some(value)
    ensures Route(true, Some("ps:" + key), current, io)
         == Outcome([Ack, SendPrompt(TokenPrompt), DeletePrompt, Write(TokenKey, VStr(value)), Notify(TokenSaved)], false)
  {
    assert KindOf(key) == Token;
    PromptedSetting(key, current, io, TokenPrompt);
    CollectStored(TokenPrompt, io, value);
  }

  /** A cancelled or empty reply to a text prompt is reported and stores nothing. */
  lemma CancelledReplyStoresNothing(key: string, current: map<string, Value>, io: Transport)
    requires KindOf(key) == FreeText || KindOf(key) == Token
    requires io.listen.Reply? && ClassifyReply(io.listen.text).None?
    ensures Writes(Route(true, Some("ps:" + key), current, io).trace) == []
    ensures Route(true, Some("ps:" + key), current, io)
         == Outcome([Ack, SendPrompt(if KindOf(key) == Token then TokenPrompt else ValuePrompt(key)), DeletePrompt, Notify(Cancelled)], false)
  {
    var prompt := if KindOf(key) == Token then TokenPrompt else ValuePrompt(key);
    CancelledOutcome(key, current, io, prompt);
    NoWrites([Ack, SendPrompt(prompt), DeletePrompt, Notify(Cancelled)]);
  }

  // The outcome half of CancelledReplyStoresNothing, proved on its own so that each proof stays small.
  lemma CancelledOutcome(key: string, current: map<string, Value>, io: Transport, prompt: Prompt)
    requires KindOf(key) == FreeText || KindOf(key) == Token
    requires prompt == if KindOf(key) == Token then TokenPrompt else ValuePrompt(key)
    requires io.listen.Reply? && ClassifyReply(io.listen.text).None?
    ensures Route(true, Some("ps:" + key), current, io) == Outcome([Ack, SendPrompt(prompt), DeletePrompt, Notify(Cancelled)], false)
  {
    PromptedSetting(key, current, io, prompt);
    CollectCancelled(prompt, io);
  }

  /** The hyperlinks toggle stores the negation of the current value's truth
      (absent reads as false) and reports ON exactly when it stored true. */
  lemma ToggleNegates(current: map<string, Value>, io: Transport)
    ensures var on := !Truthy(Get(current, HyperlinksKey, VBool(false)));
      Route(true, Some("ps:" + HyperlinksKey), current, io)
      == Outcome([Ack, Write(HyperlinksKey, VBool(on)), Notify(HyperlinksState(on))], false)
    ensures var on := !Truthy(Get(current, HyperlinksKey, VBool(false)));
      Writes(Route(true, Some("ps:" + HyperlinksKey), current, io).trace) == [(HyperlinksKey, VBool(on))]
  {
    var on := !Truthy(Get(current, HyperlinksKey, VBool(false)));
    WritesOfStoreTrace([Ack], HyperlinksKey, VBool(on), Notify(HyperlinksState(on)));
    RouteSetting(HyperlinksKey, current, io);
    KeyClassesDisjoint();
    assert KindOf(HyperlinksKey) == Toggle;
  }

  /** Two toggles, the second reading what the first stored, restore the
      original truth value. */
  lemma ToggleTwiceRestores(current: map<string, Value>, io1: Transport, io2: Transport)
    ensures var first := Writes(Route(true, Some("ps:" + HyperlinksKey), current, io1).trace);
      |first| == 1 &&
      var second := Writes(Route(true, Some("ps:" + HyperlinksKey), current[HyperlinksKey := first[0].1], io2).trace);
      |second| == 1 && second[0].0 == HyperlinksKey &&
      Truthy(second[0].1) == Truthy(Get(current, HyperlinksKey, VBool(false)))
  {
    ToggleNegates(current, io1);
    var was := Truthy(Get(current, HyperlinksKey, VBool(false)));
    var after := current[HyperlinksKey := VBool(!was)];
    ToggleNegates(after, io2);
    WritesAppend([Ack], [Write(HyperlinksKey, VBool(!was)), Notify(HyperlinksState(!was))]);
    WritesAppend([Ack], [Write(HyperlinksKey, VBool(was)), Notify(HyperlinksState(was))]);
  }
}
