/** The three inline keyboards of the premium menu, reduced to the
    `callback_data` of their buttons in reading order (labels, emoji and row
    layout are presentation only), and the panels that show them. */
module Keyboards {

  /** The panels a callback can render. */
  datatype Panel = Main | PremiumSettings | PremiumCommands

  /** The captions, kept opaque: MAIN_CAPTION, SETTINGS_CAPTION, COMMANDS_CAPTION. */
  datatype Caption = MainCaption | SettingsCaption | CommandsCaption

  /** PREMIUM_SETTINGS_KB */
  const SettingsButtons: seq<string> := [
    "ps:font_color", "ps:font_style",
    "ps:file_name", "ps:video_thumb",
    "ps:pdf_thumb", "ps:auto_topic",
    "ps:add_credit", "ps:pdf_watermark",
    "ps:video_watermark", "ps:video_quality",
    "ps:pdf_hyperlinks", "ps:set_token",
    "menu:main"
  ]

  /** PREMIUM_COMMANDS_KB */
  const CommandsButtons: seq<string> := [
    "pc:t2t", "pc:edit_txt",
    "pc:split_txt", "pc:replace_word",
    "pc:html_formatter",
    "pc:keyword_filter", "pc:title_clean",
    "pc:pw_sh_to_txt", "pc:youtube_extract",
    "menu:main"
  ]

  /** MAIN_MENU_KB */
  const MainButtons: seq<string> := [
    "menu:premium_settings",
    "menu:premium_commands"
  ]

  /** The payload whose button opens a panel. */
  function NavPayload(p: Panel): string
  {
    match p
    case Main => "menu:main"
    case PremiumSettings => "menu:premium_settings"
    case PremiumCommands => "menu:premium_commands"
  }

  function CaptionOf(p: Panel): Caption
  {
    match p
    case Main => MainCaption
    case PremiumSettings => SettingsCaption
    case PremiumCommands => CommandsCaption
  }

  function ButtonsOf(p: Panel): seq<string>
  {
    match p
    case Main => MainButtons
    case PremiumSettings => SettingsButtons
    case PremiumCommands => CommandsButtons
  }

  /** The keys of the `ps:` buttons of PREMIUM_SETTINGS_KB, in reading order. */
  const SettingsKeys: seq<string> := [
    "font_color", "font_style", "file_name", "video_thumb", "pdf_thumb", "auto_topic",
    "add_credit", "pdf_watermark", "video_watermark", "video_quality", "pdf_hyperlinks", "set_token"
  ]

  /** The commands of the `pc:` buttons of PREMIUM_COMMANDS_KB, in reading order. */
  const CommandIds: seq<string> := [
    "t2t", "edit_txt", "split_txt", "replace_word", "html_formatter",
    "keyword_filter", "title_clean", "pw_sh_to_txt", "youtube_extract"
  ]

  /** Each name with the prefix in front. */
  function Prefixed(prefix: string, names: seq<string>): (r: seq<string>)
    ensures |r| == |names|
    ensures forall i :: 0 <= i < |names| ==> r[i] == prefix + names[i]
  {
    seq(|names|, i requires 0 <= i < |names| => prefix + names[i])
  }

  /** The settings keyboard is its twelve `ps:` keys and the way back to the main menu.
      `SettingsButtons` is the keyboard as drawn and `SettingsKeys` the key list
      the router classifies; this checks, constant by constant, that the two
      agree. The row helpers split that check so each proof stays small. */
  lemma SettingsKeyboardShape()
    ensures SettingsButtons == Prefixed("ps:", SettingsKeys) + [NavPayload(Main)]
  {
    var p := Prefixed("ps:", SettingsKeys);
    SettingsFirstRows();
    SettingsLastRows();
    assert SettingsButtons[0] == p[0];
    assert SettingsButtons[1] == p[1];
    assert SettingsButtons[2] == p[2];
    assert SettingsButtons[3] == p[3];
    assert SettingsButtons[4] == p[4];
    assert SettingsButtons[5] == p[5];
    assert SettingsButtons[6] == p[6];
    assert SettingsButtons[7] == p[7];
    assert SettingsButtons[8] == p[8];
    assert SettingsButtons[9] == p[9];
    assert SettingsButtons[10] == p[10];
    assert SettingsButtons[11] == p[11];
    assert SettingsButtons[..12] == p;
  }

  lemma SettingsFirstRows()
    ensures SettingsButtons[0] == "ps:" + SettingsKeys[0] && SettingsButtons[1] == "ps:" + SettingsKeys[1]
    ensures SettingsButtons[2] == "ps:" + SettingsKeys[2] && SettingsButtons[3] == "ps:" + SettingsKeys[3]
    ensures SettingsButtons[4] == "ps:" + SettingsKeys[4] && SettingsButtons[5] == "ps:" + SettingsKeys[5]
  {
  }

  lemma SettingsLastRows()
    ensures SettingsButtons[6] == "ps:" + SettingsKeys[6] && SettingsButtons[7] == "ps:" + SettingsKeys[7]
    ensures SettingsButtons[8] == "ps:" + SettingsKeys[8] && SettingsButtons[9] == "ps:" + SettingsKeys[9]
    ensures SettingsButtons[10] == "ps:" + SettingsKeys[10] && SettingsButtons[11] == "ps:" + SettingsKeys[11]
  {
  }

  /** The commands keyboard is its nine `pc:` commands and the way back to the main menu.
      As for the settings keyboard, this is a constant-by-constant check
      between the keyboard as drawn and `CommandIds`, split into row helpers. */
  lemma CommandsKeyboardShape()
    ensures CommandsButtons == Prefixed("pc:", CommandIds) + [NavPayload(Main)]
  {
    var p := Prefixed("pc:", CommandIds);
    CommandsFirstRows();
    CommandsLastRows();
    assert CommandsButtons[0] == p[0];
    assert CommandsButtons[1] == p[1];
    assert CommandsButtons[2] == p[2];
    assert CommandsButtons[3] == p[3];
    assert CommandsButtons[4] == p[4];
    assert CommandsButtons[5] == p[5];
    assert CommandsButtons[6] == p[6];
    assert CommandsButtons[7] == p[7];
    assert CommandsButtons[8] == p[8];
    assert CommandsButtons[..9] == p;
  }

  lemma CommandsFirstRows()
    ensures CommandsButtons[0] == "pc:" + CommandIds[0] && CommandsButtons[1] == "pc:" + CommandIds[1]
    ensures CommandsButtons[2] == "pc:" + CommandIds[2] && CommandsButtons[3] == "pc:" + CommandIds[3]
    ensures CommandsButtons[4] == "pc:" + CommandIds[4]
  {
  }

  lemma CommandsLastRows()
    ensures CommandsButtons[5] == "pc:" + CommandIds[5] && CommandsButtons[6] == "pc:" + CommandIds[6]
    ensures CommandsButtons[7] == "pc:" + CommandIds[7] && CommandsButtons[8] == "pc:" + CommandIds[8]
  {
  }
}
