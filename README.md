# Premium menu: a Dafny model

This project models the premium menu of a Telegram bot (`plugins/premium_menu.py`),
a Pyrogram plugin. It draws three inline keyboards. Its callback handler,
`premium_callbacks`, does the following for every callback query:

- it checks that the user is authorised;
- it routes the `callback_data` payload;
- for a settings button it may ask for a text reply and store one value in a
  per-user settings record. The record lives in a backend when one is
  available and in an in-memory fallback map otherwise.

The model is organised after the source:

- `values.dfy`: the Python values a settings record holds, with `bool()` and `dict.get`.
- `pytext.dfy`: the `str` operations the handler relies on: `strip`, `lower`, `startswith` and `split(sep, 1)`.
- `keyboards.dfy`: the three keyboards, reduced to their payloads in reading order.
- `effects.dfy`: the chat-transport calls and settings writes of one callback, as a trace of effect values.
- `settings_store.dfy`: `_get_settings` / `_set_setting`. The fallback map is the field of a `Store` class; a write updates it in place.
- `auth_gate.dfy`: `_is_authorized`.
- `prompt_session.dfy`: `_ask_text`.
- `router.dfy`: `premium_callbacks` as a function from the authorisation verdict, the payload, the user's settings and the transport's behaviour to an outcome.
- `controller.dfy`: one callback end to end against the `Store`, and the lemmas that need the store and the router together.

The `db` module, the Telegram transport and the user's replies are not part of
this model. Each call into them is a parameter that says what it did on that
call. For example, `ReadOutcome` covers three cases for `db.get_user_settings`:
it is missing, it raised, or it returned a value.

Details of the code worth noting:

- The settings panel is opened by the payload `menu:premium_settings`, as the keyboard and the handler have it (`plugins/premium_menu.py:86`, `:181`).
- A reply made only of whitespace is not treated as a cancel. It is stripped to the empty string, which is then stored and confirmed (`:131-136`; `PromptSession.BlankReplyIsEmptyValue`).
- The in-memory fallback is keyed by user id alone, and `bot_username` is ignored there (`:96`, `:108`, `:121`; `SettingsStore.FallbackIgnoresScope`).
- If `edit_caption` and then `edit_text` both raise on a menu button, the second exception leaves the handler and the query is never answered (`:173-178`; `Router.Render`).

## Model

| member | source | states |
|---|---|---|
| Keyboards.SettingsKeyboardShape | plugins/premium_menu.py:45-65 | the settings keyboard is exactly the twelve `ps:` setting keys in reading order, followed by the way back to the main menu |
| Keyboards.CommandsKeyboardShape | plugins/premium_menu.py:67-83 | the commands keyboard is exactly the nine `pc:` tool ids in reading order, followed by the way back to the main menu |
| PyText.TrimStart | plugins/premium_menu.py:133 | the result is a suffix of the input; everything cut is whitespace; the result does not start with whitespace |
| PyText.TrimEnd | plugins/premium_menu.py:133 | the result is a prefix of the input; everything cut is whitespace; the result does not end with whitespace |
| PyText.Strip | plugins/premium_menu.py:133 | `strip()` is never longer than its input, and it neither starts nor ends with whitespace |
| PyText.StripSlice | plugins/premium_menu.py:133 | `strip()` is a contiguous slice of its input; only whitespace lies before and after it |
| PyText.StripSurrounded | plugins/premium_menu.py:133 | whitespace around a word that neither starts nor ends with whitespace is removed exactly: `strip(pre + w + post) == w` |
| PyText.TrimStartSpaces | plugins/premium_menu.py:133 | leading whitespace does not change what `lstrip` keeps |
| PyText.TrimEndSpaces | plugins/premium_menu.py:133 | `rstrip` removes exactly the whitespace appended after a word that does not end with whitespace |
| PyText.Lower | plugins/premium_menu.py:134 | `lower()` keeps the length and folds each character on its own (A..Z to a..z) |
| PyText.Find | plugins/premium_menu.py:199 | `find` returns the first index where the separator occurs, and none exactly when it occurs nowhere |
| PyText.SplitOnce | plugins/premium_menu.py:199 | `split(sep, 1)` gives one part, the whole text, exactly when `sep` does not occur; otherwise it gives two parts whose join with `sep` is the text, split at the first occurrence |
| PyText.SplitAfterPrefix | plugins/premium_menu.py:198-199 | after `startswith(sep)`, `split(sep, 1)[1]` is the text without that prefix |
| SettingsStore.Lookup | plugins/premium_menu.py:98-108 | `_get_settings` returns the backend's dict when it gives one. Otherwise it returns the user's fallback record, or `{}` for a user never written |
| SettingsStore.Store.Read | plugins/premium_menu.py:98-108 | the same read rule against the store's own fallback map |
| SettingsStore.StoreAfter | plugins/premium_menu.py:110-121 | a write the backend takes leaves the fallback unchanged. Otherwise the user's record holds the value under the key and gains no other key. No other user's record and no other key of this record changes |
| SettingsStore.Store.constructor | plugins/premium_menu.py:96 | the process starts with an empty fallback |
| SettingsStore.Store.Write | plugins/premium_menu.py:110-121 | `_set_setting` changes the fallback exactly as `StoreAfter` says |
| SettingsStore.ReadAfterFallbackWrite | plugins/premium_menu.py:98-121 | with the backend down, a read after a write returns the earlier record with the key set to the new value |
| SettingsStore.BackendWriteBypassesFallback | plugins/premium_menu.py:110-116 | a write the backend takes is not seen by a later fallback read |
| SettingsStore.BackendDictWins | plugins/premium_menu.py:98-105 | a dict from the backend is the answer, whatever the fallback holds |
| SettingsStore.FallbackIgnoresScope | plugins/premium_menu.py:96-108 | the bot scope reaches only the backend: for the same backend answer, a user's settings read the same for every bot |
| AuthGate.Authorize | plugins/premium_menu.py:143-152 | an admin is let in without the entitlement check. Otherwise both checks run, in order, and the entitlement check alone decides. Nothing but an explicit grant lets a user in |
| AuthGate.OracleOutageDenies | plugins/premium_menu.py:149-152 | an entitlement check that raises, after an admin check that did not grant, denies |
| PromptSession.ClassifyReply | plugins/premium_menu.py:130-136 | no text, or empty text, gives `None`. Any value returned is the stripped text and is not a cancel word in any case. A non-empty text whose stripped, lowered form is not a cancel word is returned |
| PromptSession.CancelInAnyCase | plugins/premium_menu.py:133-135 | `/cancel` or `cancel` in any ASCII case, with whitespace around it, cancels |
| PromptSession.PlainReplyKept | plugins/premium_menu.py:133-136 | any other word comes back exactly as typed, without the whitespace around it |
| PromptSession.BlankReplyIsEmptyValue | plugins/premium_menu.py:131-136 | a reply of whitespace only is not a cancel: it yields the empty string |
| PromptSession.AskText | plugins/premium_menu.py:127-141 | exactly one prompt is sent, and its deletion is attempted on every path. An exception from `listen` propagates; otherwise the result is the classified reply. A failed deletion is swallowed, so the result does not depend on it |
| Router.Decode | plugins/premium_menu.py:171-243 | every decoded action maps back to its payload: a menu payload, `ps:` + key, or `pc:` + command (never taken by the `ps:` test). An unmatched payload has neither prefix and is no menu payload |
| Router.DecodeNavPayload | plugins/premium_menu.py:171-195 | each menu payload decodes to its panel |
| Router.DecodeSettingPayload | plugins/premium_menu.py:198-199 | `ps:` + key decodes to that exact key, so decoding inverts encoding |
| Router.DecodeCommandPayload | plugins/premium_menu.py:242-243 | `pc:` + command decodes to that exact command |
| Router.KindOf | plugins/premium_menu.py:203-238 | a `ps:` key is free text, a thumbnail, the hyperlinks toggle or the token exactly when it belongs to that class; only a key of no class is `Other` |
| Router.CommandNotice | plugins/premium_menu.py:248-257 | `/t2t` is named exactly for `t2t`, `/t2h` exactly for `html_formatter`, and any other command is reported as the selected tool |
| Router.SettingRoute | plugins/premium_menu.py:198-239 | a thumbnail button only sends the photo hint, and a key of no known class only the generic "Clicked" reply; neither stores anything. "Clicked" is sent exactly for such a key. An exception escapes exactly when a prompt's `listen` raised |
| Router.Render | plugins/premium_menu.py:171-195 | a menu button edits the panel to its caption and keyboard, through the caption edit or else the text edit, then answers. When both edits raise, the exception escapes and nothing is answered |
| Router.Collect | plugins/premium_menu.py:204-214 | a prompted setting either propagates the `listen` exception with nothing stored, or reports a cancellation with nothing stored, or stores the reply under the prompt's key and then confirms it |
| Router.CollectWrites | plugins/premium_menu.py:204-214 | a prompted setting stores at most one value, and only under its target key |
| Router.SettingRouteWrites | plugins/premium_menu.py:198-239 | a `ps:` button stores at most one value, only under a free-text key, `pdf_hyperlinks` or `token`, and only when it is a free-text, toggle or token button |
| Router.Route | plugins/premium_menu.py:160-259 | an unauthorised user gets only the alert, whatever the payload. An authorised query is always answered, except when a menu edit escapes. The bare acknowledgement of an unmatched payload is assumed, since line 259 is mis-indented (see Left out) |
| Router.RouteWrites | plugins/premium_menu.py:166-259 | a callback stores at most one value, under a known key, and only for an authorised user pressing a `ps:` button |
| Router.SettingsKeysPartition | plugins/premium_menu.py:203-236 | the twelve keyboard keys are exactly the eight free-text keys, the two thumbnail keys, the hyperlinks toggle and the token button, and these classes do not overlap |
| Router.KnownSettingRouted | plugins/premium_menu.py:198-236 | every key of a known class reaches its explicit branch, not the generic "Clicked" reply |
| Router.EveryButtonRouted | plugins/premium_menu.py:171-258 | every button of the three keyboards (lines 45-88) reaches an explicit branch of the handler |
| Router.NavigationRendersTarget | plugins/premium_menu.py:171-195 | a menu button renders its panel whatever the settings and the prompt machinery, so showing a panel twice shows the same thing |
| Router.CommandRouting | plugins/premium_menu.py:242-258 | a command button answers the query, then names `/t2t` for `t2t`, `/t2h` for `html_formatter`, and otherwise the tool |
| Router.RouteSetting | plugins/premium_menu.py:198-200 | a `ps:` button from an authorised user answers the query before anything else |
| Router.FreeTextSaved | plugins/premium_menu.py:203-214 | a usable reply to a free-text setting produces: answer, prompt, prompt deletion, a store of the stripped text under the same key, and a confirmation naming key and value. That is the only write |
| Router.TokenStoredUnderToken | plugins/premium_menu.py:229-236 | the token reply is stored under `token`, not under the button key `set_token`, then confirmed |
| Router.CancelledReplyStoresNothing | plugins/premium_menu.py:209-233 | a cancelled or empty reply to either prompt is reported and stores nothing |
| Router.ToggleNegates | plugins/premium_menu.py:220-227 | the hyperlinks toggle stores the negation of the current value's truth (absent counts as off) and reports ON exactly when it stored true |
| Router.ToggleTwiceRestores | plugins/premium_menu.py:220-227 | two toggles, the second reading what the first stored, restore the original truth value |
| Controller.HandleCallback | plugins/premium_menu.py:160-259 | one callback: the routed outcome uses the authorisation verdict and the settings read before the callback, and the store afterwards is the old store with that outcome's writes committed |
| Controller.UnauthorisedLeavesStore | plugins/premium_menu.py:166-168 | an unauthorised callback leaves the settings store unchanged |
| Controller.CancelLeavesStore | plugins/premium_menu.py:209-233 | a cancelled text prompt leaves the settings store unchanged |
| Controller.SavedValueReadsBack | plugins/premium_menu.py:203-214 | with the backend down, a value saved through the menu is what the next read shows under its key |
| Controller.ToggleOnFallback | plugins/premium_menu.py:220-227 | with the backend down, one toggle changes the user's record only at `pdf_hyperlinks`, to the negated truth value |
| Controller.ToggleTwiceOnFallback | plugins/premium_menu.py:220-227 | with the backend down, two toggles restore the original truth value and leave every other key as it was |
| Controller.ToggleScenario | plugins/premium_menu.py:220-227 | a user with nothing stored toggles twice: the first toggle stores true and says ON, the second stores false and says OFF |

## Left out

- The `db` module is not part of this model. Its four calls (`is_admin`, `is_user_authorized`, `get_user_settings`, `set_user_setting`) are given as outcomes, and what the backend does with a write is not modelled.
- Async execution, task interleaving and races on the shared fallback map are not modelled. A callback is one atomic step.
- Transport calls other than the ones that matter for routing are assumed to succeed. These are `cq.answer`, `send_message`, and the prompt's own `send_message` in `_ask_text`. An exception from one of them would end the handler early; that path is not modelled.
- Captions, button labels, emoji and row layout are presentation only. Captions are opaque constants; keyboards are their payload sequences.
- The confirmation and notice texts are not modelled as strings. They are structured values that carry what the text reports: key, value, ON/OFF, command.
- `str.strip` and `str.lower` follow the ASCII range only. Unicode whitespace above U+007F and non-ASCII case mappings are not modelled.
- The thumbnail buttons only send a hint; uploading a photo is not wired in the source either.
- `client.me`, `cq.from_user` and chat ids become plain parameters (user id, bot name) or are dropped.
- The final `await cq.answer()` of the handler (`plugins/premium_menu.py:259`) is indented less than the body it ends, which Python rejects when it loads the module. The model answers an unmatched payload with a bare acknowledgement, the evident intent; no source line guarantees it.
- A dict returned by the backend is handed back without a copy, unlike the fallback record. Aliasing between that dict and the backend is not modelled.
- Python values in a record other than strings, booleans, integers and `None` are not modelled.
- `Router.Route` takes the user's current settings as a parameter. The source reads them (`_get_settings`) only in the hyperlinks branch; since a read changes nothing, reading them up front gives the same result.
