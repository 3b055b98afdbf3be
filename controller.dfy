/** One callback query end to end: the authorisation gate, the settings read
    the toggle needs, the routing decision, and the settings write it makes,
    against the process's settings store. */
module Controller {
  import opened Values
  import opened Effects
  import opened SettingsStore
  import opened AuthGate
  import opened PromptSession
  import opened Router

  /** The fallback map after the writes of a callback, each made through
      `_set_setting` with the backend behaving as `primary`. */
  function Commit(mem: Fallback, user: int, writes: seq<(string, Value)>, primary: WriteOutcome): Fallback
    decreases |writes|
  {
    if writes == [] then mem
    else Commit(StoreAfter(mem, user, writes[0].0, writes[0].1, primary), user, writes[1..], primary)
  }

  lemma CommitOne(mem: Fallback, user: int, key: string, value: Value, primary: WriteOutcome)
    ensures Commit(mem, user, [(key, value)], primary) == StoreAfter(mem, user, key, value, primary)
  {
    assert [(key, value)][1..] == [];
  }

  /** `premium_callbacks` for user `user` of bot `scope`, with the `db`
      checks answering `admin` and `entitled` and the settings backend
      behaving as `read` and `write` on this call. */
  method HandleCallback(store: Store, user: int, scope: string, data: Option<string>,
                        admin: AuthGate.Answer, entitled: AuthGate.Answer,
                        read: ReadOutcome, write: WriteOutcome, io: Transport)
    returns (out: Outcome)
    modifies store
    ensures out == Route(Authorize(admin, entitled).granted, data, Lookup(old(store.mem), user, scope, read), io)
    ensures store.mem == Commit(old(store.mem), user, Writes(out.trace), write)
  {
    var decision := Authorize(admin, entitled);
    var current := store.Read(user, scope, read);
    out := Route(decision.granted, data, current, io);
    var writes := Writes(out.trace);
    RouteWrites(decision.granted, data, current, io);
    if writes != [] {
      CommitOne(store.mem, user, writes[0].0, writes[0].1, write);
      assert writes == [(writes[0].0, writes[0].1)];
      store.Write(user, scope, writes[0].0, writes[0].1, write);
    }
  }

  /** An unauthorised callback leaves the settings store as it was. */
  lemma UnauthorisedLeavesStore(mem: Fallback, user: int, data: Option<string>, current: Settings,
                                io: Transport, w: WriteOutcome)
    ensures Commit(mem, user, Writes(Route(false, data, current, io).trace), w) == mem
  {
  }

  /** A cancelled text prompt leaves the settings store as it was. */
  lemma CancelLeavesStore(mem: Fallback, user: int, key: string, current: Settings,
                          io: Transport, w: WriteOutcome)
    requires KindOf(key) == FreeText || KindOf(key) == Token
    requires io.listen.Reply? && ClassifyReply(io.listen.text).None?
    ensures Commit(mem, user, Writes(Route(true, Some("ps:" + key), current, io).trace), w) == mem
  {
    CancelledReplyStoresNothing(key, current, io);
  }

  /** With the backend down, a free-text value saved through the menu is
      what the next read of that user's settings shows under its key. */
  lemma SavedValueReadsBack(mem: Fallback, user: int, scope: string, key: string, io: Transport,
                            value: string, r: ReadOutcome, w: WriteOutcome)
    requires key in FreeTextKeys
    requires io.listen.Reply? && ClassifyReply(io.listen.text) == Some(value)
    requires !ServesRead(r) && !TakesWrite(w)
    ensures var out := Route(true, Some("ps:" + key), Lookup(mem, user, scope, r), io);
      var after := Lookup(Commit(mem, user, Writes(out.trace), w), user, scope, r);
      key in after && after[key] == VStr(value)
  {
    var current := Lookup(mem, user, scope, r);
    FreeTextSaved(key, current, io, value);
    CommitOne(mem, user, key, VStr(value), w);
    ReadAfterFallbackWrite(mem, user, scope, key, VStr(value), w, r);
  }

  /** The store after one hyperlinks toggle by `user`. */
  function AfterToggle(mem: Fallback, user: int, scope: string, r: ReadOutcome, w: WriteOutcome, io: Transport): Fallback
  {
    var out := Route(true, Some("ps:" + HyperlinksKey), Lookup(mem, user, scope, r), io);
    Commit(mem, user, Writes(out.trace), w)
  }

  /** With the backend down, one toggle stores the negation of what the
      user's settings held (absent counting as off). */
  lemma ToggleOnFallback(mem: Fallback, user: int, scope: string, r: ReadOutcome, w: WriteOutcome, io: Transport)
    requires !ServesRead(r) && !TakesWrite(w)
    ensures var before := Lookup(mem, user, scope, r);
      var after := Lookup(AfterToggle(mem, user, scope, r, w, io), user, scope, r);
      after == before[HyperlinksKey := VBool(!Truthy(Get(before, HyperlinksKey, VBool(false))))]
  {
    var before := Lookup(mem, user, scope, r);
    var on := !Truthy(Get(before, HyperlinksKey, VBool(false)));
    ToggleNegates(before, io);
    CommitOne(mem, user, HyperlinksKey, VBool(on), w);
    ReadAfterFallbackWrite(mem, user, scope, HyperlinksKey, VBool(on), w, r);
  }

  /** With the backend down, two toggles in a row restore the hyperlinks
      setting's original truth value, and touch no other key. */
  lemma ToggleTwiceOnFallback(mem: Fallback, user: int, scope: string, r: ReadOutcome, w: WriteOutcome,
                              io1: Transport, io2: Transport)
    requires !ServesRead(r) && !TakesWrite(w)
    ensures var before := Lookup(mem, user, scope, r);
      var after := Lookup(AfterToggle(AfterToggle(mem, user, scope, r, w, io1), user, scope, r, w, io2), user, scope, r);
      HyperlinksKey in after && Truthy(after[HyperlinksKey]) == Truthy(Get(before, HyperlinksKey, VBool(false)))
      && forall k :: k != HyperlinksKey ==> (k in after <==> k in before) && (k in before ==> after[k] == before[k])
  {
    ToggleOnFallback(mem, user, scope, r, w, io1);
    ToggleOnFallback(AfterToggle(mem, user, scope, r, w, io1), user, scope, r, w, io2);
  }

  /** A user with nothing stored toggles twice: the first toggle stores true
      and says ON, the second stores false and says OFF. */
  lemma ToggleScenario(mem: Fallback, user: int, scope: string, r: ReadOutcome, w: WriteOutcome,
                       io1: Transport, io2: Transport)
    requires !ServesRead(r) && !TakesWrite(w) && user !in mem
    ensures Route(true, Some("ps:" + HyperlinksKey), Lookup(mem, user, scope, r), io1).trace
         == [Ack, Write(HyperlinksKey, VBool(true)), Notify(HyperlinksState(true))]
    ensures var mem1 := AfterToggle(mem, user, scope, r, w, io1);
      Route(true, Some("ps:" + HyperlinksKey), Lookup(mem1, user, scope, r), io2).trace
         == [Ack, Write(HyperlinksKey, VBool(false)), Notify(HyperlinksState(false))]
  {
    var before := Lookup(mem, user, scope, r);
    assert before == map[];
    ToggleNegates(before, io1);
    ToggleOnFallback(mem, user, scope, r, w, io1);
    var mem1 := AfterToggle(mem, user, scope, r, w, io1);
    var after := Lookup(mem1, user, scope, r);
    assert after == map[HyperlinksKey := VBool(true)];
    ToggleNegates(after, io2);
  }
}
