/** Per-user settings with a primary backend (the `db` module's
    `get_user_settings` / `set_user_setting`) and the process-wide in-memory
    fallback `_mem_user_settings`. The backend is not part of this model:
    each call is given what the backend did on that call. */
module SettingsStore {
  import opened Values

  /** One user's settings record. */
  type Settings = map<string, Value>

  /** `_mem_user_settings`: fallback records keyed by user id alone. */
  type Fallback = map<int, Settings>

  /** What the backend handed back: a dict, or any other Python object. */
  datatype Answer = Dict(entries: Settings) | NotDict

  /** One call of `db.get_user_settings`: the attribute is missing or not
      callable, the call raised, or it returned something. */
  datatype ReadOutcome = ReadMissing | ReadRaises | ReadReturns(answer: Answer)

  /** One call of `db.set_user_setting`. */
  datatype WriteOutcome = WriteMissing | WriteRaises | WriteReturns

  /** The backend answered a read with a dict. */
  predicate ServesRead(primary: ReadOutcome)
  {
    primary.ReadReturns? && primary.answer.Dict?
  }

  /** The backend took a write: it was callable and did not raise. */
  predicate TakesWrite(primary: WriteOutcome)
  {
    primary.WriteReturns?
  }

  /** The fallback record of a user, `{}` when there is none. */
  function FallbackOf(mem: Fallback, user: int): Settings
  {
    if user in mem then mem[user] else map[]
  }

  /** `_get_settings(user_id, bot_username)`: the backend's dict if it gave
      one, otherwise a copy of the user's fallback record. The bot scope only
      reaches the backend, whose answer is the `primary` parameter; the
      fallback is keyed by user alone, so `scope` is not read here. */
  function Lookup(mem: Fallback, user: int, scope: string, primary: ReadOutcome): (r: Settings)
    // a dict from the backend is returned as it is
    ensures ServesRead(primary) ==> r == primary.answer.entries
    // otherwise the user's fallback record, and `{}` for a user never written
    ensures !ServesRead(primary) && user in mem ==> r == mem[user]
    ensures !ServesRead(primary) && user !in mem ==> r == map[]
  {
    if ServesRead(primary) then primary.answer.entries else FallbackOf(mem, user)
  }

  /** The fallback map after `_set_setting(user_id, bot_username, key, value)`. */
  function StoreAfter(mem: Fallback, user: int, key: string, value: Value, primary: WriteOutcome): (m: Fallback)
    ensures TakesWrite(primary) ==> m == mem
    ensures !TakesWrite(primary) ==> user in m && key in m[user] && m[user][key] == value
    ensures !TakesWrite(primary) ==> m.Keys == mem.Keys + {user}
    ensures forall u :: u in mem && u != user ==> m[u] == mem[u]
    ensures user in mem ==> forall k :: k in mem[user] && k != key ==> k in m[user] && m[user][k] == mem[user][k]
    ensures user in m ==> m[user].Keys <= FallbackOf(mem, user).Keys + {key}
  {
    if TakesWrite(primary) then mem
    else mem[user := FallbackOf(mem, user)[key := value]]
  }

  /** The module-level state of the settings store. */
  class Store {
    var mem: Fallback

    /** The process starts with an empty fallback. */
    constructor ()
      ensures mem == map[]
    {
      mem := map[];
    }

    /** `_get_settings` against this store's fallback. */
    function Read(user: int, scope: string, primary: ReadOutcome): (r: Settings)
      reads this
      ensures ServesRead(primary) ==> r == primary.answer.entries
      ensures !ServesRead(primary) && user in mem ==> r == mem[user]
      ensures !ServesRead(primary) && user !in mem ==> r == map[]
    {
      Lookup(mem, user, scope, primary)
    }

    /** `_set_setting`: the write goes to the backend when it takes it;
        otherwise `mem.setdefault(user, {})[key] = value`, and nothing else
        in the fallback changes. */
    method Write(user: int, scope: string, key: string, value: Value, primary: WriteOutcome)
      modifies this
      ensures mem == StoreAfter(old(mem), user, key, value, primary)
    {
      if !TakesWrite(primary) {
        var record := if user in mem then mem[user] else map[];
        mem := mem[user := record[key := value]];
      }
    }
  }

  /** With the backend down for both calls, a write is read back, and every
      other key of the record reads as before. */
  lemma ReadAfterFallbackWrite(mem: Fallback, user: int, scope: string, key: string, value: Value,
                               w: WriteOutcome, r: ReadOutcome)
    requires !TakesWrite(w) && !ServesRead(r)
    ensures Lookup(StoreAfter(mem, user, key, value, w), user, scope, r) == Lookup(mem, user, scope, r)[key := value]
  {
  }

  /** A write the backend takes is invisible to a later fallback read. */
  lemma BackendWriteBypassesFallback(mem: Fallback, user: int, scope: string, key: string, value: Value,
                                     w: WriteOutcome, r: ReadOutcome)
    requires TakesWrite(w)
    ensures Lookup(StoreAfter(mem, user, key, value, w), user, scope, r) == Lookup(mem, user, scope, r)
  {
  }

  /** A dict from the backend wins over whatever the fallback holds. */
  lemma BackendDictWins(mem1: Fallback, mem2: Fallback, user: int, scope: string, r: ReadOutcome)
    requires ServesRead(r)
    ensures Lookup(mem1, user, scope, r) == Lookup(mem2, user, scope, r) == r.answer.entries
  {
  }

  /** Documents `_mem_user_settings.get(user_id, {})`: for a given backend
      answer, a user's settings read the same whatever bot they are read for,
      since the scope reaches only the backend and the fallback is keyed by
      user alone. A write made for one bot is therefore seen by all. */
  lemma FallbackIgnoresScope(mem: Fallback, user: int, scope1: string, scope2: string, r: ReadOutcome)
    ensures Lookup(mem, user, scope1, r) == Lookup(mem, user, scope2, r)
  {
  }
}
