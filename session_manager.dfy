/**
 * The client's session id (client/src/utils/sessionManager.ts): a get-or-create
 * over the browser's key-value storage. Server-side rendering, where there is
 * no `window`, is a `null` storage. The generated part of a new id
 * (`Date.now()` and `Math.random()`) is passed in as `stamp`.
 */
module SessionManager {
  import opened Common
  import opened Text

  /** `SESSION_KEY`. */
  const SessionKey: string := "sessionId"

  /** Every generated id starts with this. */
  const SessionPrefix: string := "session_"

  /** `localStorage`: string keys to string values. */
  class LocalStorage {
    var entries: map<string, string>

    constructor ()
      ensures entries == map[]
    {
      entries := map[];
    }

    /** `localStorage.getItem(key)`: `null` when the key is absent. */
    method GetItem(key: string) returns (value: Option<string>)
      ensures value == Lookup(entries, key)
    {
      if key in entries {
        value := Some(entries[key]);
      } else {
        value := None;
      }
    }

    /** `localStorage.setItem(key, value)`. */
    method SetItem(key: string, value: string)
      modifies this
      ensures entries == old(entries)[key := value]
    {
      entries := entries[key := value];
    }

    /** `localStorage.removeItem(key)`. */
    method RemoveItem(key: string)
      modifies this
      ensures entries == old(entries) - {key}
    {
      entries := entries - {key};
    }
  }

  function Lookup(entries: map<string, string>, key: string): (value: Option<string>)
    ensures value.Some? <==> key in entries
    ensures value.Some? ==> value.value == entries[key]
  {
    if key in entries then Some(entries[key]) else None
  }

  /** `!sessionId` is false: a stored id is reused only when present and non-empty. */
  predicate Reusable(stored: Option<string>) {
    stored.Some? && stored.value != ""
  }

  /** The id returned and the storage left by one `getSessionId` call. */
  datatype Outcome = Outcome(id: string, entries: map<string, string>)

  /** `getSessionId` in a browser, as a function of the storage before the call. */
  function GetOrCreate(entries: map<string, string>, stamp: string): Outcome {
    var stored := Lookup(entries, SessionKey);
    if Reusable(stored) then Outcome(stored.value, entries)
    else
      var id := SessionPrefix + stamp;
      Outcome(id, entries[SessionKey := id])
  }

  /**
   * The id is never empty. A usable stored id is returned and nothing is
   * written; otherwise a fresh "session_" id is stored under "sessionId", and
   * every other key keeps its value.
   */
  lemma GetOrCreateSpec(entries: map<string, string>, stamp: string)
    ensures var r := GetOrCreate(entries, stamp);
      && r.id != ""
      && (Reusable(Lookup(entries, SessionKey)) ==> r.id == entries[SessionKey] && r.entries == entries)
      && (!Reusable(Lookup(entries, SessionKey)) ==> StartsWith(r.id, SessionPrefix) && r.entries == entries[SessionKey := r.id])
      && r.entries.Keys == entries.Keys + {SessionKey}
      && Lookup(r.entries, SessionKey) == Some(r.id)
      && (forall k :: k in entries && k != SessionKey ==> k in r.entries && r.entries[k] == entries[k])
  {
  }

  /** A second call returns the same id, whatever it would generate, and writes nothing. */
  lemma GetOrCreateStable(entries: map<string, string>, stamp1: string, stamp2: string)
    ensures var first := GetOrCreate(entries, stamp1);
      GetOrCreate(first.entries, stamp2) == first
  {
    var first := GetOrCreate(entries, stamp1);
    GetOrCreateSpec(entries, stamp1);
    assert Reusable(Lookup(first.entries, SessionKey));
  }

  /** After `clearSession` the next call generates a fresh id from its own stamp. */
  lemma ClearThenCreate(entries: map<string, string>, stamp: string)
    ensures GetOrCreate(entries - {SessionKey}, stamp).id == SessionPrefix + stamp
  {
  }

  /** `SessionManager.getSessionId()`; with no window it returns "" and touches nothing. */
  method GetSessionId(storage: LocalStorage?, stamp: string) returns (id: string)
    modifies storage
    ensures storage == null ==> id == ""
    ensures storage != null ==> Outcome(id, storage.entries) == GetOrCreate(old(storage.entries), stamp)
  {
    if storage == null {
      return "";
    }
    var stored := storage.GetItem(SessionKey);
    if !Reusable(stored) {
      id := SessionPrefix + stamp;
      storage.SetItem(SessionKey, id);
    } else {
      id := stored.value;
    }
  }

  /** `SessionManager.clearSession()`: removes only the session key. */
  method ClearSession(storage: LocalStorage?)
    modifies storage
    ensures storage != null ==> storage.entries == old(storage.entries) - {SessionKey}
  {
    if storage != null {
      storage.RemoveItem(SessionKey);
    }
  }
}
