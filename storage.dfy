/** The token store: one device-local key-value store from which the app
    reads and removes the bearer token under the fixed key "token". */
module Storage {
  import opened Js

  const TOKEN_KEY: string := "token"

  /** What `getItem("token")` yields for the given store contents. */
  function StoredToken(entries: map<string, string>): Option<string> {
    if TOKEN_KEY in entries then Some(entries[TOKEN_KEY]) else None
  }

  /** The contents after `setItem(key, token)`. */
  function Saved(entries: map<string, string>, key: string, token: string): (r: map<string, string>)
    ensures r.Keys == entries.Keys + {key}
    ensures r[key] == token
    ensures forall k | k in entries && k != key :: r[k] == entries[k]
  {
    entries[key := token]
  }

  /** The contents after `removeItem("token")`. */
  function Cleared(entries: map<string, string>): (r: map<string, string>)
    ensures r.Keys == entries.Keys - {TOKEN_KEY}
    ensures forall k | k in r :: r[k] == entries[k]
  {
    entries - {TOKEN_KEY}
  }

  class TokenStore {
    var entries: map<string, string>

    constructor ()
      ensures entries == map[]
    {
      entries := map[];
    }

    /** `saveToken(key, token)`. */
    method SaveToken(key: string, token: string)
      modifies this
      ensures entries == Saved(old(entries), key, token)
    {
      entries := entries[key := token];
    }

    /** `getToken()`: always reads the key "token". */
    method GetToken() returns (token: Option<string>)
      ensures token == StoredToken(entries)
      ensures token.Some? <==> TOKEN_KEY in entries
    {
      if TOKEN_KEY in entries {
        token := Some(entries[TOKEN_KEY]);
      } else {
        token := None;
      }
    }

    /** `clearToken()`. */
    method ClearToken()
      modifies this
      ensures entries == Cleared(old(entries))
    {
      entries := entries - {TOKEN_KEY};
    }
  }

  lemma SaveThenGet(entries: map<string, string>, token: string)
    ensures StoredToken(Saved(entries, TOKEN_KEY, token)) == Some(token)
  {
  }

  lemma LastWriteWins(entries: map<string, string>, key: string, first: string, second: string)
    ensures Saved(Saved(entries, key, first), key, second) == Saved(entries, key, second)
  {
  }

  lemma SaveOtherKeyInvisible(entries: map<string, string>, key: string, token: string)
    requires key != TOKEN_KEY
    ensures StoredToken(Saved(entries, key, token)) == StoredToken(entries)
  {
  }

  lemma ClearThenGet(entries: map<string, string>)
    ensures StoredToken(Cleared(entries)) == None
  {
  }

  lemma ClearIdempotent(entries: map<string, string>)
    ensures Cleared(Cleared(entries)) == Cleared(entries)
  {
  }

  /** Clearing touches the "token" entry only. */
  lemma ClearKeepsOtherKeys(entries: map<string, string>, key: string)
    requires key != TOKEN_KEY
    ensures key in Cleared(entries) <==> key in entries
    ensures key in entries ==> Cleared(entries)[key] == entries[key]
  {
  }
}
