/** The token store: two entries of the browser's `localStorage`, which is
    modelled as a string-to-string map owned by a `TokenStore` object. */
module Auth {
  import opened Common

  const AccessKey: string := "accessToken"
  const RefreshKey: string := "refreshToken"

  /** `localStorage.getItem(key)`: the stored string, or `None` for `null`. */
  function Lookup(storage: map<string, string>, key: string): Option<string> {
    if key in storage then Some(storage[key]) else None
  }

  /** JavaScript truthiness of a `getItem` result: present and not empty. */
  predicate Truthy(v: Option<string>) {
    v.Some? && v.value != ""
  }

  /** The storage after `setItem(accessKey, a)` then `setItem(refreshKey, r)`. */
  function WithTokens(storage: map<string, string>, a: string, r: string): (m: map<string, string>)
    ensures Lookup(m, AccessKey) == Some(a) && Lookup(m, RefreshKey) == Some(r)
    ensures forall k :: k != AccessKey && k != RefreshKey ==> Lookup(m, k) == Lookup(storage, k)
  {
    storage[AccessKey := a][RefreshKey := r]
  }

  /** The storage after removing both token keys. */
  function WithoutTokens(storage: map<string, string>): (m: map<string, string>)
    ensures Lookup(m, AccessKey) == None && Lookup(m, RefreshKey) == None
    ensures forall k :: k != AccessKey && k != RefreshKey ==> Lookup(m, k) == Lookup(storage, k)
  {
    storage - {AccessKey, RefreshKey}
  }

  /** Clearing twice leaves the same storage as clearing once. */
  lemma ClearIdempotent(storage: map<string, string>)
    ensures WithoutTokens(WithoutTokens(storage)) == WithoutTokens(storage)
  {
  }

  /** A later `setTokens` overwrites an earlier pair completely. */
  lemma SetOverwrites(storage: map<string, string>, a1: string, r1: string, a2: string, r2: string)
    ensures WithTokens(WithTokens(storage, a1, r1), a2, r2) == WithTokens(storage, a2, r2)
  {
  }

  class TokenStore {
    var storage: map<string, string>

    constructor (initial: map<string, string>)
      ensures storage == initial
    {
      storage := initial;
    }

    /** `getAccessToken()`. */
    function GetAccessToken(): (r: Option<string>)
      reads this
      ensures r.Some? <==> AccessKey in storage
      ensures r.Some? ==> r.value == storage[AccessKey]
    {
      Lookup(storage, AccessKey)
    }

    /** `getRefreshToken()`. */
    function GetRefreshToken(): (r: Option<string>)
      reads this
      ensures r.Some? <==> RefreshKey in storage
      ensures r.Some? ==> r.value == storage[RefreshKey]
    {
      Lookup(storage, RefreshKey)
    }

    /** `setTokens(a, r)`: both reads now return the new pair; no other entry
        of the storage changes. */
    method SetTokens(a: string, r: string)
      modifies this
      ensures storage == WithTokens(old(storage), a, r)
      ensures GetAccessToken() == Some(a) && GetRefreshToken() == Some(r)
    {
      storage := storage[AccessKey := a];
      storage := storage[RefreshKey := r];
    }

    /** `clearTokens()`: both reads now return `None`, whatever was stored;
        no other entry of the storage changes. */
    method ClearTokens()
      modifies this
      ensures storage == WithoutTokens(old(storage))
      ensures GetAccessToken() == None && GetRefreshToken() == None
    {
      storage := storage - {AccessKey};
      storage := storage - {RefreshKey};
    }
  }
}
