/** `ensureAuth`: decides whether the stored session is usable, refreshing an
    expired access token once. Decoding the token's payload and the refresh
    endpoint's reply are inputs; the clock is the `now` parameter (seconds). */
module EnsureAuth {
  import opened Common
  import opened Auth
  import opened AuthFetch

  /** The decoded JWT payload; `exp` is `None` when the claim is absent. */
  datatype Claims = Claims(exp: Option<int>)

  /** The promise `ensureAuth` returns: resolved with a boolean, or rejected
      (a payload that does not decode throws before the `try`). */
  datatype Verdict = Resolved(valid: bool) | Rejected

  datatype Check = Check(verdict: Verdict, refreshPosts: seq<string>, storage: map<string, string>)

  /** `tokenPayload.exp > now`: an absent claim compares as false. */
  predicate Unexpired(c: Claims, now: int) {
    c.exp.Some? && c.exp.value > now
  }

  /** The decision as a function of the store, the decoder, the clock and the
      refresh endpoint's reply. */
  function Policy(storage: map<string, string>, decode: string -> Option<Claims>, now: int, reply: RefreshReply): Check {
    var access := Lookup(storage, AccessKey);
    var refresh := Lookup(storage, RefreshKey);
    if !Truthy(access) || !Truthy(refresh) then Check(Resolved(false), [], storage)
    else match decode(access.value)
      case None => Check(Rejected, [], storage)
      case Some(claims) =>
        if Unexpired(claims, now) then Check(Resolved(true), [], storage)
        else
          var posts := [refresh.value];
          match reply
          case RefreshStatus(code, TokenJson(a, r)) =>
            if IsOk(code) then Check(Resolved(true), posts, WithTokens(storage, Stringified(a), Stringified(r)))
            else Check(Resolved(false), posts, WithoutTokens(storage))
          case _ => Check(Resolved(false), posts, WithoutTokens(storage))
  }

  /** `ensureAuth()` against the token store. */
  method EnsureAuth(store: TokenStore, decode: string -> Option<Claims>, now: int, reply: RefreshReply)
    returns (verdict: Verdict, refreshPosts: seq<string>)
    modifies store
    ensures Check(verdict, refreshPosts, store.storage) == Policy(old(store.storage), decode, now, reply)
  {
    var access := store.GetAccessToken();
    var refresh := store.GetRefreshToken();
    refreshPosts := [];
    if !Truthy(access) || !Truthy(refresh) {
      return Resolved(false), refreshPosts;
    }
    var payload := decode(access.value);
    if payload.None? {
      return Rejected, refreshPosts;
    }
    if Unexpired(payload.value, now) {
      return Resolved(true), refreshPosts;
    }
    refreshPosts := refreshPosts + [refresh.value];
    // The `try` block: an unreachable endpoint, a non-OK status and a body
    // that is not JSON all land in the `catch`.
    if reply.RefreshStatus? && IsOk(reply.code) && reply.body.TokenJson? {
      store.SetTokens(Stringified(reply.body.accessToken), Stringified(reply.body.refreshToken));
      return Resolved(true), refreshPosts;
    }
    store.ClearTokens();
    verdict := Resolved(false);
  }

  /** Without both tokens the answer is `false`, nothing is decoded or posted,
      and the store is left as it was. */
  lemma MissingTokenIsInvalid(storage: map<string, string>, decode: string -> Option<Claims>, now: int, reply: RefreshReply)
    requires !Truthy(Lookup(storage, AccessKey)) || !Truthy(Lookup(storage, RefreshKey))
    ensures Policy(storage, decode, now, reply) == Check(Resolved(false), [], storage)
  {
  }

  /** An unexpired token is accepted without calling the refresh endpoint. */
  lemma UnexpiredNeedsNoRefresh(storage: map<string, string>, decode: string -> Option<Claims>, now: int, reply: RefreshReply)
    requires Truthy(Lookup(storage, AccessKey)) && Truthy(Lookup(storage, RefreshKey))
    requires decode(storage[AccessKey]).Some? && Unexpired(decode(storage[AccessKey]).value, now)
    ensures Policy(storage, decode, now, reply) == Check(Resolved(true), [], storage)
  {
  }

  /** An expired token is refreshed exactly once with the stored refresh
      token; success stores the new pair and answers `true`, any failure
      clears the pair and answers `false`. */
  lemma ExpiredRefreshesOnce(storage: map<string, string>, decode: string -> Option<Claims>, now: int, reply: RefreshReply)
    requires Truthy(Lookup(storage, AccessKey)) && Truthy(Lookup(storage, RefreshKey))
    requires decode(storage[AccessKey]).Some? && !Unexpired(decode(storage[AccessKey]).value, now)
    ensures var c := Policy(storage, decode, now, reply);
      && c.refreshPosts == [storage[RefreshKey]]
      && (c.verdict == Resolved(true) <==> reply.RefreshStatus? && IsOk(reply.code) && reply.body.TokenJson?)
      && (c.verdict == Resolved(true) ==>
            c.storage == WithTokens(storage, Stringified(reply.body.accessToken), Stringified(reply.body.refreshToken)))
      && (c.verdict == Resolved(false) ==> c.storage == WithoutTokens(storage))
  {
  }

  /** Whatever happens: at most one refresh is posted; the store changes only
      by a refresh (a new pair or a cleared pair); an answer of `true` without
      a refresh leaves the store alone; a rejection never touches anything. */
  lemma StoreChangesOnlyThroughRefresh(storage: map<string, string>, decode: string -> Option<Claims>, now: int, reply: RefreshReply)
    ensures var c := Policy(storage, decode, now, reply);
      && |c.refreshPosts| <= 1
      && (c.refreshPosts == [] ==> c.storage == storage)
      && (c.verdict == Rejected ==> c.refreshPosts == [] && c.storage == storage)
      && (c.verdict == Resolved(false) && c.refreshPosts != [] ==>
            Lookup(c.storage, AccessKey) == None && Lookup(c.storage, RefreshKey) == None)
  {
  }
}
