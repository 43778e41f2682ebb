/**
 * The session store of src/context/AuthContext.tsx as the source runs it:
 * an `AuthProvider` object whose `token` and `user` slots are updated in
 * place, backed by the page's shared `localStorage`. Each operation is
 * proved to follow the matching function of SessionModel.
 */
module AuthContext {
  import opened Wrappers
  import opened JsonValue
  import opened BrowserStorage
  import opened SessionModel

  class AuthProvider {
    const storage: Storage
    const decode: Decoder
    var token: Option<string>
    var user: Json

    /** The provider's state together with the storage it is backed by. */
    function Snapshot(): Page
      reads this, storage
    {
      Page(storage.entries, Session(token, user))
    }

    /** Installs the values the first render computed; only `Mount` creates providers. */
    constructor FromFirstRender(storage: Storage, decode: Decoder, token: Option<string>, user: Json)
      ensures this.storage == storage && this.decode == decode
      ensures this.token == token && this.user == user
    {
      this.storage := storage;
      this.decode := decode;
      this.token := token;
      this.user := user;
    }

    /**
     * A render of the provider: both `useState` arguments are evaluated again
     * (their values are discarded once the state exists), so the decode of a
     * truthy `token` runs on every render and may throw.
     */
    method Render() returns (threw: bool)
      ensures threw <==> !RenderSafe(Session(token, user), decode)
      ensures threw ==> TokenPresent(token) && decode(token.value).None?
    {
      var _ := storage.GetItem(TokenKey);
      if token.Some? && token.value != "" {
        var claims := decode(token.value);
        threw := claims.None?;
      } else {
        threw := false;
      }
    }

    /** The mount effect: decode the saved token into both slots, or purge it when it does not decode. */
    method Rehydrate()
      modifies this, storage
      ensures Snapshot() == SessionModel.Rehydrate(old(Snapshot()), decode)
      ensures storage.entries == old(storage.entries) || storage.entries == old(storage.entries) - {TokenKey}
    {
      var saved := storage.GetItem(TokenKey);
      if saved.Some? && saved.value != "" {
        var decoded := decode(saved.value);
        if decoded.Some? {
          user := decoded.value;
          token := saved;
        } else {
          storage.RemoveItem(TokenKey);
        }
      }
    }

    /** `login`: storage and `token` are written before the decode, which may throw (`threw`). */
    method Login(newToken: string) returns (threw: bool)
      modifies this, storage
      ensures storage.entries == old(storage.entries)[TokenKey := newToken]
      ensures token == Some(newToken)
      ensures threw <==> decode(newToken).None?
      ensures user == if threw then old(user) else decode(newToken).value
      ensures LoginStep(old(Snapshot()), newToken, decode) == Transition(Snapshot(), threw)
    {
      storage.SetItem(TokenKey, newToken);
      token := Some(newToken);
      var decoded := decode(newToken);
      if decoded.None? {
        threw := true;
        return;
      }
      user := decoded.value;
      threw := false;
    }

    /** `logout`: remove the persisted token and clear both slots. */
    method Logout()
      modifies this, storage
      ensures storage.entries == old(storage.entries) - {TokenKey}
      ensures token.None? && user == JNull
      ensures Snapshot() == LogoutStep(old(Snapshot()))
    {
      storage.RemoveItem(TokenKey);
      token := None;
      user := JNull;
    }
  }

  /**
   * Creating the provider: the first render reads the saved token and, when it
   * is truthy, decodes it without a guard. `None` means that render threw, and
   * no provider exists.
   */
  method Mount(storage: Storage, decode: Decoder) returns (r: Option<AuthProvider>)
    ensures r.Some? <==> SessionModel.Mount(storage.entries, decode).Some?
    ensures r.Some? ==> fresh(r.value) && r.value.storage == storage && r.value.decode == decode
    ensures r.Some? ==> r.value.Snapshot() == SessionModel.Mount(storage.entries, decode).value
  {
    var saved := storage.GetItem(TokenKey);
    if saved.Some? && saved.value != "" {
      var decoded := decode(saved.value);
      if decoded.None? {
        return None;
      }
      var p := new AuthProvider.FromFirstRender(storage, decode, saved, decoded.value);
      r := Some(p);
    } else {
      var p := new AuthProvider.FromFirstRender(storage, decode, saved, JNull);
      r := Some(p);
    }
  }

  /**
   * What `useContext(AuthContext)` yields: the default value when no provider
   * is above the consumer, or the provider's.
   */
  datatype ContextValue = Default | Provided(provider: AuthProvider)

  function Footprint(c: ContextValue): set<object> {
    if c.Provided? then {c.provider, c.provider.storage} else {}
  }

  /** Reading `token` and `user` from the context: both null outside a provider. */
  method ReadContext(c: ContextValue) returns (token: Option<string>, user: Json)
    ensures c.Default? ==> token.None? && user == JNull
    ensures c.Provided? ==> token == c.provider.token && user == c.provider.user
  {
    if c.Provided? {
      token, user := c.provider.token, c.provider.user;
    } else {
      token, user := None, JNull;
    }
  }

  /** Calling the context's `login`: the default one does nothing and never throws. */
  method ContextLogin(c: ContextValue, newToken: string) returns (threw: bool)
    modifies Footprint(c)
    ensures c.Default? ==> !threw
    ensures c.Provided? ==>
              LoginStep(old(c.provider.Snapshot()), newToken, c.provider.decode) ==
                Transition(c.provider.Snapshot(), threw)
  {
    if c.Provided? {
      threw := c.provider.Login(newToken);
    } else {
      threw := false;
    }
  }

  /** Calling the context's `logout`: the default one does nothing. */
  method ContextLogout(c: ContextValue)
    modifies Footprint(c)
    ensures c.Provided? ==> c.provider.Snapshot() == LogoutStep(old(c.provider.Snapshot()))
  {
    if c.Provided? {
      c.provider.Logout();
    }
  }

  /** Logging out twice leaves the same state as logging out once. */
  method LogoutTwice(p: AuthProvider)
    modifies p, p.storage
    ensures p.Snapshot() == LogoutStep(old(p.Snapshot()))
  {
    p.Logout();
    p.Logout();
    LogoutIdempotent(old(p.Snapshot()));
  }
}
