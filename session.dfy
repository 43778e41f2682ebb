/**
 * A value-level model of the session store in src/context/AuthContext.tsx:
 * the persistent entry under "jwtToken", the two state slots `token` and
 * `user`, and the transitions the provider performs on them. The class in
 * auth_context.dfy is proved to follow these functions step by step; the
 * lemmas here state what the transitions guarantee, alone and over any
 * sequence of logins and logouts.
 *
 * `jwtDecode` is a library whose code is not part of this model. It is a
 * parameter `decode`: `None` means that it throws, `Some(c)` that it returns
 * the claims `c`. It is a pure function of the token string.
 */
module SessionModel {
  import opened Wrappers
  import opened JsonValue
  import opened BrowserStorage

  /** The only storage key the session store reads or writes. */
  const TokenKey: string := "jwtToken"

  type Decoder = string -> Option<Json>

  /** The provider's two state slots. */
  datatype Session = Session(token: Option<string>, user: Json)

  /** What the page holds: the contents of `localStorage` and the provider's state. */
  datatype Page = Page(storage: map<string, string>, session: Session)

  /** Whether the page is still mounted, or an exception thrown while rendering took it down. */
  datatype Status = Live(page: Page) | Crashed

  /** The state after a call, and whether the call threw. */
  datatype Transition = Transition(page: Page, threw: bool)

  /** What a user can do to the session from the user interface. */
  datatype Op = Login(token: string) | Logout

  /** JavaScript truthiness of a `string | null`: `null` and `""` are falsy. */
  predicate TokenPresent(t: Option<string>) {
    t.Some? && t.value != ""
  }

  function StoredToken(storage: map<string, string>): Option<string> {
    Lookup(storage, TokenKey)
  }

  /**
   * Every render of the provider evaluates `token ? jwtDecode(token) : null`
   * as the argument of `useState`, whether or not React still uses it; the
   * render throws exactly when the current token is truthy and does not decode.
   */
  predicate RenderSafe(s: Session, decode: Decoder) {
    TokenPresent(s.token) ==> decode(s.token.value).Some?
  }

  /** The first render: both `useState` initial values. `None` when the unguarded decode throws. */
  function Mount(storage: map<string, string>, decode: Decoder): Option<Page> {
    var saved := StoredToken(storage);
    if !TokenPresent(saved) then Some(Page(storage, Session(saved, JNull)))
    else match decode(saved.value)
      case None => None
      case Some(claims) => Some(Page(storage, Session(saved, claims)))
  }

  /** The mount effect: re-read the saved token; decode it, or purge it when it does not decode. */
  function Rehydrate(p: Page, decode: Decoder): Page {
    var saved := StoredToken(p.storage);
    if !TokenPresent(saved) then p
    else match decode(saved.value)
      case Some(claims) => Page(p.storage, Session(saved, claims))
      case None => Page(p.storage - {TokenKey}, p.session)
  }

  /** `login`: persist, set `token`, then decode; a decode that throws leaves `user` as it was. */
  function LoginStep(p: Page, t: string, decode: Decoder): Transition {
    var storage := p.storage[TokenKey := t];
    match decode(t)
    case None => Transition(Page(storage, Session(Some(t), p.session.user)), true)
    case Some(claims) => Transition(Page(storage, Session(Some(t), claims)), false)
  }

  /** `logout`: remove the key, clear both slots. */
  function LogoutStep(p: Page): Page {
    Page(p.storage - {TokenKey}, Session(None, JNull))
  }

  /** The re-render that follows a change of state. */
  function AfterRender(p: Page, decode: Decoder): Status {
    if RenderSafe(p.session, decode) then Live(p) else Crashed
  }

  /** Loading the page: the first render, then the mount effect and the render it causes. */
  function Boot(storage: map<string, string>, decode: Decoder): Status {
    match Mount(storage, decode)
    case None => Crashed
    case Some(p) => AfterRender(Rehydrate(p, decode), decode)
  }

  /** One user action and the render after it. A failed login's exception is caught by its caller. */
  function Apply(p: Page, op: Op, decode: Decoder): Status {
    match op
    case Login(t) => AfterRender(LoginStep(p, t, decode).page, decode)
    case Logout => AfterRender(LogoutStep(p), decode)
  }

  /** A sequence of user actions, stopping for good at the first crash. */
  function Run(s: Status, ops: seq<Op>, decode: Decoder): Status
    decreases |ops|
  {
    if ops == [] || s.Crashed? then s
    else Run(Apply(s.page, ops[0], decode), ops[1..], decode)
  }

  /** `token` mirrors the persisted entry. */
  ghost predicate Mirrors(p: Page) {
    p.session.token == StoredToken(p.storage)
  }

  /** `user` is what the token decodes to (null with no token; unconstrained for the falsy token ""). */
  ghost predicate Synced(s: Session, decode: Decoder) {
    && (s.token.None? ==> s.user == JNull)
    && (TokenPresent(s.token) ==> decode(s.token.value) == Some(s.user))
  }

  ghost predicate Invariant(p: Page, decode: Decoder) {
    Mirrors(p) && Synced(p.session, decode)
  }

  /** Mounting throws exactly when a truthy token is stored and does not decode. */
  lemma MountFailsOnlyOnCorruptToken(storage: map<string, string>, decode: Decoder)
    ensures Mount(storage, decode).None? <==>
              TokenPresent(StoredToken(storage)) && decode(StoredToken(storage).value).None?
    ensures Mount(storage, decode).Some? ==>
              Mount(storage, decode).value.storage == storage &&
              Mount(storage, decode).value.session.token == StoredToken(storage) &&
              Invariant(Mount(storage, decode).value, decode)
    ensures Mount(storage, decode).Some? && !TokenPresent(StoredToken(storage)) ==>
              Mount(storage, decode).value.session.user == JNull
  {
  }

  /**
   * After a successful mount the effect changes nothing: its decode repeats
   * the one the first render did, so its purging branch is never reached.
   * A corrupt stored token instead crashes the page before the effect runs,
   * and stays stored.
   */
  lemma RehydrateAfterMountChangesNothing(storage: map<string, string>, decode: Decoder)
    ensures Mount(storage, decode).Some? ==>
              Rehydrate(Mount(storage, decode).value, decode) == Mount(storage, decode).value &&
              Boot(storage, decode) == Live(Mount(storage, decode).value)
    ensures Mount(storage, decode).None? ==> Boot(storage, decode) == Crashed
  {
  }

  /** `login` persists and sets `token` before the decode that may throw; a throw leaves `user` unchanged. */
  lemma LoginFailureBehaviour(p: Page, t: string, decode: Decoder)
    ensures LoginStep(p, t, decode).page.storage == p.storage[TokenKey := t]
    ensures LoginStep(p, t, decode).page.session.token == Some(t)
    ensures LoginStep(p, t, decode).threw <==> decode(t).None?
    ensures decode(t).None? ==> LoginStep(p, t, decode).page.session.user == p.session.user
    ensures decode(t).Some? ==> LoginStep(p, t, decode).page.session.user == decode(t).value
  {
  }

  /**
   * A failed login of a truthy token crashes the page on the render that
   * follows it, and leaves that token stored, so every later load crashes too.
   */
  lemma FailedLoginCrashesEveryReload(p: Page, t: string, decode: Decoder)
    requires t != "" && decode(t).None?
    ensures Apply(p, Login(t), decode) == Crashed
    ensures StoredToken(LoginStep(p, t, decode).page.storage) == Some(t)
    ensures Boot(LoginStep(p, t, decode).page.storage, decode) == Crashed
  {
  }

  /** `logout` clears everything whatever the prior state, and a second call changes nothing. */
  lemma LogoutIdempotent(p: Page)
    ensures LogoutStep(p).session == Session(None, JNull)
    ensures StoredToken(LogoutStep(p).storage) == None
    ensures LogoutStep(LogoutStep(p)) == LogoutStep(p)
  {
  }

  /**
   * After a successful login `user` is the decoded claims, so it is non-null
   * exactly when those claims are not the JSON literal null; after a logout
   * both slots are null.
   */
  lemma LoginLogoutPairing(p: Page, t: string, decode: Decoder)
    requires decode(t).Some?
    ensures LoginStep(p, t, decode).page.session.token.Some?
    ensures LoginStep(p, t, decode).page.session.user != JNull <==> decode(t).value != JNull
    ensures LogoutStep(p).session.token.None? && LogoutStep(p).session.user == JNull
  {
  }

  /** Reloading after a successful login restores the same token and the same identity. */
  lemma LoginThenReload(p: Page, t: string, decode: Decoder)
    requires t != "" && decode(t).Some?
    ensures Boot(LoginStep(p, t, decode).page.storage, decode) ==
              Live(Page(p.storage[TokenKey := t], Session(Some(t), decode(t).value)))
  {
  }

  /** Only a truthy token that does not decode can make a render throw. */
  lemma InvariantIsRenderSafe(p: Page, decode: Decoder)
    requires Synced(p.session, decode)
    ensures RenderSafe(p.session, decode)
  {
  }

  /** One user action keeps the invariant on a page that stays up. */
  lemma ApplyPreservesInvariant(p: Page, op: Op, decode: Decoder)
    requires Invariant(p, decode)
    ensures Apply(p, op, decode).Live? ==> Invariant(Apply(p, op, decode).page, decode)
  {
  }

  /** Any sequence of logins and logouts keeps the invariant for as long as the page stays up. */
  lemma {:induction false} RunPreservesInvariant(p: Page, ops: seq<Op>, decode: Decoder)
    requires Invariant(p, decode)
    ensures Run(Live(p), ops, decode).Live? ==> Invariant(Run(Live(p), ops, decode).page, decode)
    decreases |ops|
  {
    if ops != [] {
      var s := Apply(p, ops[0], decode);
      ApplyPreservesInvariant(p, ops[0], decode);
      if s.Live? {
        RunPreservesInvariant(s.page, ops[1..], decode);
      }
    }
  }

  /** Every state a loaded page reaches has `token` mirroring storage and `user` decoded from `token`. */
  lemma ReachableStatesKeepInvariant(storage: map<string, string>, ops: seq<Op>, decode: Decoder)
    ensures Run(Boot(storage, decode), ops, decode).Live? ==>
              Invariant(Run(Boot(storage, decode), ops, decode).page, decode)
  {
    MountFailsOnlyOnCorruptToken(storage, decode);
    RehydrateAfterMountChangesNothing(storage, decode);
    if Boot(storage, decode).Live? {
      RunPreservesInvariant(Boot(storage, decode).page, ops, decode);
    }
  }

  /** No action ever reads or writes a storage key other than "jwtToken". */
  lemma {:induction false} RunKeepsOtherKeys(p: Page, ops: seq<Op>, decode: Decoder, k: string)
    requires k != TokenKey
    ensures Run(Live(p), ops, decode).Live? ==>
              Lookup(Run(Live(p), ops, decode).page.storage, k) == Lookup(p.storage, k)
    decreases |ops|
  {
    if ops != [] {
      var s := Apply(p, ops[0], decode);
      if s.Live? {
        assert Lookup(s.page.storage, k) == Lookup(p.storage, k);
        RunKeepsOtherKeys(s.page, ops[1..], decode, k);
      }
    }
  }

  /** The persisted token after a run on a live page is decided by the last action alone. */
  lemma {:induction false} LastOpDecidesToken(p: Page, ops: seq<Op>, decode: Decoder)
    requires ops != []
    ensures Run(Live(p), ops, decode).Live? ==>
              StoredToken(Run(Live(p), ops, decode).page.storage) ==
                (match ops[|ops| - 1] case Login(t) => Some(t) case Logout => None)
    decreases |ops|
  {
    var s := Apply(p, ops[0], decode);
    if |ops| == 1 {
      match ops[0]
      case Login(t) => assert StoredToken(LoginStep(p, t, decode).page.storage) == Some(t);
      case Logout => assert StoredToken(LogoutStep(p).storage) == None;
    } else if s.Live? {
      LastOpDecidesToken(s.page, ops[1..], decode);
      assert ops[1..][|ops[1..]| - 1] == ops[|ops| - 1];
    }
  }
}
