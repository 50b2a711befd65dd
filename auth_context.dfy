/**
 * The session state machine of src/context/AuthContext.js: the `auth` state
 * `{ user, token }`, the `loading` flag, and the two `localStorage` keys
 * "token" and "userId". A stored token is a JWS compact serialisation whose
 * second dot-separated segment is the payload (section 7.1 of RFC 7515); the
 * base64 and JSON decoding of that segment is a partial function supplied by
 * the caller. Expiry follows the `exp` claim (section 4.1.4 of RFC 7519).
 *
 * The pure functions `AfterRestore`, `AfterUpdateAuth` and `AfterLogout` say
 * what each operation does to a snapshot of the session; the class `Session`
 * performs the same steps in place and is proved against them.
 */
module AuthContext {
  import opened Common

  /** The fields of a user record the client reads: `_id` and `role`. */
  datatype User = User(id: Option<string>, role: Option<string>)

  /** The React `auth` state `{ user, token }`; `None` is `null`. */
  datatype Auth = Auth(user: Option<User>, token: Option<string>)

  const SignedOut := Auth(None, None)

  /** The claims of a token payload the client reads. `exp` is in seconds since the epoch. */
  datatype Payload = Payload(userId: Option<string>, role: Option<string>, exp: Option<int>)

  /** A snapshot of the session: storage contents, `auth`, `loading`. */
  datatype SessionView = SessionView(items: map<string, string>, auth: Auth, loading: bool)

  /**
   * The fields of the user record the login, register and OAuth endpoints
   * answer with (`res.data`), which also carries the token.
   */
  datatype AuthResponse = AuthResponse(id: Option<string>, role: Option<string>, token: Option<string>)

  /** `res.data` used as the user. */
  function UserOf(d: AuthResponse): User {
    User(d.id, d.role)
  }

  // ---------------------------------------------------------------------------
  // token.split(".")[1]

  /** `s.split(sep)`: the pieces between separators, at least one. */
  function Split(s: string, sep: char): (parts: seq<string>)
    ensures |parts| >= 1
    ensures forall i :: 0 <= i < |parts| ==> sep !in parts[i]
    ensures |parts| == 1 <==> sep !in s
    ensures sep !in s ==> parts == [s]
  {
    if s == [] then [[]]
    else
      var rest := Split(s[1..], sep);
      if s[0] == sep then [[]] + rest
      else
        assert sep !in s ==> [s[0]] + rest[0] == s;
        [[s[0]] + rest[0]] + rest[1..]
  }

  /** `parts.join(sep)`. */
  function Join(parts: seq<string>, sep: char): string
    requires |parts| >= 1
  {
    if |parts| == 1 then parts[0] else parts[0] + [sep] + Join(parts[1..], sep)
  }

  /** Splitting loses nothing: joining the pieces gives the string back. */
  lemma {:induction false} SplitJoin(s: string, sep: char)
    ensures Join(Split(s, sep), sep) == s
  {
    if s != [] {
      var rest := Split(s[1..], sep);
      SplitJoin(s[1..], sep);
      if s[0] == sep {
        assert Split(s, sep)[1..] == rest;
      } else {
        var parts := Split(s, sep);
        if |rest| == 1 {
          assert parts == [[s[0]] + rest[0]];
        } else {
          assert parts[1..] == rest[1..];
          assert Join(rest, sep) == rest[0] + [sep] + Join(rest[1..], sep);
        }
      }
    }
  }

  /** A separator after a separator-free head starts the second piece. */
  lemma {:induction false} SplitAfterHead(head: string, tail: string, sep: char)
    requires sep !in head
    ensures Split(head + [sep] + tail, sep) == [head] + Split(tail, sep)
  {
    if head == [] {
      assert head + [sep] + tail == [sep] + tail;
      assert ([sep] + tail)[1..] == tail;
    } else {
      var s := head + [sep] + tail;
      assert s[0] == head[0] && s[1..] == head[1..] + [sep] + tail;
      SplitAfterHead(head[1..], tail, sep);
      assert [head[0]] + head[1..] == head;
    }
  }

  /** The payload segment of a token: `token.split(".")[1]`, absent when the token has no dot. */
  function PayloadSegment(token: string): (seg: Option<string>)
    ensures seg.None? <==> '.' !in token
    ensures seg.Some? ==> '.' !in seg.value
  {
    var parts := Split(token, '.');
    if |parts| >= 2 then Some(parts[1]) else None
  }

  /** The payload segment is exactly the text between the first and the second dot (or the end). */
  lemma PayloadSegmentBetweenDots(head: string, seg: string, rest: string)
    requires '.' !in head && '.' !in seg
    requires rest == [] || rest[0] == '.'
    ensures PayloadSegment(head + "." + seg + rest) == Some(seg)
  {
    assert head + "." + seg + rest == head + ['.'] + (seg + rest);
    SplitAfterHead(head, seg + rest, '.');
    if rest == [] {
      assert seg + rest == seg;
    } else {
      assert seg + rest == seg + ['.'] + rest[1..];
      SplitAfterHead(seg, rest[1..], '.');
    }
  }

  /** `JSON.parse(atob(token.split(".")[1]))`, failing when there is no second segment. */
  function DecodeToken(token: string, decode: string -> Option<Payload>): (p: Option<Payload>)
    ensures '.' !in token ==> p.None?
    ensures '.' in token ==> p == decode(PayloadSegment(token).value)
  {
    match PayloadSegment(token)
    case None => None
    case Some(seg) => decode(seg)
  }

  /**
   * `payload.exp && payload.exp < Date.now() / 1000`, with the clock read as
   * integer milliseconds: an absent or zero `exp` never expires.
   */
  predicate IsExpired(exp: Option<int>, nowMs: int)
    ensures IsExpired(exp, nowMs) ==> exp.Some? && exp.value != 0 && nowMs > exp.value * 1000
    ensures exp.Some? && exp.value > 0 && nowMs >= (exp.value + 1) * 1000 ==> IsExpired(exp, nowMs)
  {
    exp.Some? && exp.value != 0 && exp.value * 1000 < nowMs
  }

  lemma ExpiryBoundary(exp: int, nowMs: int)
    requires exp != 0
    ensures !IsExpired(None, nowMs)
    ensures !IsExpired(Some(exp), exp * 1000)
    ensures IsExpired(Some(exp), exp * 1000 + 1)
  {
  }

  // ---------------------------------------------------------------------------
  // The three operations on a snapshot

  /** The state before the first effect: user null, token whatever is stored, still loading. */
  function Initial(items: map<string, string>): (v: SessionView)
    ensures v.auth.user.None? && v.auth.token == Lookup(items, TokenKey) && v.loading && v.items == items
  {
    SessionView(items, Auth(None, Lookup(items, TokenKey)), true)
  }

  /** Both keys removed, both fields null. */
  function Cleared(v: SessionView): SessionView {
    SessionView(v.items - {TokenKey, UserIdKey}, SignedOut, false)
  }

  /** True when only the session keys may differ between two storage snapshots. */
  ghost predicate SameOtherKeys(a: map<string, string>, b: map<string, string>) {
    forall k :: k != TokenKey && k != UserIdKey ==> Lookup(a, k) == Lookup(b, k)
  }

  /** `restoreSession` run on a snapshot. */
  function AfterRestore(v: SessionView, nowMs: int, decode: string -> Option<Payload>): (r: SessionView)
    ensures !r.loading
    ensures SameOtherKeys(r.items, v.items)
    ensures Lookup(r.items, TokenKey) == Lookup(v.items, TokenKey) || TokenKey !in r.items
    ensures r.auth.token.Some? ==> r.auth.token == Lookup(v.items, TokenKey) || r.auth == v.auth
  {
    var token := Lookup(v.items, TokenKey);
    if !Truthy(token) then v.(loading := false)
    else match DecodeToken(token.value, decode)
      case None => Cleared(v)
      case Some(p) =>
        if IsExpired(p.exp, nowMs) then Cleared(v)
        else
          var items := if Truthy(p.userId) then v.items[UserIdKey := p.userId.value] else v.items;
          SessionView(items, Auth(Some(User(p.userId, p.role)), token), false)
  }

  /** `updateAuth(userData, token)` on a snapshot. */
  function AfterUpdateAuth(v: SessionView, user: User, token: string): (r: SessionView)
    ensures Lookup(r.items, TokenKey) == Some(token)
    ensures Lookup(r.items, UserIdKey) == if Truthy(user.id) then user.id else Lookup(v.items, UserIdKey)
    ensures SameOtherKeys(r.items, v.items)
    ensures r.auth == Auth(Some(user), Some(token)) && r.loading == v.loading
  {
    var items := v.items[TokenKey := token];
    var items := if Truthy(user.id) then items[UserIdKey := user.id.value] else items;
    SessionView(items, Auth(Some(user), Some(token)), v.loading)
  }

  /** `logout()` on a snapshot. */
  function AfterLogout(v: SessionView): (r: SessionView)
    ensures TokenKey !in r.items && UserIdKey !in r.items
    ensures SameOtherKeys(r.items, v.items)
    ensures r.auth == SignedOut && r.loading == v.loading
  {
    SessionView(v.items - {TokenKey, UserIdKey}, SignedOut, v.loading)
  }

  // ---------------------------------------------------------------------------
  // What restoring does, case by case

  /** With no stored token, restore only ends loading. */
  lemma RestoreWithoutToken(v: SessionView, nowMs: int, decode: string -> Option<Payload>)
    requires !Truthy(Lookup(v.items, TokenKey))
    ensures AfterRestore(v, nowMs, decode) == v.(loading := false)
  {
  }

  /** A token that does not decode, or whose `exp` lies strictly before now, is wiped. */
  lemma RestoreRejectsBadToken(v: SessionView, nowMs: int, decode: string -> Option<Payload>)
    requires Truthy(Lookup(v.items, TokenKey))
    requires var p := DecodeToken(v.items[TokenKey], decode); p.None? || IsExpired(p.value.exp, nowMs)
    ensures var r := AfterRestore(v, nowMs, decode);
      r.auth == SignedOut && r.items == v.items - {TokenKey, UserIdKey} && !r.loading
  {
  }

  /** A decodable, unexpired token becomes the session; "userId" is written only when the payload has one. */
  lemma RestoreAcceptsGoodToken(v: SessionView, nowMs: int, decode: string -> Option<Payload>, p: Payload)
    requires Truthy(Lookup(v.items, TokenKey))
    requires DecodeToken(v.items[TokenKey], decode) == Some(p) && !IsExpired(p.exp, nowMs)
    ensures var r := AfterRestore(v, nowMs, decode);
      && r.auth == Auth(Some(User(p.userId, p.role)), Some(v.items[TokenKey]))
      && r.items == (if Truthy(p.userId) then v.items[UserIdKey := p.userId.value] else v.items)
  {
  }

  /** Reloading a second time changes nothing: restore is idempotent. */
  lemma RestoreIdempotent(v: SessionView, nowMs: int, decode: string -> Option<Payload>)
    ensures AfterRestore(AfterRestore(v, nowMs, decode), nowMs, decode) == AfterRestore(v, nowMs, decode)
  {
    var r := AfterRestore(v, nowMs, decode);
    var token := Lookup(v.items, TokenKey);
    if Truthy(token) && DecodeToken(token.value, decode).Some? && !IsExpired(DecodeToken(token.value, decode).value.exp, nowMs) {
      assert Lookup(r.items, TokenKey) == token;
    }
  }

  /**
   * A session written by `updateAuth` survives a reload: when the token's payload
   * names the same user and role and has not expired, restore rebuilds the same
   * `auth` and leaves storage as `updateAuth` wrote it.
   */
  lemma RestoreAfterUpdateAuth(v: SessionView, user: User, token: string, nowMs: int,
                               decode: string -> Option<Payload>, p: Payload)
    requires token != ""
    requires DecodeToken(token, decode) == Some(p) && !IsExpired(p.exp, nowMs)
    requires p.userId == user.id && p.role == user.role
    ensures var u := AfterUpdateAuth(v, user, token);
      AfterRestore(u, nowMs, decode) == u.(loading := false)
  {
    var u := AfterUpdateAuth(v, user, token);
    assert Lookup(u.items, TokenKey) == Some(token);
    if Truthy(user.id) {
      assert u.items[UserIdKey := user.id.value] == u.items;
    }
  }

  /** After logout a reload keeps the user signed out and storage untouched. */
  lemma RestoreAfterLogout(v: SessionView, nowMs: int, decode: string -> Option<Payload>)
    ensures var o := AfterLogout(v);
      AfterRestore(o, nowMs, decode) == o.(loading := false)
  {
    assert TokenKey !in AfterLogout(v).items;
  }

  // ---------------------------------------------------------------------------
  // The provider's state, updated in place

  /** `AuthProvider`: the `auth` and `loading` state over the shared `localStorage`. */
  class Session {
    const store: LocalStorage
    var auth: Auth
    var loading: bool

    function View(): SessionView
      reads this, store
    {
      SessionView(store.items, auth, loading)
    }

    /** `useState({ user: null, token: localStorage.getItem("token") })` and `useState(true)`. */
    constructor (store: LocalStorage)
      ensures this.store == store
      ensures View() == Initial(store.items)
    {
      this.store := store;
      auth := Auth(None, store.GetItem(TokenKey));
      loading := true;
    }

    /** The mount effect `restoreSession`, reading the clock as `nowMs`. */
    method RestoreSession(nowMs: int, decode: string -> Option<Payload>)
      modifies this, store
      ensures View() == AfterRestore(old(View()), nowMs, decode)
    {
      var token := store.GetItem(TokenKey);
      if !Truthy(token) {
        loading := false;
        return;
      }
      var payload := DecodeToken(token.value, decode);
      if payload.None? {
        // the catch block, then finally
        store.RemoveItem(TokenKey);
        store.RemoveItem(UserIdKey);
        auth := SignedOut;
        loading := false;
        return;
      }
      var p := payload.value;
      if IsExpired(p.exp, nowMs) {
        store.RemoveItem(TokenKey);
        store.RemoveItem(UserIdKey);
        auth := SignedOut;
        loading := false;
        return;
      }
      auth := Auth(Some(User(p.userId, p.role)), token);
      if Truthy(p.userId) {
        store.SetItem(UserIdKey, p.userId.value);
      }
      loading := false;
    }

    /** `updateAuth(userData, token)`. */
    method UpdateAuth(user: User, token: string)
      modifies this, store
      ensures View() == AfterUpdateAuth(old(View()), user, token)
    {
      store.SetItem(TokenKey, token);
      if Truthy(user.id) {
        store.SetItem(UserIdKey, user.id.value);
      }
      auth := Auth(Some(user), Some(token));
    }

    /** `logout()`. */
    method Logout()
      modifies this, store
      ensures View() == AfterLogout(old(View()))
    {
      store.RemoveItem(TokenKey);
      store.RemoveItem(UserIdKey);
      auth := SignedOut;
    }

    /** The raw `setAuth` the context also exposes. */
    method SetAuth(a: Auth)
      modifies this
      ensures auth == a && loading == old(loading)
    {
      auth := a;
    }
  }
}
