/**
 * Values and helpers shared by every component of the client: optional values
 * (JavaScript `null` / `undefined`), truthiness of strings, `String.prototype.trim`,
 * decimal rendering of counters, `Array.prototype.filter`, the `Map` built by a
 * `forEach`/`set` loop, and the browser's `localStorage`.
 */
module Common {

  datatype Option<+T> = None | Some(value: T) {
    /** `x || default` for a value that is absent or present. */
    function GetOr(default: T): T {
      if Some? then value else default
    }
  }

  /** A string-or-null is truthy in JavaScript when it is present and non-empty. */
  predicate Truthy(s: Option<string>) {
    s.Some? && s.value != ""
  }

  /** How `setItem` and a template literal render a string that may be `undefined`. */
  function Stringified(s: Option<string>): string {
    s.GetOr("undefined")
  }

  // ---------------------------------------------------------------------------
  // String.prototype.trim

  /** The characters `trim` removes: the ECMAScript WhiteSpace and LineTerminator sets. */
  predicate IsJsSpace(c: char) {
    || c == ' ' || c == '\t' || c == '\n' || c == '\r'
    || c == '\U{B}' || c == '\U{C}' || c == '\U{A0}' || c == '\U{FEFF}'
    || c == '\U{1680}' || ('\U{2000}' <= c <= '\U{200A}')
    || c == '\U{2028}' || c == '\U{2029}' || c == '\U{202F}' || c == '\U{205F}' || c == '\U{3000}'
  }

  predicate AllSpace(s: string) {
    forall i :: 0 <= i < |s| ==> IsJsSpace(s[i])
  }

  /** Drops leading whitespace: what remains is a suffix, and what was cut is whitespace. */
  function TrimStart(s: string): (r: string)
    ensures |r| <= |s| && r == s[|s| - |r|..] && AllSpace(s[..|s| - |r|])
    ensures r == [] || !IsJsSpace(r[0])
  {
    if s != [] && IsJsSpace(s[0]) then
      var r := TrimStart(s[1..]);
      assert AllSpace(s[..|s| - |r|]) by {
        forall k | 0 <= k < |s| - |r| ensures IsJsSpace(s[k]) {
          if k > 0 { assert s[k] == s[1..][k - 1]; }
        }
      }
      r
    else
      s
  }

  /** Drops trailing whitespace: what remains is a prefix, and what was cut is whitespace. */
  function TrimEnd(s: string): (r: string)
    ensures |r| <= |s| && r == s[..|r|] && AllSpace(s[|r|..])
    ensures r == [] || !IsJsSpace(r[|r| - 1])
  {
    if s != [] && IsJsSpace(s[|s| - 1]) then
      var r := TrimEnd(s[..|s| - 1]);
      assert s[|r|..] == s[..|s| - 1][|r|..] + [s[|s| - 1]];
      r
    else
      s
  }

  /**
   * `s.trim()`: the longest infix of `s` that neither starts nor ends with
   * whitespace, everything cut away being whitespace.
   */
  function Trim(s: string): (r: string)
    ensures |r| <= |s|
    ensures r == [] || (!IsJsSpace(r[0]) && !IsJsSpace(r[|r| - 1]))
  {
    TrimEnd(TrimStart(s))
  }

  /** What `trim` keeps is an infix of the input, and everything it cuts on either side is whitespace. */
  lemma TrimCutsOnlySpace(s: string)
    ensures exists i, j :: 0 <= i <= j <= |s| && Trim(s) == s[i..j] && AllSpace(s[..i]) && AllSpace(s[j..])
  {
    var t := TrimStart(s);
    var r := TrimEnd(t);
    var i := |s| - |t|;
    assert r == s[i..i + |r|];
    assert AllSpace(s[i + |r|..]) by {
      assert t[|r|..] == s[i + |r|..];
    }
    assert Trim(s) == s[i..i + |r|] && AllSpace(s[..i]) && AllSpace(s[i + |r|..]);
  }

  /** A string trims to the empty string exactly when it is all whitespace. */
  lemma TrimEmptyIffAllSpace(s: string)
    ensures Trim(s) == [] <==> AllSpace(s)
  {
    var t := TrimStart(s);
    TrimStartEmptyIffAllSpace(s);
    TrimEndEmptyIffAllSpace(t);
    if t != [] {
      assert !IsJsSpace(t[0]);
    }
  }

  lemma TrimStartEmptyIffAllSpace(s: string)
    ensures TrimStart(s) == [] <==> AllSpace(s)
  {
    var r := TrimStart(s);
    if r == [] {
      assert s[..|s|] == s;
    } else {
      assert r[0] == s[|s| - |r|];
    }
  }

  lemma TrimEndEmptyIffAllSpace(s: string)
    ensures TrimEnd(s) == [] <==> AllSpace(s)
  {
    var r := TrimEnd(s);
    if r == [] {
      assert s[0..] == s;
    } else {
      assert r[0] == s[0];
    }
  }

  /** Trimming an already trimmed string changes nothing. */
  lemma TrimIdempotent(s: string)
    ensures Trim(Trim(s)) == Trim(s)
  {
    var r := Trim(s);
    assert TrimStart(r) == r;
    assert TrimEnd(r) == r;
  }

  // ---------------------------------------------------------------------------
  // Decimal rendering of non-negative integers (template literals `${n}`)

  predicate IsDigit(c: char) {
    '0' <= c <= '9'
  }

  function DigitChar(d: nat): (c: char)
    requires d < 10
    ensures IsDigit(c) && (c as int) - ('0' as int) == d
  {
    (('0' as int) + d) as char
  }

  /** `${n}` for a non-negative integer: its decimal digits, no leading zero. */
  function NatToString(n: nat): (r: string)
    ensures |r| >= 1
    ensures forall i :: 0 <= i < |r| ==> IsDigit(r[i])
    ensures |r| > 1 ==> r[0] != '0'
  {
    if n < 10 then [DigitChar(n)] else NatToString(n / 10) + [DigitChar(n % 10)]
  }

  /** The value a string of decimal digits denotes. */
  function DigitsValue(s: string): int
    requires forall i :: 0 <= i < |s| ==> IsDigit(s[i])
  {
    if s == [] then 0 else 10 * DigitsValue(s[..|s| - 1]) + ((s[|s| - 1] as int) - ('0' as int))
  }

  /** Reading back the rendered digits gives the number: the rendering is injective. */
  lemma {:induction false} NatToStringRoundTrip(n: nat)
    ensures DigitsValue(NatToString(n)) == n
  {
    if n >= 10 {
      NatToStringRoundTrip(n / 10);
      var s := NatToString(n);
      assert s[..|s| - 1] == NatToString(n / 10);
      assert (s[|s| - 1] as int) - ('0' as int) == n % 10;
      assert n == 10 * (n / 10) + n % 10;
    }
  }

  // ---------------------------------------------------------------------------
  // Array.prototype.filter

  /** `r` is `xs` with some elements left out and the rest kept in order. */
  predicate IsSubsequence<T(==)>(r: seq<T>, xs: seq<T>)
    decreases |xs|
  {
    if r == [] then true
    else if xs == [] then false
    else if r[0] == xs[0] then IsSubsequence(r[1..], xs[1..])
    else IsSubsequence(r, xs[1..])
  }

  /** `xs.filter(p)`. */
  function Filter<T(==)>(xs: seq<T>, p: T -> bool): (r: seq<T>)
    ensures |r| <= |xs|
    ensures forall i :: 0 <= i < |xs| ==> (xs[i] in r <==> p(xs[i]))
    ensures forall i :: 0 <= i < |r| ==> r[i] in xs && p(r[i])
  {
    if xs == [] then [] else if p(xs[0]) then [xs[0]] + Filter(xs[1..], p) else Filter(xs[1..], p)
  }

  /** What `filter` keeps stays in its original order. */
  lemma {:induction false} FilterIsSubsequence<T>(xs: seq<T>, p: T -> bool)
    ensures IsSubsequence(Filter(xs, p), xs)
  {
    if xs != [] {
      FilterIsSubsequence(xs[1..], p);
      var r := Filter(xs, p);
      if p(xs[0]) {
        assert r[0] == xs[0] && r[1..] == Filter(xs[1..], p);
      } else {
        SubsequencePrepend(r, xs[0], xs[1..]);
        assert [xs[0]] + xs[1..] == xs;
      }
    }
  }

  /** A subsequence of `ys` is still one after an element is put in front of `ys`. */
  lemma {:induction false} SubsequencePrepend<T>(r: seq<T>, x: T, ys: seq<T>)
    requires IsSubsequence(r, ys)
    ensures IsSubsequence(r, [x] + ys)
    decreases |ys|, 1
  {
    assert ([x] + ys)[1..] == ys;
    if r != [] && r[0] == x {
      SubsequenceDropHead(r, ys);
    }
  }

  /** Dropping the first element of a subsequence leaves a subsequence. */
  lemma {:induction false} SubsequenceDropHead<T>(r: seq<T>, ys: seq<T>)
    requires r != [] && IsSubsequence(r, ys)
    ensures IsSubsequence(r[1..], ys)
    decreases |ys|, 0
  {
    assert ys != [];
    if r[0] == ys[0] {
      SubsequencePrepend(r[1..], ys[0], ys[1..]);
      assert [ys[0]] + ys[1..] == ys;
    } else {
      SubsequenceDropHead(r, ys[1..]);
      SubsequencePrepend(r[1..], ys[0], ys[1..]);
      assert [ys[0]] + ys[1..] == ys;
    }
  }

  /** When every element passes, `filter` returns the array unchanged. */
  lemma {:induction false} FilterAllPass<T>(xs: seq<T>, p: T -> bool)
    requires forall i :: 0 <= i < |xs| ==> p(xs[i])
    ensures Filter(xs, p) == xs
  {
    if xs != [] {
      FilterAllPass(xs[1..], p);
    }
  }

  /** Filtering distributes over concatenation. */
  lemma {:induction false} FilterAppend<T>(xs: seq<T>, ys: seq<T>, p: T -> bool)
    ensures Filter(xs + ys, p) == Filter(xs, p) + Filter(ys, p)
  {
    if xs == [] {
      assert xs + ys == ys;
    } else {
      assert (xs + ys)[1..] == xs[1..] + ys;
      FilterAppend(xs[1..], ys, p);
    }
  }

  /** A user record in a list where only `_id` is read. */
  datatype UserRef = UserRef(id: string)

  /** `users.filter(u => u._id !== id)`. */
  function RemoveById(users: seq<UserRef>, id: string): (r: seq<UserRef>)
    ensures IsSubsequence(r, users)
    ensures forall i :: 0 <= i < |r| ==> r[i].id != id
    ensures forall i :: 0 <= i < |users| && users[i].id != id ==> users[i] in r
  {
    FilterIsSubsequence(users, (u: UserRef) => u.id != id);
    Filter(users, (u: UserRef) => u.id != id)
  }

  /** Removing an id nobody has changes nothing, so removing twice is removing once. */
  lemma RemoveByIdIdempotent(users: seq<UserRef>, id: string)
    ensures RemoveById(RemoveById(users, id), id) == RemoveById(users, id)
  {
    var r := RemoveById(users, id);
    FilterAllPass(r, (u: UserRef) => u.id != id);
  }

  // ---------------------------------------------------------------------------
  // Array.prototype.find

  /** The position of the element `xs.find(p)` returns: the first that passes, if any. */
  function FindIndex<T>(xs: seq<T>, p: T -> bool): (r: Option<nat>)
    ensures r.Some? ==> r.value < |xs| && p(xs[r.value]) && forall j :: 0 <= j < r.value ==> !p(xs[j])
    ensures r.None? ==> forall j :: 0 <= j < |xs| ==> !p(xs[j])
  {
    if xs == [] then None
    else if p(xs[0]) then Some(0)
    else match FindIndex(xs[1..], p)
      case None => None
      case Some(i) => Some(i + 1)
  }

  /** `xs.find(p)`, with `undefined` as `None`. */
  function Find<T>(xs: seq<T>, p: T -> bool): Option<T> {
    match FindIndex(xs, p)
    case None => None
    case Some(i) => Some(xs[i])
  }

  // ---------------------------------------------------------------------------
  // A `Map` filled by `list.forEach(x => map.set(key(x), val(x)))`

  /** The map after the loop: later elements overwrite earlier ones with the same key. */
  function MapOf<T>(xs: seq<T>, key: T -> string, val: T -> bool): map<string, bool>
    decreases |xs|
  {
    if xs == [] then map[]
    else MapOf(xs[..|xs| - 1], key, val)[key(xs[|xs| - 1]) := val(xs[|xs| - 1])]
  }

  /** The loop itself, starting from an empty `Map`. */
  method FillMap<T>(xs: seq<T>, key: T -> string, val: T -> bool) returns (m: map<string, bool>)
    ensures m == MapOf(xs, key, val)
  {
    m := map[];
    var i := 0;
    while i < |xs|
      invariant 0 <= i <= |xs|
      invariant m == MapOf(xs[..i], key, val)
    {
      assert xs[..i + 1][..i] == xs[..i];
      m := m[key(xs[i]) := val(xs[i])];
      i := i + 1;
    }
    assert xs[..|xs|] == xs;
  }

  /** The keys of the elements of `xs`. */
  ghost function KeysOf<T>(xs: seq<T>, key: T -> string): set<string> {
    set i | 0 <= i < |xs| :: key(xs[i])
  }

  /** The map has exactly one key per element's key. */
  lemma {:induction false} MapOfKeys<T>(xs: seq<T>, key: T -> string, val: T -> bool)
    ensures MapOf(xs, key, val).Keys == KeysOf(xs, key)
  {
    if xs != [] {
      var init := xs[..|xs| - 1];
      MapOfKeys(init, key, val);
      forall k | k in KeysOf(xs, key) ensures k in KeysOf(init, key) + {key(xs[|xs| - 1])} {
        var i :| 0 <= i < |xs| && k == key(xs[i]);
        if i < |init| { assert init[i] == xs[i]; }
      }
      forall k | k in KeysOf(init, key) ensures k in KeysOf(xs, key) {
        var i :| 0 <= i < |init| && k == key(init[i]);
        assert xs[i] == init[i];
      }
    }
  }

  /** `map.get(key) || false`: an absent entry reads as `false`. */
  function FlagOf(m: map<string, bool>, key: string): bool {
    key in m && m[key]
  }

  /** The value stored under an element's key is that element's value, provided no later element has the same key. */
  lemma {:induction false} MapOfLastWins<T>(xs: seq<T>, key: T -> string, val: T -> bool, i: nat)
    requires i < |xs|
    requires forall j :: i < j < |xs| ==> key(xs[j]) != key(xs[i])
    ensures key(xs[i]) in MapOf(xs, key, val) && MapOf(xs, key, val)[key(xs[i])] == val(xs[i])
  {
    if i < |xs| - 1 {
      var init := xs[..|xs| - 1];
      assert init[i] == xs[i];
      MapOfLastWins(init, key, val, i);
    }
  }

  // ---------------------------------------------------------------------------
  // window.localStorage

  /** `getItem` on a snapshot of the storage contents. */
  function Lookup(items: map<string, string>, key: string): (r: Option<string>)
    ensures r.Some? <==> key in items
    ensures r.Some? ==> r.value == items[key]
  {
    if key in items then Some(items[key]) else None
  }

  /** The two keys under which the session is persisted. */
  const TokenKey := "token"
  const UserIdKey := "userId"

  /** The browser's `localStorage`: string keys to string values, shared by every component. */
  class LocalStorage {
    var items: map<string, string>

    constructor (initial: map<string, string>)
      ensures items == initial
    {
      items := initial;
    }

    /** `localStorage.getItem(key)`: `null` when the key is absent. */
    function GetItem(key: string): (r: Option<string>)
      reads this
      ensures r == Lookup(items, key)
    {
      Lookup(items, key)
    }

    method SetItem(key: string, value: string)
      modifies this
      ensures items == old(items)[key := value]
    {
      items := items[key := value];
    }

    method RemoveItem(key: string)
      modifies this
      ensures items == old(items) - {key}
    {
      items := items - {key};
    }
  }
}
