/**
 * Token storage of src/lib/auth.js. `storeAuthToken` writes a token into the browser's
 * session storage (key "token") and local storage (keys "token" and "authToken");
 * `getStoredAuthToken` reads it back, looking at session storage before local storage
 * and at "token" before "authToken", and returns the first non-empty value or null.
 * Outside a browser (`typeof window === "undefined"`) there is no storage at all.
 */
module Auth {
  import opened Wrappers

  /** `storageKeys`: the keys read, in order. */
  const StorageKeys: seq<string> := ["token", "authToken"]

  /** The two storages `getStorage` can hand out. */
  datatype StorageKind = Session | Local

  /** A storage read `value` passes `if (value)`: present and not the empty string. */
  predicate Truthy(v: Option<string>) {
    v.Some? && v.value != ""
  }

  /**
   * The guard of `storeAuthToken`: the token is a non-empty string. `None` stands for
   * every argument that is not a string (`null`, `undefined`, a number, ...).
   */
  predicate IsStorableToken(token: Option<string>) {
    Truthy(token)
  }

  /** `store?.getItem(key)`: null when there is no storage or no such key. */
  function GetItem(store: Option<map<string, string>>, key: string): (r: Option<string>)
    ensures r.Some? <==> store.Some? && key in store.value
  {
    if store.Some? && key in store.value then Some(store.value[key]) else None
  }

  /** The values read for `keys`, in order. */
  function Lookups(store: Option<map<string, string>>, keys: seq<string>): seq<Option<string>> {
    seq(|keys|, i requires 0 <= i < |keys| => GetItem(store, keys[i]))
  }

  /** The first truthy value of a list of reads, or null when none is truthy. */
  function FirstTruthy(vs: seq<Option<string>>): (r: Option<string>)
    ensures r.Some? ==> Truthy(r) && r in vs
    ensures r.None? <==> forall v :: v in vs ==> !Truthy(v)
  {
    if vs == [] then None
    else if Truthy(vs[0]) then vs[0]
    else
      assert forall v :: v in vs[1..] ==> v in vs;
      assert forall v :: v in vs ==> v == vs[0] || v in vs[1..];
      FirstTruthy(vs[1..])
  }

  /** The value found is the FIRST truthy read: every read before it is falsy. */
  lemma {:induction false} FirstTruthyIsFirst(vs: seq<Option<string>>)
    requires FirstTruthy(vs).Some?
    ensures exists i :: 0 <= i < |vs| && vs[i] == FirstTruthy(vs) &&
                        forall j :: 0 <= j < i ==> !Truthy(vs[j])
  {
    if !Truthy(vs[0]) {
      FirstTruthyIsFirst(vs[1..]);
      var i :| 0 <= i < |vs[1..]| && vs[1..][i] == FirstTruthy(vs[1..]) &&
               forall j :: 0 <= j < i ==> !Truthy(vs[1..][j]);
      assert vs[i + 1] == FirstTruthy(vs);
      forall j | 0 <= j < i + 1 ensures !Truthy(vs[j]) {
        if j > 0 { assert vs[j] == vs[1..][j - 1]; }
      }
    } else {
      assert vs[0] == FirstTruthy(vs);
    }
  }

  /** Reads are tried left to right: a truthy read in `a` hides everything in `b`. */
  lemma {:induction false} FirstTruthyAppend(a: seq<Option<string>>, b: seq<Option<string>>)
    ensures FirstTruthy(a + b) == if FirstTruthy(a).Some? then FirstTruthy(a) else FirstTruthy(b)
  {
    if a == [] {
      assert a + b == b;
    } else {
      assert (a + b)[0] == a[0];
      assert (a + b)[1..] == a[1..] + b;
      FirstTruthyAppend(a[1..], b);
    }
  }

  /** One step of a left-to-right scan that has found nothing truthy so far. */
  lemma FirstTruthyStep(vs: seq<Option<string>>, i: int)
    requires 0 <= i < |vs| && FirstTruthy(vs[..i]) == None
    ensures Truthy(vs[i]) ==> FirstTruthy(vs) == vs[i]
    ensures !Truthy(vs[i]) ==> FirstTruthy(vs[..i + 1]) == None
  {
    FirstTruthyAppend(vs[..i], [vs[i]]);
    assert vs[..i + 1] == vs[..i] + [vs[i]];
    FirstTruthyAppend(vs[..i + 1], vs[i + 1..]);
    assert vs[..i + 1] + vs[i + 1..] == vs;
  }

  /** What `getStoredAuthToken` returns, given the two storages `getStorage` yields. */
  function StoredToken(session: Option<map<string, string>>, local: Option<map<string, string>>): Option<string> {
    FirstTruthy(Lookups(session, StorageKeys) + Lookups(local, StorageKeys))
  }

  /**
   * The precedence spelled out: session "token", session "authToken", local "token",
   * local "authToken"; the first non-empty value wins, and null when all four miss.
   */
  lemma StoredTokenPrecedence(session: Option<map<string, string>>, local: Option<map<string, string>>)
    ensures StoredToken(session, local) ==
      if Truthy(GetItem(session, "token")) then GetItem(session, "token")
      else if Truthy(GetItem(session, "authToken")) then GetItem(session, "authToken")
      else if Truthy(GetItem(local, "token")) then GetItem(local, "token")
      else if Truthy(GetItem(local, "authToken")) then GetItem(local, "authToken")
      else None
  {
    var s, l := Lookups(session, StorageKeys), Lookups(local, StorageKeys);
    FirstTruthyAppend(s, l);
    assert s == [GetItem(session, "token"), GetItem(session, "authToken")];
    assert l == [GetItem(local, "token"), GetItem(local, "authToken")];
    assert s[1..] == [GetItem(session, "authToken")] && l[1..] == [GetItem(local, "authToken")];
  }

  /** Without a window there is no storage and nothing is found. */
  lemma NoWindowNoToken()
    ensures StoredToken(None, None) == None
  {
  }

  /**
   * The storage after `storeAuthToken(token)`: session storage gets "token", local
   * storage gets "token" and "authToken"; a token that fails the guard writes nothing.
   */
  function AfterStore(kind: StorageKind, m: map<string, string>, token: Option<string>): map<string, string> {
    if !IsStorableToken(token) then m
    else match kind
      case Session => m["token" := token.value]
      case Local => m["token" := token.value]["authToken" := token.value]
  }

  /** Storing writes only the listed keys: session "authToken" and every other key keep their value. */
  lemma StoreWritesOnlyTokenKeys(m: map<string, string>, token: Option<string>, k: string)
    ensures k != "token" ==> (k in AfterStore(Session, m, token) <==> k in m)
    ensures k != "token" && k in m ==> AfterStore(Session, m, token)[k] == m[k]
    ensures k != "token" && k != "authToken" ==> (k in AfterStore(Local, m, token) <==> k in m)
    ensures k != "token" && k != "authToken" && k in m ==> AfterStore(Local, m, token)[k] == m[k]
  {
  }

  /** A rejected token leaves both storages exactly as they were. */
  lemma RejectedTokenChangesNothing(kind: StorageKind, m: map<string, string>, token: Option<string>)
    requires !IsStorableToken(token)
    ensures AfterStore(kind, m, token) == m
  {
  }

  /**
   * Round trip: whatever the storages held before, after storing a non-empty token
   * the lookup returns exactly that token.
   */
  lemma StoreThenGet(session: map<string, string>, local: map<string, string>, token: Option<string>)
    requires IsStorableToken(token)
    ensures StoredToken(Some(AfterStore(Session, session, token)), Some(AfterStore(Local, local, token))) == token
  {
  }

  /** The browser's two storages; `hasWindow` is false outside a browser. */
  class Browser {
    var hasWindow: bool
    var session: map<string, string>
    var local: map<string, string>

    constructor (hasWindow: bool, session: map<string, string>, local: map<string, string>)
      ensures this.hasWindow == hasWindow && this.session == session && this.local == local
    {
      this.hasWindow := hasWindow;
      this.session := session;
      this.local := local;
    }

    /** `getStorage(type)`: the storage of that kind, or null without a window. */
    function GetStorage(kind: StorageKind): (r: Option<map<string, string>>)
      reads this
      ensures r.Some? <==> hasWindow
      ensures r.Some? ==> r.value == (if kind == Session then session else local)
    {
      if !hasWindow then None
      else if kind == Session then Some(session)
      else Some(local)
    }

    /** `storeAuthToken`. Storage writes are taken to succeed. */
    method StoreAuthToken(token: Option<string>)
      modifies this
      ensures hasWindow == old(hasWindow)
      ensures hasWindow ==> session == AfterStore(Session, old(session), token)
      ensures hasWindow ==> local == AfterStore(Local, old(local), token)
      ensures !hasWindow ==> session == old(session) && local == old(local)
    {
      if !IsStorableToken(token) {
        return;
      }
      var t := token.value;
      if hasWindow {
        session := session["token" := t];
      }
      if hasWindow {
        local := local["token" := t];
        local := local["authToken" := t];
      }
    }

    /** `getStoredAuthToken`: two passes over `storageKeys`, returning the first truthy read. */
    method GetStoredAuthToken() returns (r: Option<string>)
      ensures r == StoredToken(GetStorage(Session), GetStorage(Local))
      ensures r.Some? ==> r.value != ""
    {
      var sessionStore := GetStorage(Session);
      var localStore := GetStorage(Local);
      ghost var s := Lookups(sessionStore, StorageKeys);
      ghost var l := Lookups(localStore, StorageKeys);
      FirstTruthyAppend(s, l);

      for i := 0 to |StorageKeys|
        invariant FirstTruthy(s[..i]) == None
      {
        var value := GetItem(sessionStore, StorageKeys[i]);
        FirstTruthyStep(s, i);
        if Truthy(value) {
          return value;
        }
      }
      assert s[..|StorageKeys|] == s;

      for i := 0 to |StorageKeys|
        invariant FirstTruthy(l[..i]) == None
      {
        var value := GetItem(localStore, StorageKeys[i]);
        FirstTruthyStep(l, i);
        if Truthy(value) {
          return value;
        }
      }
      assert l[..|StorageKeys|] == l;
      return None;
    }
  }

  /**
   * Logging in stores the token; a later page load reads it back. In a browser the
   * token comes back unchanged; without a window nothing was stored and null is read.
   */
  method StoreThenLoad(b: Browser, token: string) returns (r: Option<string>)
    requires token != ""
    modifies b
    ensures b.hasWindow ==> r == Some(token)
    ensures !b.hasWindow ==> r == None
  {
    ghost var session0, local0 := b.session, b.local;
    b.StoreAuthToken(Some(token));
    if b.hasWindow {
      StoreThenGet(session0, local0, Some(token));
    } else {
      NoWindowNoToken();
    }
    r := b.GetStoredAuthToken();
  }
}
