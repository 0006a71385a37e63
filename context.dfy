/**
 * The authorization-result carrier of context.go: an immutable, derive-on-write
 * key/value overlay on a request context. A context is the list of entries that
 * were added to it, newest first; deriving a context never changes its parent.
 */
module AuthContext {
  import opened Common

  /**
   * A context key. Go compares two keys by their dynamic type and their value,
   * so a key of the package's private type `ctxKey` never equals a plain
   * string key with the same text.
   */
  datatype Key =
    | CtxKey(name: string)                       // a value of the private type ctxKey
    | StringKey(text: string)                    // a plain string used as a key
    | ForeignKey(typeName: string, text: string) // a key of some other package's type

  const AuthSuccessKeyName: string := "github.com/alexliesenfeld/health#authenticationSuccess"

  /** ctxAuthSuccessKey (context.go:7). */
  const AuthSuccessKey: Key := CtxKey(AuthSuccessKeyName)

  /** A value stored in a context; Go stores an `interface{}`, so any type may appear. */
  datatype Value =
    | BoolValue(b: bool)
    | StringValue(s: string)
    | IntValue(i: int)
    | NilValue

  datatype Entry = Entry(key: Key, value: Value)

  /** `Background` is the root context; `WithValue` is context.WithValue(parent, key, val). */
  datatype Context =
    | Background
    | WithValue(parent: Context, key: Key, val: Value)

  /** The entries of a context, oldest first. */
  function Entries(ctx: Context): seq<Entry>
  {
    match ctx
    case Background => []
    case WithValue(p, k, v) => Entries(p) + [Entry(k, v)]
  }

  /**
   * `ctx.Value(key)`: the value of the newest entry under `key`, or None when
   * no entry is under it. Go returns nil in that case and also when the newest
   * entry holds nil, which here is Some(NilValue).
   */
  function Lookup(ctx: Context, key: Key): Option<Value>
  {
    match ctx
    case Background => None
    case WithValue(p, k, v) => if k == key then Some(v) else Lookup(p, key)
  }

  /** Adds the entries `ext` to `ctx`, first entry first, as a chain of context.WithValue calls. */
  function Extend(ctx: Context, ext: seq<Entry>): Context
    decreases |ext|
  {
    if ext == [] then ctx else Extend(WithValue(ctx, ext[0].key, ext[0].value), ext[1..])
  }

  /** Entry `i` of `es` is under `key` and no later entry is. */
  ghost predicate NewestAt(es: seq<Entry>, key: Key, i: int)
  {
    0 <= i < |es| && es[i].key == key && forall j :: i < j < |es| ==> es[j].key != key
  }

  /** Lookup gives None exactly when no entry of the context is under the key (an entry holding nil gives Some(NilValue)). */
  lemma {:induction false} LookupAbsent(ctx: Context, key: Key)
    ensures Lookup(ctx, key).None? <==> forall i :: 0 <= i < |Entries(ctx)| ==> Entries(ctx)[i].key != key
  {
    match ctx
    case Background =>
    case WithValue(p, k, v) =>
      LookupAbsent(p, key);
      assert Entries(ctx) == Entries(p) + [Entry(k, v)];
      assert Entries(ctx)[|Entries(p)|] == Entry(k, v);
      assert forall i :: 0 <= i < |Entries(p)| ==> Entries(ctx)[i] == Entries(p)[i];
  }

  /** When an entry is under the key, Lookup finds the value of the newest such entry. */
  lemma {:induction false} LookupFindsNewest(ctx: Context, key: Key, i: int)
    requires NewestAt(Entries(ctx), key, i)
    ensures Lookup(ctx, key) == Some(Entries(ctx)[i].value)
  {
    match ctx
    case WithValue(p, k, v) =>
      assert Entries(ctx) == Entries(p) + [Entry(k, v)];
      if i < |Entries(p)| {
        assert Entries(ctx)[|Entries(p)|].key == k != key;
        assert forall j :: 0 <= j < |Entries(p)| ==> Entries(ctx)[j] == Entries(p)[j];
        assert NewestAt(Entries(p), key, i);
        LookupFindsNewest(p, key, i);
      }
  }

  /**
   * getAuthResult (context.go:9-15): the value under ctxAuthSuccessKey when it
   * is a bool, and None when there is no such value or it has another type.
   * It never fails.
   */
  function GetAuthResult(ctx: Context): (authOK: Option<bool>)
    ensures authOK.Some? ==> Lookup(ctx, AuthSuccessKey) == Some(BoolValue(authOK.value))
    ensures authOK.None? ==> forall b :: Lookup(ctx, AuthSuccessKey) != Some(BoolValue(b))
  {
    match Lookup(ctx, AuthSuccessKey)
    case Some(BoolValue(b)) => Some(b)
    case _ => None
  }

  /**
   * withAuthResult (context.go:17-19): a context derived from `ctx` with one
   * more entry; `ctx` itself is its parent, unchanged, and reading the derived
   * context gives back `value`.
   */
  function WithAuthResult(ctx: Context, value: bool): (derived: Context)
    ensures derived.WithValue? && derived.parent == ctx
    ensures Entries(derived) == Entries(ctx) + [Entry(AuthSuccessKey, BoolValue(value))]
    ensures GetAuthResult(derived) == Some(value)
  {
    WithValue(ctx, AuthSuccessKey, BoolValue(value))
  }

  /**
   * getAuthResult in terms of the entries: absent when no entry is under the
   * key; otherwise decided by the newest such entry alone, which reads as
   * absent when it does not hold a bool.
   */
  lemma AuthResultFromEntries(ctx: Context)
    ensures (forall i :: 0 <= i < |Entries(ctx)| ==> Entries(ctx)[i].key != AuthSuccessKey)
            ==> GetAuthResult(ctx) == None
    ensures forall i :: NewestAt(Entries(ctx), AuthSuccessKey, i) ==>
              GetAuthResult(ctx) == match Entries(ctx)[i].value
                                    case BoolValue(b) => Some(b)
                                    case _ => None
  {
    LookupAbsent(ctx, AuthSuccessKey);
    forall i | NewestAt(Entries(ctx), AuthSuccessKey, i)
      ensures Lookup(ctx, AuthSuccessKey) == Some(Entries(ctx)[i].value)
    {
      LookupFindsNewest(ctx, AuthSuccessKey, i);
    }
  }

  /** A value under the key that is not a bool reads as absent. */
  lemma NonBoolReadsAbsent(ctx: Context, v: Value)
    requires !v.BoolValue?
    ensures GetAuthResult(WithValue(ctx, AuthSuccessKey, v)) == None
  {
  }

  /** The last write wins. */
  lemma LastWriteWins(ctx: Context, a: bool, b: bool)
    ensures GetAuthResult(WithAuthResult(WithAuthResult(ctx, a), b)) == Some(b)
  {
  }

  /**
   * Entries under any other key, a plain string with the same text included,
   * leave the auth result as it was, however many are added.
   */
  lemma {:induction false} OtherKeysKeepAuthResult(ctx: Context, ext: seq<Entry>)
    requires forall e :: e in ext ==> e.key != AuthSuccessKey
    ensures GetAuthResult(Extend(ctx, ext)) == GetAuthResult(ctx)
    decreases |ext|
  {
    if ext != [] {
      var next := WithValue(ctx, ext[0].key, ext[0].value);
      assert Lookup(next, AuthSuccessKey) == Lookup(ctx, AuthSuccessKey);
      assert forall e :: e in ext[1..] ==> e in ext;
      OtherKeysKeepAuthResult(next, ext[1..]);
    }
  }

  /** The plain string key with the text of ctxAuthSuccessKey is a different key. */
  lemma PlainStringKeyIsDistinct(ctx: Context, v: Value)
    ensures StringKey(AuthSuccessKeyName) != AuthSuccessKey
    ensures GetAuthResult(WithValue(ctx, StringKey(AuthSuccessKeyName), v)) == GetAuthResult(ctx)
  {
  }
}
