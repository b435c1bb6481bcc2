/**
 * The dependency injector of posts/14/src/injection.ts, without its reflection.
 *
 * A token is whatever is handed to `ReflectiveKey.get`: normally a class, sometimes a falsy
 * value. `KeyRegistry` interns class tokens and numbers them 0, 1, 2, ... in order of first
 * sight. `ReflectiveInjector.resolve` turns each provider class into its key and its one
 * factory (the class itself, and the keys of its constructor parameters). `ReflectiveInjector_`
 * keeps the provider keys in `keyIds` and fills the instance slots `objs` lazily, building
 * dependencies first.
 *
 * What `reflect-metadata` and the constructor-source scan of `noCtor` report about a class
 * is given here as data (`Params`), and `new t(...args)` becomes the value `Instance(t, args)`.
 */
module Injection {
  import opened Wrappers

  /** A class object: its `name`, its source text (what `${token}` prints) and its identity. */
  datatype Class = Class(name: string, source: string, ref: nat)

  /** A token: a class, or one of the falsy values a caller can pass by mistake. */
  datatype Token = Undefined | Null | Cls(c: Class)

  /** A `ReflectiveKey`: the constructor refuses a falsy token, so the token is always a class. */
  datatype Key = Key(token: Class, id: nat)

  const TokenMustBeDefined := "Token must be defined!"

  /** The constructor of `ReflectiveKey` (lines 29-33): a falsy token throws. */
  function NewKey(token: Token, id: nat): (r: Result<Key, string>)
    ensures r.Ok? <==> token.Cls?
    ensures r.Ok? ==> Cls(r.value.token) == token && r.value.id == id
    ensures r.Err? ==> r.error == TokenMustBeDefined
  {
    match token
    case Cls(c) => Ok(Key(c, id))
    case _ => Err(TokenMustBeDefined)
  }

  /** The ids handed out so far. */
  function Ids(m: map<Class, Key>): set<nat> {
    set c | c in m :: m[c].id
  }

  /** Each key is stored under its own token. */
  ghost predicate Keyed(m: map<Class, Key>) {
    forall c :: c in m ==> m[c].token == c
  }

  /**
   * What `_allKeys` always satisfies: each key is stored under its own token, and the ids are
   * exactly 0 .. size - 1, each used once.
   */
  ghost predicate Dense(m: map<Class, Key>) {
    Keyed(m) &&
    (forall c :: c in m ==> m[c].id < |m|) &&
    (forall c, d :: c in m && d in m && m[c].id == m[d].id ==> c == d) &&
    (forall i :: 0 <= i < |m| ==> i in Ids(m))
  }

  /** Every key already handed out keeps its token and its id. */
  ghost predicate Grows(m: map<Class, Key>, m': map<Class, Key>) {
    forall c :: c in m ==> c in m' && m'[c] == m[c]
  }

  /** A registry after some calls, and what the calls returned or threw. */
  datatype Registered<T> = Registered(keys: map<Class, Key>, r: Result<T, string>)

  /** Adding a fresh token with the next id keeps the ids dense. */
  lemma AddKeepsDense(m: map<Class, Key>, c: Class)
    requires Dense(m) && c !in m
    ensures Dense(m[c := Key(c, |m|)])
  {
    var m' := m[c := Key(c, |m|)];
    assert |m'| == |m| + 1;
    forall i | 0 <= i < |m'|
      ensures i in Ids(m')
    {
      if i < |m| {
        assert i in Ids(m);
        var d :| d in m && m[d].id == i;
        assert d in m' && m'[d].id == i;
      } else {
        assert m'[c].id == i;
      }
    }
  }

  /**
   * `KeyRegistry.get(token)` (lines 11-20): a known token gets its key back; an unknown one
   * gets a new key numbered with the current count, which is then stored. A falsy token throws
   * from the key constructor before anything is stored.
   */
  function Intern(m: map<Class, Key>, token: Token): (s: Registered<Key>)
    requires Keyed(m)
    ensures Keyed(s.keys) && Grows(m, s.keys)
    ensures s.r.Ok? <==> token.Cls?
    ensures s.r.Ok? ==> Cls(s.r.value.token) == token && s.r.value.token in s.keys && s.keys[s.r.value.token] == s.r.value
    ensures s.r.Ok? && token.c in m ==> s.keys == m
    ensures s.r.Ok? && token.c !in m ==> s.r.value.id == |m| && |s.keys| == |m| + 1
    ensures s.r.Err? ==> s.keys == m && s.r.error == TokenMustBeDefined
  {
    if token.Cls? && token.c in m then Registered(m, Ok(m[token.c]))
    else
      match NewKey(token, |m|)
      case Err(e) => Registered(m, Err(e))
      case Ok(k) => Registered(m[k.token := k], Ok(k))
  }

  /** Interning keeps the ids dense: a new token takes the one id not yet used. */
  lemma InternKeepsDense(m: map<Class, Key>, token: Token)
    requires Dense(m)
    ensures Dense(Intern(m, token).keys)
  {
    if token.Cls? && token.c !in m {
      AddKeepsDense(m, token.c);
    }
  }

  /** Looking a token up twice returns the same key, and the second look-up adds nothing. */
  lemma InternTwice(m: map<Class, Key>, token: Token)
    requires Keyed(m)
    ensures Intern(Intern(m, token).keys, token) == Intern(m, token)
  {
  }

  /** The registry object behind `ReflectiveKey.get` and `ReflectiveKey.numberOfKeys`. */
  class KeyRegistry {
    var allKeys: map<Class, Key>

    ghost predicate Valid()
      reads this
    {
      Dense(allKeys)
    }

    constructor ()
      ensures Valid() && allKeys == map[]
    {
      allKeys := map[];
    }

    /** `get(token)` (lines 11-20). */
    method Get(token: Token) returns (r: Result<Key, string>)
      requires Valid()
      modifies this
      ensures Valid()
      ensures Registered(allKeys, r) == Intern(old(allKeys), token)
    {
      if token.Cls? && token.c in allKeys {
        return Ok(allKeys[token.c]);
      }
      r := NewKey(token, |allKeys|);
      if r.Ok? {
        AddKeepsDense(allKeys, r.value.token);
        allKeys := allKeys[r.value.token := r.value];
      }
    }

    /** `numberOfKeys` (lines 21-23): the next id to hand out; every smaller one is taken. */
    function NumberOfKeys(): (n: nat)
      requires Valid()
      reads this
      ensures forall c :: c in allKeys ==> allKeys[c].id < n
      ensures forall i :: 0 <= i < n ==> i in Ids(allKeys)
    {
      |allKeys|
    }
  }

  /**
   * What reflection reports about a provider class (lines 154-163): it declares no constructor
   * of its own, it lacks `@Injectable()`, or it is decorated and its constructor takes
   * parameters of these types (none when the metadata is missing).
   */
  datatype Params = NoCtor | Undecorated | Decorated(paramTypes: seq<Token>)

  /** A provider handed to `resolve`: the class (or a falsy value) and what reflection says about it. */
  datatype Provider = Provider(token: Token, params: Params)

  /** `ResolvedReflectiveFactory`: a factory that calls `new cls(...)`, and its dependencies' keys. */
  datatype ResolvedFactory = ResolvedFactory(cls: Class, deps: seq<Key>)

  /** `ResolvedReflectiveProvider_`: the provider's key and its factories. */
  datatype ResolvedProvider = ResolvedProvider(key: Key, factories: seq<ResolvedFactory>)

  /** `noAnnotationError(type)` (lines 180-182). */
  function NoAnnotationError(c: Class): string {
    "Make sure that " + c.name + " is decorated with Injectable."
  }

  /** The message quotes the class name whole, so classes with different names get different messages. */
  lemma NoAnnotationErrorQuotes(c: Class, d: Class)
    ensures var m := NoAnnotationError(c);
            |m| == |c.name| + 45 && m[..15] == "Make sure that " && m[15..|m| - 30] == c.name &&
            m[|m| - 30..] == " is decorated with Injectable."
    ensures NoAnnotationError(c) == NoAnnotationError(d) ==> c.name == d.name
  {
    var m := NoAnnotationError(c);
    assert m[15..|m| - 30] == c.name;
    if NoAnnotationError(c) == NoAnnotationError(d) {
      assert NoAnnotationError(d)[15..|m| - 30] == d.name;
    }
  }

  /** `parameters(type)` (lines 154-163): the constructor's parameter types, or the annotation error. */
  function Parameters(c: Class, params: Params): (r: Result<seq<Token>, string>)
    ensures r.Err? <==> params.Undecorated?
    ensures r.Ok? ==> r.value == if params.Decorated? then params.paramTypes else []
    ensures r.Err? ==> r.error == NoAnnotationError(c)
  {
    match params
    case NoCtor => Ok([])
    case Undecorated => Err(NoAnnotationError(c))
    case Decorated(ts) => Ok(ts)
  }

  /** `params.map(_extractToken)` (line 151): the keys of `ts` in order, stopping at the first throw. */
  function InternAll(m: map<Class, Key>, ts: seq<Token>): (s: Registered<seq<Key>>)
    requires Keyed(m)
    ensures Keyed(s.keys) && Grows(m, s.keys)
    decreases |ts|
  {
    if |ts| == 0 then Registered(m, Ok([]))
    else
      var a := Intern(m, ts[0]);
      if a.r.Err? then Registered(a.keys, Err(a.r.error))
      else
        var b := InternAll(a.keys, ts[1..]);
        Prepend([a.r.value], b)
  }

  /**
   * The parameter keys come out in parameter order, each the registry's key for its token,
   * and the look-ups throw exactly when some parameter type is falsy.
   */
  lemma {:induction false} InternAllMeets(m: map<Class, Key>, ts: seq<Token>)
    requires Keyed(m)
    ensures var s := InternAll(m, ts);
      (s.r.Ok? <==> forall k :: 0 <= k < |ts| ==> ts[k].Cls?) &&
      (s.r.Err? ==> s.r.error == TokenMustBeDefined) &&
      (s.r.Ok? ==> (|s.r.value| == |ts| &&
        forall k :: 0 <= k < |ts| ==> ts[k].c in s.keys && s.r.value[k] == s.keys[ts[k].c]))
    decreases |ts|
  {
    if |ts| > 0 {
      var a := Intern(m, ts[0]);
      if a.r.Ok? {
        InternAllMeets(a.keys, ts[1..]);
        InternAllStep(m, ts, a, InternAll(a.keys, ts[1..]));
      }
    }
  }

  /** The induction step of `InternAll`'s contract. */
  lemma InternAllStep(m: map<Class, Key>, ts: seq<Token>, a: Registered<Key>, b: Registered<seq<Key>>)
    requires |ts| > 0 && a.r.Ok? && ts[0] == Cls(a.r.value.token)
    requires a.r.value.token in a.keys && a.keys[a.r.value.token] == a.r.value
    requires Grows(m, a.keys) && Grows(a.keys, b.keys)
    requires b.r.Ok? <==> forall k :: 0 <= k < |ts| - 1 ==> ts[1..][k].Cls?
    requires b.r.Err? ==> b.r.error == TokenMustBeDefined
    requires b.r.Ok? ==> (|b.r.value| == |ts| - 1 &&
      forall k :: 0 <= k < |ts| - 1 ==> ts[1..][k].c in b.keys && b.r.value[k] == b.keys[ts[1..][k].c])
    ensures Grows(m, b.keys)
    ensures var s := Prepend([a.r.value], b);
      (s.r.Ok? <==> forall k :: 0 <= k < |ts| ==> ts[k].Cls?) &&
      (s.r.Err? ==> s.r.error == TokenMustBeDefined) &&
      (s.r.Ok? ==> (|s.r.value| == |ts| &&
        forall k :: 0 <= k < |ts| ==> ts[k].c in s.keys && s.r.value[k] == s.keys[ts[k].c]))
  {
    var s := Prepend([a.r.value], b);
    if b.r.Ok? {
      forall k | 0 <= k < |ts|
        ensures ts[k].Cls? && ts[k].c in s.keys && s.r.value[k] == s.keys[ts[k].c]
      {
        if k > 0 {
          assert ts[1..][k - 1] == ts[k];
        }
      }
    } else {
      var k :| 0 <= k < |ts| - 1 && !ts[1..][k].Cls?;
      assert ts[k + 1] == ts[1..][k];
    }
  }

  /** `_dependenciesFor(type)` (lines 149-152). */
  function DependenciesFor(m: map<Class, Key>, c: Class, params: Params): (s: Registered<seq<Key>>)
    requires Keyed(m)
    ensures Keyed(s.keys) && Grows(m, s.keys)
  {
    match Parameters(c, params)
    case Err(e) => Registered(m, Err(e))
    case Ok(ts) => InternAll(m, ts)
  }

  /** Why `resolveReflectiveProvider(p)` throws, if it does, in the order the source finds out. */
  function Failure(p: Provider): Option<string> {
    if !p.token.Cls? then Some(TokenMustBeDefined)
    else
      match Parameters(p.token.c, p.params)
      case Err(e) => Some(e)
      case Ok(ts) => if forall k :: 0 <= k < |ts| ==> ts[k].Cls? then None else Some(TokenMustBeDefined)
  }

  /** `rp` is what resolving `p` yields against the registry `keys`. */
  ghost predicate Resolves(keys: map<Class, Key>, p: Provider, rp: ResolvedProvider) {
    p.token.Cls? && p.token.c in keys && rp.key == keys[p.token.c] &&
    Parameters(p.token.c, p.params).Ok? &&
    var ts := Parameters(p.token.c, p.params).value;
    |rp.factories| == 1 && rp.factories[0].cls == p.token.c && |rp.factories[0].deps| == |ts| &&
    forall k :: 0 <= k < |ts| ==> ts[k].Cls? && ts[k].c in keys && rp.factories[0].deps[k] == keys[ts[k].c]
  }

  /** Keys already handed out never change, so a resolution stays valid as the registry grows. */
  lemma ResolvesGrows(keys: map<Class, Key>, keys': map<Class, Key>, p: Provider, rp: ResolvedProvider)
    requires Resolves(keys, p, rp) && Grows(keys, keys')
    ensures Resolves(keys', p, rp)
  {
  }

  /**
   * `resolveReflectiveProvider(provider)` (lines 128-133, 139-147): the provider's key first,
   * then its factory, whose dependency keys are looked up in parameter order.
   */
  function ResolveProvider(m: map<Class, Key>, p: Provider): (s: Registered<ResolvedProvider>)
    requires Keyed(m)
    ensures Keyed(s.keys) && Grows(m, s.keys)
  {
    var a := Intern(m, p.token);
    if a.r.Err? then Registered(a.keys, Err(a.r.error))
    else
      var key := a.r.value;
      var d := DependenciesFor(a.keys, key.token, p.params);
      if d.r.Err? then Registered(d.keys, Err(d.r.error))
      else Registered(d.keys, Ok(ResolvedProvider(key, [ResolvedFactory(key.token, d.r.value)])))
  }

  /** A provider resolves to its own key and one factory over its parameters' keys, or throws its `Failure`. */
  lemma ResolveProviderMeets(m: map<Class, Key>, p: Provider)
    requires Keyed(m)
    ensures var s := ResolveProvider(m, p);
      (s.r.Ok? <==> Failure(p).None?) &&
      (s.r.Err? ==> Failure(p) == Some(s.r.error)) &&
      (s.r.Ok? ==> Resolves(s.keys, p, s.r.value))
  {
    var a := Intern(m, p.token);
    if a.r.Ok? {
      var key := a.r.value;
      match Parameters(key.token, p.params) {
        case Err(_) =>
        case Ok(ts) =>
          InternAllMeets(a.keys, ts);
      }
    }
  }

  /** The results of earlier providers in front of what the rest yields. */
  function Prepend<T>(done: seq<T>, s: Registered<seq<T>>): Registered<seq<T>> {
    Registered(s.keys, if s.r.Ok? then Ok(done + s.r.value) else s.r)
  }

  /** `ReflectiveInjector.resolve(providers)` (lines 71-74), as a function of the registry. */
  function ResolveAll(m: map<Class, Key>, ps: seq<Provider>): (s: Registered<seq<ResolvedProvider>>)
    requires Keyed(m)
    ensures Keyed(s.keys) && Grows(m, s.keys)
    decreases |ps|
  {
    if |ps| == 0 then Registered(m, Ok([]))
    else
      var a := ResolveProvider(m, ps[0]);
      if a.r.Err? then Registered(a.keys, Err(a.r.error))
      else
        var b := ResolveAll(a.keys, ps[1..]);
        Prepend([a.r.value], b)
  }

  /**
   * `resolve` maps the providers one for one and in order, and throws exactly when one of them
   * cannot be resolved, with the error of the first such provider.
   */
  lemma {:induction false} ResolveAllMeets(m: map<Class, Key>, ps: seq<Provider>)
    requires Keyed(m)
    ensures var s := ResolveAll(m, ps);
      (s.r.Ok? <==> forall i :: 0 <= i < |ps| ==> Failure(ps[i]).None?) &&
      (s.r.Err? ==>
        exists i :: 0 <= i < |ps| && Failure(ps[i]) == Some(s.r.error) && forall j :: 0 <= j < i ==> Failure(ps[j]).None?) &&
      (s.r.Ok? ==> |s.r.value| == |ps| && forall i :: 0 <= i < |ps| ==> Resolves(s.keys, ps[i], s.r.value[i]))
    decreases |ps|
  {
    if |ps| > 0 {
      var a := ResolveProvider(m, ps[0]);
      ResolveProviderMeets(m, ps[0]);
      if a.r.Ok? {
        var b := ResolveAll(a.keys, ps[1..]);
        ResolveAllMeets(a.keys, ps[1..]);
        ResolveAllStep(m, ps, a, b);
      }
    }
  }

  /** The induction step of `ResolveAll`'s contract. */
  lemma ResolveAllStep(m: map<Class, Key>, ps: seq<Provider>, a: Registered<ResolvedProvider>, b: Registered<seq<ResolvedProvider>>)
    requires |ps| > 0 && a.r.Ok? && Failure(ps[0]).None? && Resolves(a.keys, ps[0], a.r.value) && Grows(a.keys, b.keys)
    requires b.r.Ok? <==> forall i :: 0 <= i < |ps| - 1 ==> Failure(ps[1..][i]).None?
    requires b.r.Err? ==>
      exists i :: 0 <= i < |ps| - 1 && Failure(ps[1..][i]) == Some(b.r.error) && forall j :: 0 <= j < i ==> Failure(ps[1..][j]).None?
    requires b.r.Ok? ==> |b.r.value| == |ps| - 1 && forall i :: 0 <= i < |ps| - 1 ==> Resolves(b.keys, ps[1..][i], b.r.value[i])
    ensures var s := Prepend([a.r.value], b);
      (s.r.Ok? <==> forall i :: 0 <= i < |ps| ==> Failure(ps[i]).None?) &&
      (s.r.Err? ==>
        exists i :: 0 <= i < |ps| && Failure(ps[i]) == Some(s.r.error) && forall j :: 0 <= j < i ==> Failure(ps[j]).None?) &&
      (s.r.Ok? ==> |s.r.value| == |ps| && forall i :: 0 <= i < |ps| ==> Resolves(s.keys, ps[i], s.r.value[i]))
  {
    var s := Prepend([a.r.value], b);
    if b.r.Ok? {
      forall i | 0 <= i < |ps|
        ensures Resolves(s.keys, ps[i], s.r.value[i])
      {
        if i == 0 {
          ResolvesGrows(a.keys, b.keys, ps[0], a.r.value);
        } else {
          assert ps[1..][i - 1] == ps[i];
        }
      }
      forall i | 0 <= i < |ps|
        ensures Failure(ps[i]).None?
      {
        if i > 0 {
          assert ps[1..][i - 1] == ps[i];
        }
      }
    } else {
      var i :| 0 <= i < |ps| - 1 && Failure(ps[1..][i]) == Some(b.r.error) && forall j :: 0 <= j < i ==> Failure(ps[1..][j]).None?;
      assert ps[1..][i] == ps[i + 1];
      forall j | 0 <= j < i + 1
        ensures Failure(ps[j]).None?
      {
        if j > 0 {
          assert ps[1..][j - 1] == ps[j];
        }
      }
    }
  }

  /** `_extractToken` over a parameter list: the loop behind `params.map(_extractToken)`. */
  method ExtractTokens(reg: KeyRegistry, ts: seq<Token>) returns (r: Result<seq<Key>, string>)
    requires reg.Valid()
    modifies reg
    ensures reg.Valid()
    ensures Registered(reg.allKeys, r) == InternAll(old(reg.allKeys), ts)
  {
    var keys: seq<Key> := [];
    var k := 0;
    assert ts[k..] == ts;
    PrependNothing(InternAll(reg.allKeys, ts));
    while k < |ts|
      invariant k <= |ts| && reg.Valid()
      invariant Prepend(keys, InternAll(reg.allKeys, ts[k..])) == InternAll(old(reg.allKeys), ts)
      decreases |ts| - k
    {
      ghost var before := reg.allKeys;
      var key := reg.Get(ts[k]);
      assert ts[k..][0] == ts[k] && ts[k..][1..] == ts[k + 1..];
      if key.Err? {
        assert InternAll(before, ts[k..]) == Registered(reg.allKeys, Err(key.error));
        return Err(key.error);
      }
      assert InternAll(before, ts[k..]) == Prepend([key.value], InternAll(reg.allKeys, ts[k + 1..]));
      PrependTwice(keys, [key.value], InternAll(reg.allKeys, ts[k + 1..]));
      keys := keys + [key.value];
      k := k + 1;
    }
    assert ts[k..] == [] && keys + [] == keys;
    r := Ok(keys);
  }

  /** Prepending nothing changes nothing. */
  lemma PrependNothing<T>(s: Registered<seq<T>>)
    ensures Prepend([], s) == s
  {
    if s.r.Ok? {
      assert [] + s.r.value == s.r.value;
    }
  }

  /** Prepending twice is prepending the concatenation. */
  lemma PrependTwice<T>(xs: seq<T>, ys: seq<T>, s: Registered<seq<T>>)
    ensures Prepend(xs, Prepend(ys, s)) == Prepend(xs + ys, s)
  {
    if s.r.Ok? {
      assert xs + (ys + s.r.value) == (xs + ys) + s.r.value;
    }
  }
  /** `resolveReflectiveProvider(provider)` (lines 128-152) against the registry object. */
  method ResolveReflectiveProvider(reg: KeyRegistry, p: Provider) returns (r: Result<ResolvedProvider, string>)
    requires reg.Valid()
    modifies reg
    ensures reg.Valid()
    ensures Registered(reg.allKeys, r) == ResolveProvider(old(reg.allKeys), p)
  {
    var key := reg.Get(p.token);
    if key.Err? {
      return Err(key.error);
    }
    var params := Parameters(key.value.token, p.params);
    if params.Err? {
      return Err(params.error);
    }
    var deps := ExtractTokens(reg, params.value);
    if deps.Err? {
      return Err(deps.error);
    }
    r := Ok(ResolvedProvider(key.value, [ResolvedFactory(key.value.token, deps.value)]));
  }

  /** `ReflectiveInjector.resolve(providers)` (lines 71-74): `providers.map(resolveReflectiveProvider)`. */
  method Resolve(reg: KeyRegistry, ps: seq<Provider>) returns (r: Result<seq<ResolvedProvider>, string>)
    requires reg.Valid()
    modifies reg
    ensures reg.Valid()
    ensures Registered(reg.allKeys, r) == ResolveAll(old(reg.allKeys), ps)
  {
    var resolved: seq<ResolvedProvider> := [];
    var i := 0;
    assert ps[i..] == ps;
    PrependNothing(ResolveAll(reg.allKeys, ps));
    while i < |ps|
      invariant i <= |ps| && reg.Valid()
      invariant Prepend(resolved, ResolveAll(reg.allKeys, ps[i..])) == ResolveAll(old(reg.allKeys), ps)
      decreases |ps| - i
    {
      ghost var before := reg.allKeys;
      var rp := ResolveReflectiveProvider(reg, ps[i]);
      assert ps[i..][0] == ps[i] && ps[i..][1..] == ps[i + 1..];
      if rp.Err? {
        assert ResolveAll(before, ps[i..]) == Registered(reg.allKeys, Err(rp.error));
        return Err(rp.error);
      }
      assert ResolveAll(before, ps[i..]) == Prepend([rp.value], ResolveAll(reg.allKeys, ps[i + 1..]));
      PrependTwice(resolved, [rp.value], ResolveAll(reg.allKeys, ps[i + 1..]));
      resolved := resolved + [rp.value];
      i := i + 1;
    }
    assert ps[i..] == [] && resolved + [] == resolved;
    r := Ok(resolved);
  }
}
