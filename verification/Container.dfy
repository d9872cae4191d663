/**
 Bean resolution (framework/ioc/container.go): memoised recursive resolution of beans injected by name, with
 cycle detection by a stack carried in the context.

 `BeanGraph` says, by walks in the dependency graph, which beans can be built, and which of the others end resolution
 in a panic. `Container` resolves them the way the source does, on one goroutine and outside an HTTP request.
 */
module BeanGraph {
  import opened Wrappers

  datatype Scope = Singleton | Prototype | Request | Unsupported

  datatype FieldKind = Unsettable | Provider | Plain

  /** A struct field with a `spring` tag, and the types assignable to it. */
  datatype Field = Field(tag: string, kind: FieldKind, accepts: set<nat>)

  /** What the registered factory is, and what it builds. */
  datatype Factory = NoFactory | NotAFunction | WrongResults | Failing | Panics | Builds(typ: nat, fields: seq<Field>)

  datatype Definition = Definition(scope: Scope, factory: Factory)

  datatype Instance = Instance(id: nat, typ: nat, fields: seq<Injected>)

  /** What a tagged field holds once its bean is built. A provider resolves its bean only when it is asked. */
  datatype Injected = Untouched | Lazy(tag: string) | Bean(instance: Instance)

  /** How a once-only construction was used up that did not end in an instance. */
  datatype UsedUp = ByError | ByPanic

  /** What resolution depends on: definitions, instances at hand, and the singletons whose construction failed. */
  datatype View = View(definitions: map<string, Definition>, beans: map<string, Instance>,
                       failures: map<string, UsedUp>)

  predicate Buildable(v: View, n: string) {
    n in v.definitions && v.definitions[n].factory.Builds?
  }

  function Fields(v: View, n: string): seq<Field>
    requires Buildable(v, n)
  {
    v.definitions[n].factory.fields
  }

  predicate HasType(v: View, n: string) {
    n in v.beans || Buildable(v, n)
  }

  function TypeOf(v: View, n: string): nat
    requires HasType(v, n)
  {
    if n in v.beans then v.beans[n].typ else v.definitions[n].factory.typ
  }

  predicate Misfit(v: View, f: Field) {
    f.kind.Plain? && HasType(v, f.tag) && TypeOf(v, f.tag) !in f.accepts
  }

  /** What makes a bean that is not at hand impossible to build, whatever its dependencies are. */
  predicate LocalDefect(v: View, n: string) {
    || !Buildable(v, n) || n in v.failures
    || (!v.definitions[n].scope.Singleton? && !v.definitions[n].scope.Prototype?)
    || exists i | 0 <= i < |Fields(v, n)| :: Misfit(v, Fields(v, n)[i])
  }

  predicate Needs(v: View, a: string, b: string) {
    a !in v.beans && Buildable(v, a)
      && exists i | 0 <= i < |Fields(v, a)| :: Fields(v, a)[i].kind.Plain? && Fields(v, a)[i].tag == b
  }

  predicate Walk(v: View, p: seq<string>) {
    p != [] && forall i | 0 <= i < |p| - 1 :: Needs(v, p[i], p[i + 1])
  }

  /** The walk ends in a bean that cannot be built, or that needs itself. */
  predicate Defect(v: View, p: seq<string>)
    requires p != []
  {
    var last := p[|p| - 1];
    last !in v.beans && (LocalDefect(v, last) || last in p[..|p| - 1])
  }

  /** Everything reachable is registered, buildable and acyclic. */
  ghost predicate Sound(v: View, n: string) {
    forall p | Walk(v, p) && p[0] == n :: !Defect(v, p)
  }

  lemma BadWalk(v: View, n: string) returns (p: seq<string>)
    requires !Sound(v, n)
    ensures Walk(v, p) && p[0] == n && Defect(v, p)
  {
    p :| Walk(v, p) && p[0] == n && Defect(v, p);
  }

  lemma Join(v: View, p: seq<string>, q: seq<string>)
    requires Walk(v, p) && Walk(v, q) && p[|p| - 1] == q[0]
    ensures Walk(v, p + q[1..])
  {
    var w := p + q[1..];
    forall i | 0 <= i < |w| - 1 ensures Needs(v, w[i], w[i + 1]) {
      if i >= |p| - 1 {
        assert w[i] == q[i - |p| + 1] && w[i + 1] == q[i - |p| + 2];
      }
    }
  }

  lemma Slice(v: View, p: seq<string>, i: nat, j: nat)
    requires Walk(v, p) && i < j <= |p|
    ensures Walk(v, p[i..j])
  {
    forall k | 0 <= k < j - i - 1 ensures Needs(v, p[i..j][k], p[i..j][k + 1]) {
      assert Needs(v, p[i + k], p[i + k + 1]);
    }
  }

  /** A bean that is not at hand and comes back to itself is not sound. */
  lemma Cycle(v: View, p: seq<string>)
    requires Walk(v, p) && |p| > 1 && p[0] == p[|p| - 1]
    ensures !Sound(v, p[0])
  {
    assert Needs(v, p[0], p[1]);
    assert p[..|p| - 1][0] == p[0];
    assert Defect(v, p);
  }

  /** A bean that needs an unsound one is unsound. */
  lemma NeedsSound(v: View, n: string, d: string)
    requires Needs(v, n, d) && !Sound(v, d)
    ensures !Sound(v, n)
  {
    var q := BadWalk(v, d);
    Join(v, [n, d], q);
    var p := [n, d] + q[1..];
    assert p == [n] + q;
    assert p[..|p| - 1] == [n] + q[..|q| - 1];
    assert Defect(v, p);
  }

  /** One level of resolution: no defect of its own, and every bean it needs is sound. */
  lemma Unfold(v: View, n: string)
    requires n !in v.beans
    ensures Sound(v, n) <==> !LocalDefect(v, n) && forall d | Needs(v, n, d) :: Sound(v, d)
  {
    if Sound(v, n) {
      if LocalDefect(v, n) {
        BadStart(v, n);
      }
      forall d | Needs(v, n, d) ensures Sound(v, d) {
        if !Sound(v, d) {
          NeedsSound(v, n, d);
        }
      }
    } else if !LocalDefect(v, n) {
      UnfoldBad(v, n);
    }
  }

  /** A bean at hand has the type of its instance, and any other the type its factory builds. */
  predicate Fits(v: View, f: Field) {
    if f.tag in v.beans then v.beans[f.tag].typ in f.accepts
    else
      && f.tag in v.definitions && v.definitions[f.tag].factory.Builds?
      && v.definitions[f.tag].factory.typ in f.accepts
  }

  /**
   What can be had: a bean at hand, or else one that is registered as a singleton or a prototype, whose factory returns
   a value and whose construction is not used up, if for each of its plain fields there is a bean to be had that fits.
   */
  lemma SoundMeans(v: View, n: string)
    ensures Sound(v, n) <==>
      || n in v.beans
      || (n in v.definitions && n !in v.failures
          && (v.definitions[n].scope == Singleton || v.definitions[n].scope == Prototype)
          && v.definitions[n].factory.Builds?
          && var fields := v.definitions[n].factory.fields;
            forall i | 0 <= i < |fields| && fields[i].kind == Plain :: Sound(v, fields[i].tag) && Fits(v, fields[i]))
  {
    hide Sound;
    if n in v.beans {
      AtHandSound(v, n);
    } else {
      Unfold(v, n);
      if n in v.definitions && v.definitions[n].factory.Builds? {
        var fields := Fields(v, n);
        forall i | 0 <= i < |fields| && fields[i].kind == Plain && Sound(v, fields[i].tag)
          ensures Needs(v, n, fields[i].tag) && (Fits(v, fields[i]) <==> !Misfit(v, fields[i]))
        {
          SoundHasType(v, fields[i].tag);
        }
        forall i | 0 <= i < |fields| && fields[i].kind == Plain ensures Needs(v, n, fields[i].tag) {
        }
      }
    }
  }

  lemma BadStart(v: View, n: string)
    requires n !in v.beans && LocalDefect(v, n)
    ensures !Sound(v, n)
  {
    assert Walk(v, [n]) && Defect(v, [n]);
  }

  lemma UnfoldBad(v: View, n: string)
    requires n !in v.beans && !Sound(v, n) && !LocalDefect(v, n)
    ensures exists d :: Needs(v, n, d) && !Sound(v, d)
  {
    var p := BadWalk(v, n);
    assert |p| > 1;
    var d, q := p[1], p[1..];
    assert Needs(v, n, d);
    Slice(v, p, 1, |p|);
    var last := q[|q| - 1];
    if last == n {
      Join(v, q, [n, d]);
      assert q + [n, d][1..] == q + [d];
      assert Needs(v, (q + [d])[0], (q + [d])[1]);
      Cycle(v, q + [d]);
    } else {
      assert p[..|p| - 1] == [n] + q[..|q| - 1];
      assert Defect(v, q);
    }
  }

  /** A bean met again on the way to itself is not sound. */
  lemma OnStack(v: View, stack: seq<string>, n: string)
    requires Walk(v, stack + [n]) && n in stack
    ensures !Sound(v, n)
  {
    var i :| 0 <= i < |stack| && stack[i] == n;
    Slice(v, stack + [n], i, |stack| + 1);
    Cycle(v, (stack + [n])[i..|stack| + 1]);
  }

  // ---------------------------------------------------------------------------------------------
  // What resolution remembers does not change what can be resolved.

  ghost predicate SameSound(v: View, w: View) {
    forall n :: Sound(v, n) <==> Sound(w, n)
  }

  function Cached(v: View, b: string, x: Instance): View {
    v.(beans := v.beans[b := x])
  }

  function Blamed(v: View, e: string, f: UsedUp): View {
    v.(failures := v.failures[e := f])
  }

  /** The view without the remembered failures. */
  function Forget(v: View): View {
    v.(failures := map[])
  }

  lemma CachedLocal(v: View, b: string, x: Instance, n: string)
    requires b !in v.beans && Buildable(v, b) && x.typ == TypeOf(v, b)
    ensures LocalDefect(Cached(v, b, x), n) <==> LocalDefect(v, n)
  {
    var w := Cached(v, b, x);
    assert Buildable(w, n) <==> Buildable(v, n);
    if Buildable(v, n) {
      forall i | 0 <= i < |Fields(v, n)| ensures Misfit(w, Fields(w, n)[i]) <==> Misfit(v, Fields(v, n)[i]) {
      }
    }
  }

  lemma CachedWalk(v: View, b: string, x: Instance, p: seq<string>)
    requires p != [] && b !in v.beans
    ensures Walk(Cached(v, b, x), p) ==> Walk(v, p)
    ensures Walk(v, p) && b !in p ==> Walk(Cached(v, b, x), p)
  {
    var w := Cached(v, b, x);
    forall i | 0 <= i < |p| - 1 ensures Needs(w, p[i], p[i + 1]) <==> Needs(v, p[i], p[i + 1]) && p[i] != b {
      NeedsSame(v, w, p[i], p[i + 1]);
    }
  }

  lemma NeedsSame(v: View, w: View, a: string, b: string)
    requires v.definitions == w.definitions
    ensures Needs(w, a, b) && a !in v.beans ==> Needs(v, a, b)
    ensures Needs(v, a, b) && a !in w.beans ==> Needs(w, a, b)
  {
    if Buildable(v, a) {
      assert Buildable(w, a) && Fields(v, a) == Fields(w, a);
    }
  }

  /** A defect at the end of a walk is a defect of every bean on the way that is not at hand. */
  lemma DefectOfAll(v: View, p: seq<string>, i: nat)
    requires Walk(v, p) && Defect(v, p) && i < |p| && p[i] !in v.beans
    ensures !Sound(v, p[i])
  {
    var last := p[|p| - 1];
    var q := p[i..|p|];
    Slice(v, p, i, |p|);
    if !Defect(v, q) {
      assert last in p[..|p| - 1];
      var j :| 0 <= j < |p| - 1 && p[j] == last;
      BackTo(v, p, i, j);
    }
  }

  lemma BackTo(v: View, p: seq<string>, i: nat, j: nat)
    requires Walk(v, p) && i < |p| && p[i] !in v.beans && j < |p| - 1 && p[j] == p[|p| - 1] && p[j] !in v.beans
    ensures !Sound(v, p[i])
  {
    var q := p[i..|p|];
    Slice(v, p, i, |p|);
    if j >= i {
      assert p[i..|p| - 1][j - i] == p[j] && q[..|q| - 1] == p[i..|p| - 1];
      assert Defect(v, q);
    } else {
      var back := p[j..i + 1];
      Slice(v, p, j, i + 1);
      Join(v, q, back);
      Cycle(v, q + back[1..]);
    }
  }

  /** Keeping the instance of a sound bean changes nothing. */
  lemma CacheSame(v: View, b: string, x: Instance)
    requires b !in v.beans && Buildable(v, b) && x.typ == TypeOf(v, b) && Sound(v, b)
    ensures SameSound(v, Cached(v, b, x))
  {
    var w := Cached(v, b, x);
    forall n ensures Sound(v, n) <==> Sound(w, n) {
      if !Sound(w, n) {
        var p := BadWalk(w, n);
        CachedWalk(v, b, x, p);
        CachedLocal(v, b, x, p[|p| - 1]);
        assert Defect(v, p);
      }
      if !Sound(v, n) {
        var p := BadWalk(v, n);
        CachedWalk(v, b, x, p);
        CachedLocal(v, b, x, p[|p| - 1]);
        forall i | 0 <= i < |p| ensures p[i] != b {
          if p[i] == b {
            DefectOfAll(v, p, i);
          }
        }
        assert Defect(w, p);
      }
    }
  }

  lemma FailuresWalk(v: View, failures: map<string, UsedUp>, p: seq<string>)
    ensures Walk(v.(failures := failures), p) <==> Walk(v, p)
  {
    if p != [] {
      var w := v.(failures := failures);
      forall i | 0 <= i < |p| - 1 ensures Needs(w, p[i], p[i + 1]) <==> Needs(v, p[i], p[i + 1]) {
        NeedsSame(v, w, p[i], p[i + 1]);
      }
    }
  }

  lemma FailuresLocal(v: View, failures: map<string, UsedUp>, n: string)
    ensures LocalDefect(v.(failures := failures), n) || n in v.failures <==> LocalDefect(v, n) || n in failures
  {
    var w := v.(failures := failures);
    if Buildable(v, n) {
      assert Fields(w, n) == Fields(v, n);
      forall i | 0 <= i < |Fields(v, n)| ensures Misfit(w, Fields(w, n)[i]) <==> Misfit(v, Fields(v, n)[i]) {
      }
    }
  }

  /** Fewer remembered failures, fewer unsound beans. */
  lemma FewerFailures(v: View, failures: map<string, UsedUp>, n: string)
    requires failures.Keys <= v.failures.Keys && !Sound(v.(failures := failures), n)
    ensures !Sound(v, n)
  {
    var p := BadWalk(v.(failures := failures), n);
    FailuresWalk(v, failures, p);
    FailuresLocal(v, failures, p[|p| - 1]);
    assert Defect(v, p);
  }

  /** Failures that were deserved may be dropped. */
  lemma DeservedFailures(v: View, failures: map<string, UsedUp>, n: string)
    requires failures.Keys <= v.failures.Keys
      && forall e | e in v.failures && e !in v.beans && e !in failures :: !Sound(v.(failures := failures), e)
    requires !Sound(v, n)
    ensures !Sound(v.(failures := failures), n)
  {
    var w := v.(failures := failures);
    var p := BadWalk(v, n);
    var last := p[|p| - 1];
    FailuresWalk(v, failures, p);
    FailuresLocal(v, failures, last);
    if last in v.failures && last !in failures {
      var q := BadWalk(w, last);
      Join(w, p, q);
      JoinDefect(w, p, q);
      p := p + q[1..];
    }
    assert Defect(w, p);
  }

  lemma JoinDefect(v: View, p: seq<string>, q: seq<string>)
    requires p != [] && q != [] && p[|p| - 1] == q[0] && Defect(v, q)
    ensures Defect(v, p + q[1..])
  {
    var w := p + q[1..];
    assert w == p[..|p| - 1] + q;
    assert w[..|w| - 1] == p[..|p| - 1] + q[..|q| - 1];
  }

  /** Remembering the failure of an unsound bean changes nothing. */
  lemma BlameSame(v: View, e: string, f: UsedUp)
    requires !Sound(v, e)
    ensures SameSound(v, Blamed(v, e, f))
  {
    var w := Blamed(v, e, f);
    assert w.(failures := v.failures) == v;
    forall n ensures Sound(v, n) <==> Sound(w, n) {
      if !Sound(v, n) {
        FewerFailures(w, v.failures, n);
      }
      if !Sound(w, n) {
        DeservedFailures(w, v.failures, n);
      }
    }
  }

  /** Every remembered failure is one that resolution from scratch would come to as well. */
  ghost predicate Coherent(v: View) {
    forall e | e in v.failures && e !in v.beans :: !Sound(Forget(v), e)
  }

  /**
   When do remembered failures go unnoticed? Resolution agrees for every bean with what is reachable if and only
   if each remembered failure is still deserved.
   */
  lemma CoherentExactly(v: View)
    ensures Coherent(v) <==> SameSound(v, Forget(v))
  {
    if Coherent(v) {
      forall n ensures Sound(v, n) <==> Sound(Forget(v), n) {
        if !Sound(Forget(v), n) {
          FewerFailures(v, map[], n);
        }
        if !Sound(v, n) {
          DeservedFailures(v, map[], n);
        }
      }
    }
    if SameSound(v, Forget(v)) {
      forall e | e in v.failures && e !in v.beans ensures !Sound(Forget(v), e) {
        BadStart(v, e);
      }
    }
  }

  /** A walk from the bean ends in one that is not at hand and whose construction is used up, by an error or a panic. */
  ghost predicate MeetsFailure(v: View, n: string) {
    exists p :: Walk(v, p) && p[0] == n && p[|p| - 1] in v.failures && p[|p| - 1] !in v.beans
  }

  /** For one bean: it can be had if and only if it could be had from scratch and no used-up construction is met. */
  lemma SoundExactly(v: View, n: string)
    ensures Sound(v, n) <==> Sound(Forget(v), n) && !MeetsFailure(v, n)
  {
    if !Sound(Forget(v), n) {
      FewerFailures(v, map[], n);
    }
    if MeetsFailure(v, n) {
      var p :| Walk(v, p) && p[0] == n && p[|p| - 1] in v.failures && p[|p| - 1] !in v.beans;
      assert Defect(v, p);
    }
    if !Sound(v, n) && !MeetsFailure(v, n) {
      var p := BadWalk(v, n);
      FailuresWalk(v, map[], p);
      FailuresLocal(v, map[], p[|p| - 1]);
      assert Defect(Forget(v), p);
    }
  }

  lemma CacheCoherent(v: View, b: string, x: Instance)
    requires b !in v.beans && Buildable(v, b) && x.typ == TypeOf(v, b) && Sound(v, b) && Coherent(v)
    ensures Coherent(Cached(v, b, x))
  {
    CoherentExactly(v);
    CacheSame(Forget(v), b, x);
    assert Forget(Cached(v, b, x)) == Cached(Forget(v), b, x);
  }

  lemma BlameCoherent(v: View, e: string, f: UsedUp)
    requires !Sound(v, e) && Coherent(v)
    ensures Coherent(Blamed(v, e, f))
  {
    CoherentExactly(v);
    assert Forget(Blamed(v, e, f)) == Forget(v);
  }

  /** How resolution may change what it remembers. */
  ghost predicate Evolves(v: View, w: View) {
    && w.definitions == v.definitions
    && SameSound(v, w)
    && (forall n | HasType(v, n) :: HasType(w, n) && TypeOf(w, n) == TypeOf(v, n))
    && (forall n | n in v.beans :: n in w.beans && w.beans[n] == v.beans[n])
    && (forall n | n in w.beans && n !in v.beans :: n in v.definitions && v.definitions[n].scope.Singleton?)
    && (Coherent(v) ==> Coherent(w))
  }

  lemma EvolvesCached(v: View, b: string, x: Instance)
    requires b in v.definitions && v.definitions[b].scope.Singleton?
    requires b !in v.beans && Buildable(v, b) && x.typ == TypeOf(v, b) && Sound(v, b)
    ensures Evolves(v, Cached(v, b, x))
  {
    CacheSame(v, b, x);
    if Coherent(v) {
      CacheCoherent(v, b, x);
    }
  }

  lemma EvolvesBlamed(v: View, e: string, f: UsedUp)
    requires !Sound(v, e)
    ensures Evolves(v, Blamed(v, e, f))
  {
    BlameSame(v, e, f);
    if Coherent(v) {
      BlameCoherent(v, e, f);
    }
  }

  lemma EvolvesRefl(v: View)
    ensures Evolves(v, v)
  {
  }

  lemma EvolvesTrans(u: View, v: View, w: View)
    requires Evolves(u, v) && Evolves(v, w)
    ensures Evolves(u, w)
  {
  }

  /** The field's bean can be built and fits. */
  ghost predicate Supplied(v: View, f: Field) {
    f.kind.Plain? ==> Sound(v, f.tag) && !Misfit(v, f)
  }

  lemma SoundHasType(v: View, n: string)
    requires Sound(v, n)
    ensures HasType(v, n)
  {
    if !HasType(v, n) {
      BadStart(v, n);
    }
  }

  lemma SuppliedEvolves(v: View, w: View, f: Field)
    requires Evolves(v, w)
    ensures Supplied(v, f) <==> Supplied(w, f)
  {
    if Sound(v, f.tag) {
      SoundHasType(v, f.tag);
    }
  }

  lemma SuppliedAll(v: View, n: string)
    requires n !in v.beans && Buildable(v, n) && n !in v.failures
    requires v.definitions[n].scope.Singleton? || v.definitions[n].scope.Prototype?
    ensures Sound(v, n) <==> forall i | 0 <= i < |Fields(v, n)| :: Supplied(v, Fields(v, n)[i])
  {
    hide Sound;
    Unfold(v, n);
    if Sound(v, n) {
      forall i | 0 <= i < |Fields(v, n)| ensures Supplied(v, Fields(v, n)[i]) {
        assert Fields(v, n)[i].kind.Plain? ==> Needs(v, n, Fields(v, n)[i].tag);
      }
    }
  }

  // ---------------------------------------------------------------------------------------------
  // Panics: which of the beans that cannot be had end resolution in a panic, and not in an error.

  /** Resolution gets as far as building the bean. */
  predicate Entered(v: View, n: string) {
    && n !in v.beans && n in v.definitions && n !in v.failures
    && (v.definitions[n].scope.Singleton? || v.definitions[n].scope.Prototype?)
  }

  /** A construction used up by a panic: the bean comes back as nil, without an error. */
  predicate Spent(v: View, n: string) {
    n !in v.beans && n in v.failures && v.failures[n].ByPanic?
  }

  /** Building `a` gets as far as asking for `b`. */
  ghost predicate Leads(v: View, a: string, b: string) {
    Entered(v, a) && Buildable(v, a) && exists i :: LeadsAt(v, Fields(v, a), i, b)
  }

  ghost predicate LeadsAt(v: View, fields: seq<Field>, i: int, b: string) {
    && 0 <= i < |fields| && fields[i].kind.Plain? && fields[i].tag == b
    && forall j | 0 <= j < i :: Supplied(v, fields[j])
  }

  /** After `k` steps of asking, a factory panics, or the nil of a spent construction is injected, which panics too. */
  ghost predicate Panicking(v: View, n: string, k: nat)
    decreases k
  {
    && Entered(v, n)
    && if k == 0 then v.definitions[n].factory.Panics?
       else exists b :: Leads(v, n, b) && (Spent(v, b) || Panicking(v, b, k - 1))
  }

  ghost predicate Explodes(v: View, n: string) {
    exists k: nat :: Panicking(v, n, k)
  }

  /** Injecting the field panics. */
  ghost predicate Bursts(v: View, f: Field) {
    f.kind.Plain? && (Spent(v, f.tag) || Explodes(v, f.tag))
  }

  /** Injecting the fields in order panics. */
  ghost predicate FieldsBurst(v: View, fields: seq<Field>) {
    exists i :: BurstsAt(v, fields, i)
  }

  ghost predicate BurstsAt(v: View, fields: seq<Field>, i: int) {
    0 <= i < |fields| && Bursts(v, fields[i]) && forall j | 0 <= j < i :: Supplied(v, fields[j])
  }

  lemma LeadsNeeds(v: View, a: string, b: string)
    requires Leads(v, a, b)
    ensures Needs(v, a, b)
  {
    var i :| LeadsAt(v, Fields(v, a), i, b);
  }

  lemma {:induction false} PanickingUnsound(v: View, n: string, k: nat)
    requires Panicking(v, n, k)
    ensures !Sound(v, n)
    decreases k
  {
    hide Sound, Leads, LocalDefect;
    if k == 0 {
      assert !Buildable(v, n);
      NotBuildable(v, n);
    } else {
      var b :| Leads(v, n, b) && (Spent(v, b) || Panicking(v, b, k - 1));
      LeadsNeeds(v, n, b);
      if Spent(v, b) {
        SpentUnsound(v, b);
      } else {
        PanickingUnsound(v, b, k - 1);
      }
      NeedsSound(v, n, b);
    }
  }

  lemma NotBuildable(v: View, n: string)
    requires n !in v.beans && !Buildable(v, n)
    ensures !Sound(v, n)
  {
    BadStart(v, n);
  }

  lemma SpentUnsound(v: View, n: string)
    requires Spent(v, n)
    ensures !Sound(v, n) && !Explodes(v, n)
  {
    BadStart(v, n);
  }

  lemma BurstsUnsupplied(v: View, f: Field)
    requires Bursts(v, f)
    ensures !Supplied(v, f)
  {
    hide Sound, Panicking;
    if Spent(v, f.tag) {
      SpentUnsound(v, f.tag);
    } else {
      var k: nat :| Panicking(v, f.tag, k);
      PanickingUnsound(v, f.tag, k);
    }
  }

  /** A bean with a factory that returns panics exactly when injecting its fields does. */
  lemma ExplodesBuilt(v: View, n: string)
    requires Entered(v, n) && Buildable(v, n)
    ensures Explodes(v, n) <==> FieldsBurst(v, Fields(v, n))
  {
    hide Supplied, Spent;
    var fields := Fields(v, n);
    if Explodes(v, n) {
      var k: nat :| Panicking(v, n, k);
      var b :| Leads(v, n, b) && (Spent(v, b) || Panicking(v, b, k - 1));
      var i :| LeadsAt(v, fields, i, b);
      assert BurstsAt(v, fields, i);
    }
    if FieldsBurst(v, fields) {
      var i :| BurstsAt(v, fields, i);
      var b := fields[i].tag;
      assert LeadsAt(v, fields, i, b) && Leads(v, n, b);
      if Spent(v, b) {
        assert Panicking(v, n, 1);
      } else {
        var k: nat :| Panicking(v, b, k);
        assert Panicking(v, n, k + 1);
      }
    }
  }

  /**
   What panics: a singleton or prototype that is not at hand nor used up, if its factory panics, or if it returns and
   the first of the plain fields for which no fitting bean is to be had asks for a nil or for a bean that panics.
   */
  lemma ExplodesMeans(v: View, n: string)
    ensures Explodes(v, n) <==>
      && n !in v.beans && n in v.definitions && n !in v.failures
      && (v.definitions[n].scope == Singleton || v.definitions[n].scope == Prototype)
      && (v.definitions[n].factory == Panics
          || (v.definitions[n].factory.Builds?
              && var fields := v.definitions[n].factory.fields;
                exists i | 0 <= i < |fields| ::
                  && fields[i].kind == Plain
                  && (Explodes(v, fields[i].tag)
                      || (fields[i].tag !in v.beans && fields[i].tag in v.failures
                          && v.failures[fields[i].tag] == ByPanic))
                  && forall j | 0 <= j < i && fields[j].kind == Plain ::
                       Sound(v, fields[j].tag) && Fits(v, fields[j])))
  {
    hide Sound, Explodes;
    if !Entered(v, n) {
      NeverEntered(v, n);
    } else if !Buildable(v, n) {
      ExplodesUnbuilt(v, n);
    } else {
      ExplodesBuilt(v, n);
      var fields := Fields(v, n);
      forall j | 0 <= j < |fields|
        ensures Supplied(v, fields[j]) <==>
          (fields[j].kind == Plain ==> Sound(v, fields[j].tag) && Fits(v, fields[j]))
      {
        if Sound(v, fields[j].tag) {
          SoundHasType(v, fields[j].tag);
        }
      }
      if FieldsBurst(v, fields) {
        var i :| BurstsAt(v, fields, i);
        assert Bursts(v, fields[i]);
      }
      forall i | 0 <= i < |fields| && Bursts(v, fields[i]) && forall j | 0 <= j < i :: Supplied(v, fields[j])
        ensures FieldsBurst(v, fields)
      {
        assert BurstsAt(v, fields, i);
      }
    }
  }

  /** Without a factory that returns, it panics exactly when the factory does. */
  lemma ExplodesUnbuilt(v: View, n: string)
    requires Entered(v, n) && !Buildable(v, n)
    ensures Explodes(v, n) <==> v.definitions[n].factory.Panics?
  {
    assert v.definitions[n].factory.Panics? ==> Panicking(v, n, 0);
  }

  lemma NeverEntered(v: View, n: string)
    requires !Entered(v, n)
    ensures !Explodes(v, n)
  {
  }

  /** The first field that cannot be supplied decides. */
  lemma FirstUnsupplied(v: View, fields: seq<Field>, i: nat)
    requires i < |fields| && !Supplied(v, fields[i]) && forall j | 0 <= j < i :: Supplied(v, fields[j])
    ensures FieldsBurst(v, fields) <==> Bursts(v, fields[i])
  {
    hide Bursts, Supplied;
    if Bursts(v, fields[i]) {
      assert BurstsAt(v, fields, i);
    }
    if FieldsBurst(v, fields) {
      var k :| BurstsAt(v, fields, k);
      BurstsUnsupplied(v, fields[k]);
    }
  }

  lemma AllSupplied(v: View, fields: seq<Field>)
    requires forall i | 0 <= i < |fields| :: Supplied(v, fields[i])
    ensures !FieldsBurst(v, fields)
  {
    hide Bursts, Supplied;
    if FieldsBurst(v, fields) {
      var k :| BurstsAt(v, fields, k);
      BurstsUnsupplied(v, fields[k]);
    }
  }

  /** The way that resolution has come: building each bean has asked for the next. */
  ghost predicate Route(v: View, p: seq<string>) {
    p != [] && forall i | 0 <= i < |p| - 1 :: Leads(v, p[i], p[i + 1])
  }

  lemma RouteWalk(v: View, p: seq<string>)
    requires Route(v, p)
    ensures Walk(v, p)
  {
    hide Leads, Needs;
    forall i | 0 <= i < |p| - 1 ensures Needs(v, p[i], p[i + 1]) {
      LeadsNeeds(v, p[i], p[i + 1]);
    }
  }

  lemma RouteMore(v: View, stack: seq<string>, d: string)
    requires Route(v, stack) && Leads(v, stack[|stack| - 1], d)
    ensures Route(v, stack + [d])
  {
    hide Leads;
  }

  /** Building a bean asks for one bean only that cannot be had. */
  lemma OneUnsound(v: View, a: string, b: string, c: string)
    requires Leads(v, a, b) && Leads(v, a, c) && !Sound(v, b) && !Sound(v, c)
    ensures b == c
  {
    hide Sound;
    var fields := Fields(v, a);
    var i :| LeadsAt(v, fields, i, b);
    var j :| LeadsAt(v, fields, j, c);
  }

  lemma {:induction false} NoPanicOnCycle(v: View, p: seq<string>, i: nat, m: nat, k: nat)
    requires Route(v, p) && i <= m < |p| - 1 && p[i] == p[|p| - 1]
    ensures !Panicking(v, p[m], k)
    decreases k
  {
    hide Sound, LocalDefect, Needs, Walk;
    if Panicking(v, p[m], k) {
      assert Leads(v, p[m], p[m + 1]) && Leads(v, p[i], p[i + 1]);
      if k > 0 {
        var b :| Leads(v, p[m], b) && (Spent(v, b) || Panicking(v, b, k - 1));
        var n := if m + 1 < |p| - 1 then m + 1 else i;
        assert p[n] == p[m + 1] && Leads(v, p[n], p[n + 1]);
        RouteWalk(v, p);
        BackTo(v, p, n, i);
        if Spent(v, b) {
          SpentUnsound(v, b);
        } else {
          PanickingUnsound(v, b, k - 1);
        }
        OneUnsound(v, p[m], b, p[m + 1]);
        NoPanicOnCycle(v, p, i, n, k - 1);
      }
    }
  }

  /** A bean met again on the way to itself is an error, not a panic. */
  lemma OnStackIsError(v: View, stack: seq<string>, n: string)
    requires Route(v, stack + [n]) && n in stack
    ensures !Sound(v, n) && !Spent(v, n) && !Explodes(v, n)
  {
    hide Sound, Walk, Panicking;
    var p := stack + [n];
    var i :| 0 <= i < |stack| && stack[i] == n;
    assert Leads(v, p[i], p[i + 1]) && p[i] == n;
    RouteWalk(v, p);
    OnStack(v, stack, n);
    forall k: nat ensures !Panicking(v, n, k) {
      NoPanicOnCycle(v, p, i, i, k);
    }
  }

  // Successful resolution leaves all of this as it is.

  lemma AtHandSound(v: View, n: string)
    requires n in v.beans
    ensures Sound(v, n)
  {
    forall p | Walk(v, p) && p[0] == n ensures !Defect(v, p) {
      assert |p| > 1 ==> Needs(v, p[0], p[1]);
    }
  }

  lemma UnsoundStays(v: View, w: View, n: string)
    requires Evolves(v, w) && !Sound(v, n)
    ensures n !in w.beans && n !in v.beans
  {
    hide Sound;
    if n in w.beans {
      AtHandSound(w, n);
    }
  }

  lemma LeadsSame(v: View, w: View, a: string, b: string)
    requires Evolves(v, w) && w.failures == v.failures && a !in w.beans
    ensures Leads(v, a, b) <==> Leads(w, a, b)
  {
    hide Evolves, Supplied;
    EvolvesKeeps(v, w, a);
    if Buildable(v, a) {
      var fields := Fields(v, a);
      forall i ensures LeadsAt(v, fields, i, b) <==> LeadsAt(w, fields, i, b) {
        forall j | 0 <= j < i && i < |fields| ensures Supplied(v, fields[j]) <==> Supplied(w, fields[j]) {
          SuppliedEvolves(v, w, fields[j]);
        }
      }
      assert Buildable(w, a) && Fields(w, a) == fields && Entered(v, a) == Entered(w, a);
    }
  }

  lemma EvolvesKeeps(v: View, w: View, n: string)
    requires Evolves(v, w)
    ensures w.definitions == v.definitions && (n in v.beans ==> n in w.beans) && (Sound(v, n) <==> Sound(w, n))
  {
    hide Sound;
  }

  lemma SpentSame(v: View, w: View, n: string)
    requires Evolves(v, w) && w.failures == v.failures
    ensures Spent(v, n) <==> Spent(w, n)
  {
    hide Sound, Evolves;
    EvolvesKeeps(v, w, n);
    if Spent(v, n) {
      SpentUnsound(v, n);
      UnsoundStays(v, w, n);
    }
  }

  lemma {:induction false} PanickingSame(v: View, w: View, n: string, k: nat)
    requires Evolves(v, w) && w.failures == v.failures
    ensures Panicking(v, n, k) <==> Panicking(w, n, k)
    decreases k
  {
    hide Sound, Evolves, Leads, Spent;
    EvolvesKeeps(v, w, n);
    if Panicking(v, n, k) {
      PanickingUnsound(v, n, k);
      UnsoundStays(v, w, n);
    }
    if Entered(w, n) && k > 0 {
      forall b ensures Leads(v, n, b) <==> Leads(w, n, b) {
        LeadsSame(v, w, n, b);
      }
      forall b ensures Spent(v, b) || Panicking(v, b, k - 1) <==> Spent(w, b) || Panicking(w, b, k - 1) {
        SpentSame(v, w, b);
        PanickingSame(v, w, b, k - 1);
      }
    }
  }

  lemma BurstsSame(v: View, w: View, f: Field)
    requires Evolves(v, w) && w.failures == v.failures
    ensures Bursts(v, f) <==> Bursts(w, f)
  {
    hide Evolves, Spent, Panicking;
    SpentSame(v, w, f.tag);
    forall k: nat ensures Panicking(v, f.tag, k) <==> Panicking(w, f.tag, k) {
      PanickingSame(v, w, f.tag, k);
    }
  }

  /** The way that resolution has come stays one while its beans are not at hand. */
  lemma RouteEvolves(v: View, w: View, p: seq<string>)
    requires Route(v, p) && Evolves(v, w) && w.failures == v.failures
    requires forall x | x in p && x in w.beans :: x in v.beans
    ensures Route(w, p)
  {
    hide Leads, Evolves;
    forall i | 0 <= i < |p| - 1 ensures Leads(w, p[i], p[i + 1]) {
      assert Leads(v, p[i], p[i + 1]) && p[i] in p;
      LeadsEntered(v, p[i], p[i + 1]);
      LeadsSame(v, w, p[i], p[i + 1]);
    }
  }

  lemma LeadsEntered(v: View, a: string, b: string)
    requires Leads(v, a, b)
    ensures Entered(v, a)
  {
  }

  /** The failures that are new are all of one kind, or there are none. */
  ghost predicate Adds(v: View, w: View, kind: Option<UsedUp>) {
    && (forall n | n in v.failures :: n in w.failures && w.failures[n] == v.failures[n])
    && (forall n | n in w.failures && n !in v.failures :: kind == Some(w.failures[n]))
  }

  lemma AddsNone(v: View, w: View)
    ensures Adds(v, w, None) <==> w.failures == v.failures
  {
  }

  lemma AddsAfter(u: View, v: View, w: View, kind: Option<UsedUp>)
    requires v.failures == u.failures && Adds(v, w, kind)
    ensures Adds(u, w, kind)
  {
  }

  lemma WithoutFactory(v: View, n: string)
    requires n !in v.beans && n in v.definitions && v.definitions[n].factory.NoFactory?
    ensures !Sound(v, n) && !Explodes(v, n)
  {
    hide Panicking;
    BadStart(v, n);
    if Entered(v, n) {
      ExplodesUnbuilt(v, n);
    } else {
      NeverEntered(v, n);
    }
  }
}

module Container {
  import opened BeanGraph
  import opened Wrappers

  datatype Once = NotStarted | Running | Done

  /** The part of a bean definition that resolution writes. */
  datatype State = State(once: Once, instance: Option<Instance>, failed: bool)

  const FRESH := State(NotStarted, None, false)

  /** How a resolution ends: with a value, with nil and no error, with an error, or in a panic. */
  datatype Outcome<+T> = Found(value: T) | Nil | Failed | Panicked

  /** What a resolution may leave behind. */
  function KindOf<T>(r: Outcome<T>): Option<UsedUp> {
    match r
    case Failed => Some(ByError)
    case Panicked => Some(ByPanic)
    case _ => None
  }

  /** How a resolution ends: found, nil without an error, in a panic, or else with an error. */
  ghost predicate Answered(v: View, n: string, r: Outcome<Instance>) {
    && (r.Found? <==> Sound(v, n))
    && (r.Nil? <==> Spent(v, n))
    && (r.Panicked? <==> Explodes(v, n))
  }

  /** A bean that is not had leaves its own construction used up, in the way the call ended. */
  predicate Marked(failures: map<string, UsedUp>, n: string, r: Outcome<Instance>) {
    n in failures && (failures[n].ByError? <==> r.Failed?)
  }

  /** The names whose once-only construction is used up without an instance. */
  function Failures(state: map<string, State>): map<string, UsedUp> {
    map n | n in state && Over(state[n]) :: if state[n].failed then ByError else ByPanic
  }

  /** What the body of the `once.Do` makes of a definition. A panic leaves it as it is, and the `sync.Once` used up. */
  function EndState(s: State, r: Outcome<Instance>): State {
    match r
    case Found(x) => State(Done, Some(x), false)
    case Failed => State(Done, None, true)
    case _ => s.(once := Done)
  }

  /** Used up without an instance. */
  predicate Over(s: State) {
    s.once.Done? && (s.failed || s.instance.None?)
  }

  /** What becomes of the failures with one definition's state. */
  lemma FailuresPut(state: map<string, State>, n: string, s: State)
    ensures Failures(state[n := s]) ==
      if Over(s) then Failures(state)[n := if s.failed then ByError else ByPanic] else Failures(state) - {n}
  {
  }

  lemma FailuresIn(state: map<string, State>, n: string)
    ensures n in Failures(state) <==> n in state && Over(state[n])
    ensures n in Failures(state) ==> (Failures(state)[n].ByError? <==> state[n].failed)
    ensures n !in Failures(state) ==> Failures(state) - {n} == Failures(state)
  {
  }

  /** What a call that was given `stack` may do to the instances and to the once-only states. */
  ghost predicate Kept(stack: seq<string>, beans: map<string, Instance>, state: map<string, State>,
                       beans': map<string, Instance>, state': map<string, State>) {
    && (forall n | n in stack && n in beans' :: n in beans)
    && state'.Keys == state.Keys
    && (forall n | n in state :: state[n].once.Running? ==> state'[n] == state[n])
    && (forall n | n in state :: state'[n].once.Running? ==> state[n].once.Running?)
  }

  ghost predicate StatesOk(definitions: map<string, Definition>, beans: map<string, Instance>,
                           state: map<string, State>, runs: map<string, nat>) {
    && state.Keys == definitions.Keys && runs.Keys == definitions.Keys
    && (forall n | n in state :: !state[n].once.NotStarted? ==> definitions[n].scope.Singleton?)
    && (forall n | n in state :: state[n].instance.Some? ==> n in beans)
    && (forall n | n in state :: state[n].failed ==> state[n].once.Done?)
    && (forall n | n in state && definitions[n].scope.Singleton? ::
          runs[n] <= if state[n].once.NotStarted? then 0 else 1)
  }

  /** Every running construction is on the stack. */
  ghost predicate OnlyRunning(stack: seq<string>, state: map<string, State>) {
    forall n | n in state && state[n].once.Running? :: n in stack
  }

  function Elements(stack: seq<string>): set<string> {
    set n | n in stack
  }

  /**
   The field holds what its tag asks for: nothing, a provider, the bean kept under the tag, or an instance of a
   prototype, new and itself built. The new instances in it have taken their ids from `lo` up to `hi`.
   */
  ghost predicate Wired(v: View, lo: nat, hi: nat, f: Field, x: Injected)
    decreases x
  {
    && lo <= hi
    && match f.kind
       case Unsettable => x == Untouched
       case Provider => x == Lazy(f.tag)
       case Plain =>
         && x.Bean? && x.instance.typ in f.accepts
         && if f.tag in v.beans then x.instance == v.beans[f.tag]
            else
              && f.tag in v.definitions && v.definitions[f.tag].scope.Prototype?
              && Built(v, lo, hi, f.tag, x.instance)
  }

  /** The fields are wired one after the other, each with ids of its own. */
  ghost predicate AllWired(v: View, lo: nat, hi: nat, fields: seq<Field>, xs: seq<Injected>)
    decreases xs
  {
    if xs == [] then lo <= hi
    else
      var n := |xs| - 1;
      n < |fields| && exists mid: nat ::
        AllWired(v, lo, mid, fields, xs[..n]) && Wired(v, mid, hi, fields[n], xs[n])
  }

  /** A new instance: of the type its factory builds, with every field wired. */
  ghost predicate Built(v: View, lo: nat, hi: nat, n: string, x: Instance)
    decreases x
  {
    && Buildable(v, n) && x.typ == v.definitions[n].factory.typ && lo <= x.id < hi
    && |x.fields| == |Fields(v, n)| && AllWired(v, x.id + 1, hi, Fields(v, n), x.fields)
  }

  /** What each tagged field holds: nothing, a provider for its tag, the bean kept under it, or an own prototype. */
  lemma {:induction false} FieldsHold(v: View, lo: nat, hi: nat, fields: seq<Field>, xs: seq<Injected>, i: nat)
    requires AllWired(v, lo, hi, fields, xs) && i < |xs| <= |fields|
    ensures fields[i].kind == Unsettable ==> xs[i] == Untouched
    ensures fields[i].kind == Provider ==> xs[i] == Lazy(fields[i].tag)
    ensures fields[i].kind == Plain ==>
      && xs[i].Bean? && xs[i].instance.typ in fields[i].accepts
      && if fields[i].tag in v.beans then xs[i].instance == v.beans[fields[i].tag]
         else
           && fields[i].tag in v.definitions && v.definitions[fields[i].tag].scope == Prototype
           && v.definitions[fields[i].tag].factory.Builds?
           && xs[i].instance.typ == v.definitions[fields[i].tag].factory.typ
           && |xs[i].instance.fields| == |v.definitions[fields[i].tag].factory.fields|
           && exists from: nat, to: nat ::
                AllWired(v, from, to, v.definitions[fields[i].tag].factory.fields, xs[i].instance.fields)
    decreases xs
  {
    var n := |xs| - 1;
    var mid: nat :| AllWired(v, lo, mid, fields, xs[..n]) && Wired(v, mid, hi, fields[n], xs[n]);
    AllWiredBounds(v, lo, mid, fields, xs[..n]);
    if i < n {
      FieldsHold(v, lo, mid, fields, xs[..n], i);
    } else if fields[i].kind == Plain && fields[i].tag !in v.beans {
      BuiltMeans(v, mid, hi, fields[i].tag, xs[i].instance);
    }
  }

  lemma BuiltMeans(v: View, lo: nat, hi: nat, n: string, x: Instance)
    requires Built(v, lo, hi, n, x)
    ensures
      && n in v.definitions && v.definitions[n].factory.Builds? && x.typ == v.definitions[n].factory.typ
      && |x.fields| == |v.definitions[n].factory.fields|
      && AllWired(v, x.id + 1, hi, v.definitions[n].factory.fields, x.fields)
  {
    hide AllWired;
  }

  lemma AllWiredMore(v: View, lo: nat, mid: nat, hi: nat, fields: seq<Field>, xs: seq<Injected>, x: Injected)
    requires |xs| < |fields| && AllWired(v, lo, mid, fields, xs) && Wired(v, mid, hi, fields[|xs|], x)
    ensures AllWired(v, lo, hi, fields, xs + [x])
  {
    hide Wired;
    assert (xs + [x])[..|xs|] == xs;
  }

  /** What resolution does later leaves what is wired as it is. */
  lemma {:induction false} WiredEvolves(v: View, w: View, lo: nat, hi: nat, f: Field, x: Injected)
    requires Wired(v, lo, hi, f, x) && Evolves(v, w)
    ensures Wired(w, lo, hi, f, x)
    decreases x
  {
    hide Sound, Coherent, SameSound, HasType, TypeOf, AllWired;
    if f.kind.Plain? && f.tag !in v.beans {
      BuiltEvolves(v, w, lo, hi, f.tag, x.instance);
    }
  }

  lemma {:induction false} BuiltEvolves(v: View, w: View, lo: nat, hi: nat, n: string, x: Instance)
    requires Built(v, lo, hi, n, x) && Evolves(v, w)
    ensures Built(w, lo, hi, n, x)
    decreases x
  {
    hide Sound, Coherent, SameSound, HasType, TypeOf, AllWired;
    AllWiredEvolves(v, w, x.id + 1, hi, Fields(v, n), x.fields);
  }

  lemma {:induction false} AllWiredEvolves(v: View, w: View, lo: nat, hi: nat, fields: seq<Field>, xs: seq<Injected>)
    requires AllWired(v, lo, hi, fields, xs) && Evolves(v, w)
    ensures AllWired(w, lo, hi, fields, xs)
    decreases xs
  {
    hide Evolves, Wired;
    if xs != [] {
      var n := |xs| - 1;
      var mid: nat :| AllWired(v, lo, mid, fields, xs[..n]) && Wired(v, mid, hi, fields[n], xs[n]);
      AllWiredEvolves(v, w, lo, mid, fields, xs[..n]);
      WiredEvolves(v, w, mid, hi, fields[n], xs[n]);
    }
  }

  /** The field holds an instance of a prototype. */
  predicate OwnInstance(v: View, f: Field, x: Injected) {
    f.kind.Plain? && f.tag !in v.beans && x.Bean?
  }

  lemma WiredIds(v: View, lo: nat, hi: nat, f: Field, x: Injected)
    requires Wired(v, lo, hi, f, x)
    ensures lo <= hi && (OwnInstance(v, f, x) ==> lo <= x.instance.id < hi)
  {
    hide AllWired;
  }

  /** The instances of prototypes in the fields of a bean are new ones, and no two fields share one. */
  lemma {:induction false} PrototypesApart(v: View, lo: nat, hi: nat, fields: seq<Field>, xs: seq<Injected>, i: nat)
    requires AllWired(v, lo, hi, fields, xs) && i < |xs| <= |fields| && OwnInstance(v, fields[i], xs[i])
    ensures lo <= xs[i].instance.id < hi
    ensures forall j | i < j < |xs| && OwnInstance(v, fields[j], xs[j]) :: xs[i].instance.id < xs[j].instance.id
    decreases xs
  {
    AllWiredBounds(v, lo, hi, fields, xs);
    var n := |xs| - 1;
    var mid: nat :| AllWired(v, lo, mid, fields, xs[..n]) && Wired(v, mid, hi, fields[n], xs[n]);
    AllWiredBounds(v, lo, mid, fields, xs[..n]);
    WiredIds(v, mid, hi, fields[n], xs[n]);
    hide Wired, AllWired;
    if i < n {
      PrototypesApart(v, lo, mid, fields, xs[..n], i);
      forall j | i < j < |xs| && OwnInstance(v, fields[j], xs[j]) ensures xs[i].instance.id < xs[j].instance.id {
        assert j < n ==> xs[..n][j] == xs[j];
      }
    }
  }

  lemma {:induction false} AllWiredBounds(v: View, lo: nat, hi: nat, fields: seq<Field>, xs: seq<Injected>)
    requires AllWired(v, lo, hi, fields, xs)
    ensures lo <= hi && |xs| <= |fields|
    decreases xs
  {
    if xs != [] {
      var n := |xs| - 1;
      var mid: nat :| AllWired(v, lo, mid, fields, xs[..n]) && Wired(v, mid, hi, fields[n], xs[n]);
      AllWiredBounds(v, lo, mid, fields, xs[..n]);
    }
  }

  /** What a successful resolution hands out, with ids taken from `lo` up to `hi`. */
  ghost predicate Resolved(v: View, w: View, lo: nat, hi: nat, n: string, x: Instance) {
    && HasType(v, n) && x.typ == TypeOf(v, n)
    && (n in v.beans ==> x == v.beans[n])
    && (n in w.beans ==> x == w.beans[n])
    && (n !in w.beans ==> n in v.definitions && v.definitions[n].scope.Prototype?)
    && (n !in v.beans ==> Built(w, lo, hi, n, x))
  }

  lemma EvolvesSound(v: View, w: View, n: string)
    requires Evolves(v, w)
    ensures Sound(v, n) <==> Sound(w, n)
    ensures w.definitions == v.definitions
  {
    hide Sound;
  }

  lemma Remembered(v: View, n: string)
    requires n !in v.beans
    ensures n in v.failures ==> !Sound(v, n) && !Explodes(v, n)
  {
    if n in v.failures {
      BadStart(v, n);
      NeverEntered(v, n);
    }
  }

  lemma InBeans(v: View, n: string)
    requires n in v.beans
    ensures Sound(v, n) && !Spent(v, n) && !Explodes(v, n)
    ensures forall lo, hi :: Resolved(v, v, lo, hi, n, v.beans[n])
  {
    hide Built, Sound, Panicking;
    AtHandSound(v, n);
    NeverEntered(v, n);
  }

  lemma NotEnteredIsError(v: View, n: string)
    requires n !in v.beans && n !in v.failures && !Entered(v, n)
    ensures Answered(v, n, Failed)
  {
    hide Panicking;
    NeverEntered(v, n);
    BadStart(v, n);
  }

  lemma NotInFailures(definitions: map<string, Definition>, beans: map<string, Instance>, state: map<string, State>,
                      runs: map<string, nat>, n: string)
    requires StatesOk(definitions, beans, state, runs) && n !in definitions
    ensures n !in Failures(state)
  {
    hide Failures;
    FailuresIn(state, n);
  }

  lemma ScopeIsFresh(definitions: map<string, Definition>, beans: map<string, Instance>, state: map<string, State>,
                     runs: map<string, nat>, n: string)
    requires StatesOk(definitions, beans, state, runs) && n in definitions && !definitions[n].scope.Singleton?
    ensures n !in Failures(state)
  {
    hide Failures;
    FailuresIn(state, n);
  }

  lemma AddsAny(v: View)
    ensures forall kind :: Adds(v, v, kind)
  {
  }

  lemma AddsNoneAny(v: View, w: View, d: Outcome<Instance>)
    requires Adds(v, w, KindOf(d))
    ensures d.Found? || d.Nil? ==> forall kind :: Adds(v, w, kind)
  {
  }

  /** The second of two resolutions of a singleton. */
  lemma Again(v0: View, v1: View, v2: View, n: string, first: Outcome<Instance>, second: Outcome<Instance>)
    requires Answered(v0, n, first) && Answered(v1, n, second)
    requires (Sound(v0, n) <==> Sound(v1, n)) && (Sound(v1, n) <==> Sound(v2, n))
    requires Adds(v0, v1, KindOf(first)) && Adds(v1, v2, KindOf(second))
    requires !first.Found? ==> Marked(v1.failures, n, first)
    requires !second.Found? ==> Marked(v2.failures, n, second)
    ensures first.Found? <==> second.Found?
    ensures !first.Found? ==> second == if first.Panicked? then Nil else first
    ensures !first.Found? ==> n !in v2.beans && Marked(v2.failures, n, first)
    ensures Adds(v0, v2, KindOf(first))
  {
    hide Sound;
    if !first.Found? {
      StillNot(v1, n);
      StillNot(v2, n);
      NeverEntered(v1, n);
    }
  }

  lemma UsedUpByError(v: View, n: string)
    requires n !in v.beans && n in v.failures && v.failures[n].ByError?
    ensures Answered(v, n, Failed)
  {
    hide Panicking;
    Remembered(v, n);
  }

  lemma UsedUpByPanic(v: View, n: string)
    requires n !in v.beans && n in v.failures && v.failures[n].ByPanic?
    ensures Answered(v, n, Nil)
  {
    hide Panicking;
    Remembered(v, n);
  }

  lemma StillNot(v: View, n: string)
    requires !Sound(v, n)
    ensures n !in v.beans
  {
    if n in v.beans {
      AtHandSound(v, n);
    }
  }

  lemma FoundAtHand(v: View, w: View, id: nat, n: string, x: Instance)
    requires n in v.definitions && v.definitions[n].scope.Singleton?
    requires exists lo: nat :: Resolved(v, w, lo, id, n, x)
    ensures n in w.beans && w.beans[n] == x
  {
    hide Built;
  }

  lemma Shrinks(keys: set<string>, stack: seq<string>, n: string)
    requires n in keys && n !in stack
    ensures |keys - Elements(stack + [n])| < |keys - Elements(stack)|
  {
    assert keys - Elements(stack) == (keys - Elements(stack + [n])) + {n};
  }

  lemma PrototypeIsFresh(definitions: map<string, Definition>, beans: map<string, Instance>, state: map<string, State>,
                         runs: map<string, nat>, n: string)
    requires StatesOk(definitions, beans, state, runs) && n in definitions && definitions[n].scope.Prototype?
    ensures n !in Failures(state)
  {
    hide Failures;
    FailuresIn(state, n);
  }

  lemma KeptLess(stack: seq<string>, n: string, beans: map<string, Instance>, state: map<string, State>,
                 beans': map<string, Instance>, state': map<string, State>)
    requires Kept(stack + [n], beans, state, beans', state')
    ensures Kept(stack, beans, state, beans', state')
  {
  }

  lemma BuiltResolved(u: View, v: View, w: View, lo: nat, hi: nat, n: string, x: Instance)
    requires Built(v, lo, hi, n, x) && Evolves(u, v) && Evolves(v, w) && n !in u.beans && n in w.beans
      && w.beans[n] == x
    ensures Resolved(u, w, lo, hi, n, x)
  {
    hide Sound, Coherent, SameSound, AllWired;
    BuiltEvolves(v, w, lo, hi, n, x);
  }

  lemma FieldWired(v: View, w: View, lo: nat, hi: nat, f: Field, x: Instance)
    requires Resolved(v, w, lo, hi, f.tag, x) && Evolves(v, w) && f.kind.Plain? && x.typ in f.accepts && lo <= hi
    ensures Wired(w, lo, hi, f, Bean(x))
  {
    hide Built, AllWired, Sound, Coherent, SameSound;
  }

  lemma SkipField(v: View, w: View, f: Field)
    requires f.kind.Unsettable?
    ensures Supplied(v, f) && forall n: nat :: Wired(w, n, n, f, Untouched)
  {
  }

  /** With the fields before it supplied, injecting a field asks for its bean. */
  lemma LeadsToField(u: View, v: View, n: string, i: nat)
    requires Evolves(u, v) && Entered(v, n) && Buildable(v, n) && i < |Fields(v, n)|
    requires forall j | 0 <= j < i :: Supplied(u, Fields(v, n)[j])
    ensures Fields(v, n)[i].kind.Plain? ==> Leads(v, n, Fields(v, n)[i].tag)
  {
    hide Evolves, Supplied, Entered;
    forall j | 0 <= j < i ensures Supplied(v, Fields(v, n)[j]) {
      SuppliedEvolves(u, v, Fields(v, n)[j]);
    }
    assert Fields(v, n)[i].kind.Plain? ==> LeadsAt(v, Fields(v, n), i, Fields(v, n)[i].tag);
  }

  lemma RouteKept(v: View, w: View, stack: seq<string>)
    requires Route(v, stack) && Evolves(v, w) && Adds(v, w, None)
    requires forall n | n in stack && n in w.beans :: n in v.beans
    ensures Route(w, stack)
  {
    hide Route, Evolves;
    AddsNone(v, w);
    RouteEvolves(v, w, stack);
  }

  lemma EnteredKept(v: View, w: View, n: string)
    requires Entered(v, n) && w.definitions == v.definitions && Adds(v, w, None) && n !in w.beans
    ensures Entered(w, n)
  {
    AddsNone(v, w);
  }

  /** How a field is injected is how its bean is resolved, but a nil cannot be injected and a misfit is an error. */
  lemma FieldAnswered(v: View, f: Field, d: Outcome<Instance>)
    requires f.kind.Plain? && Answered(v, f.tag, d)
    requires d.Found? ==> HasType(v, f.tag) && d.value.typ == TypeOf(v, f.tag)
    ensures Supplied(v, f) <==> d.Found? && d.value.typ in f.accepts
    ensures Bursts(v, f) <==> d.Nil? || d.Panicked?
  {
    hide Sound, Spent, Explodes, TypeOf, HasType;
  }

  lemma ProviderField(v: View, f: Field)
    requires !f.kind.Plain?
    ensures Supplied(v, f) && !Bursts(v, f)
  {
  }

  /** The fields up to the first that is not supplied decide, whatever was resolved for those before it. */
  lemma FieldsAnswered<T>(u: View, v: View, fields: seq<Field>, i: nat, x: Outcome<T>)
    requires Evolves(u, v) && Adds(u, v, None) && i < |fields| && forall j | 0 <= j < i :: Supplied(u, fields[j])
    requires (x.Found? <==> Supplied(v, fields[i])) && (x.Panicked? <==> Bursts(v, fields[i]))
    ensures x.Found? <==> Supplied(u, fields[i])
    ensures !x.Found? ==> (x.Panicked? <==> FieldsBurst(u, fields))
  {
    hide Evolves, Supplied, Bursts, FieldsBurst;
    AddsNone(u, v);
    SuppliedEvolves(u, v, fields[i]);
    BurstsSame(u, v, fields[i]);
    if !x.Found? {
      FirstUnsupplied(u, fields, i);
    }
  }

  lemma KeptRefl(stack: seq<string>, beans: map<string, Instance>, state: map<string, State>)
    ensures Kept(stack, beans, state, beans, state)
  {
  }

  lemma KeptTrans(stack: seq<string>, b0: map<string, Instance>, s0: map<string, State>,
                  b1: map<string, Instance>, s1: map<string, State>, b2: map<string, Instance>, s2: map<string, State>)
    requires Kept(stack, b0, s0, b1, s1) && Kept(stack, b1, s1, b2, s2)
    ensures Kept(stack, b0, s0, b2, s2)
  {
  }

  lemma BuiltType(w: View, lo: nat, hi: nat, n: string, x: Instance)
    requires Built(w, lo, hi, n, x) && n !in w.beans
    ensures Buildable(w, n) && x.typ == TypeOf(w, n)
  {
    hide AllWired;
  }

  lemma StartConstruction(definitions: map<string, Definition>, beans: map<string, Instance>, state: map<string, State>,
                          runs: map<string, nat>, outer: seq<string>, n: string, s: State)
    requires StatesOk(definitions, beans, state, runs) && OnlyRunning(outer, state)
    requires n in state && definitions[n].scope.Singleton? && state[n].once.NotStarted?
    requires s == state[n].(once := Running)
    ensures StatesOk(definitions, beans, state[n := s], runs) && OnlyRunning(outer + [n], state[n := s])
    ensures Failures(state[n := s]) == Failures(state) && n !in Failures(state) && runs[n] == 0
  {
    hide Failures;
    FailuresIn(state, n);
    FailuresPut(state, n, s);
  }

  lemma CountRun(definitions: map<string, Definition>, beans: map<string, Instance>, state: map<string, State>,
                 runs: map<string, nat>, n: string)
    requires StatesOk(definitions, beans, state, runs) && n in definitions
    requires definitions[n].scope.Prototype? || (n in state && n in runs && state[n].once.Running? && runs[n] == 0)
    ensures n in runs && StatesOk(definitions, beans, state, runs[n := runs[n] + 1])
  {
  }

  /** A construction that has already run, of a bean that is not at hand, is used up. */
  lemma AlreadyUsedUp(definitions: map<string, Definition>, beans: map<string, Instance>, state: map<string, State>,
                      runs: map<string, nat>, outer: seq<string>, n: string)
    requires StatesOk(definitions, beans, state, runs) && OnlyRunning(outer, state)
    requires n in definitions && n !in outer && n !in beans
    ensures n in state && (state[n].once.NotStarted? ==> n !in Failures(state))
    ensures !state[n].once.NotStarted? ==>
      && n in Failures(state) && state[n].instance.None? && (Failures(state)[n].ByError? <==> state[n].failed)
  {
    hide Failures;
    FailuresIn(state, n);
  }

  lemma EndConstruction(definitions: map<string, Definition>, beans: map<string, Instance>, state: map<string, State>,
                        runs: map<string, nat>, n: string, r: Outcome<Instance>)
    requires StatesOk(definitions, beans, state, runs) && n in state && state[n].once.Running? && n !in beans && !r.Nil?
    ensures var s := state[n := EndState(state[n], r)];
      && Failures(s) ==
           (if r.Found? then Failures(state) else Failures(state)[n := if r.Failed? then ByError else ByPanic])
      && StatesOk(definitions, if r.Found? then beans[n := r.value] else beans, s, runs)
    ensures r.Panicked? ==> EndState(state[n], r) == State(Done, None, false)
  {
    hide Failures;
    FailuresIn(state, n);
    FailuresPut(state, n, EndState(state[n], r));
  }

  /** A construction stays the only one of its bean until it ends. */
  lemma StillRunning(outer: seq<string>, n: string, b0: map<string, Instance>, s0: map<string, State>, running: State,
                     b1: map<string, Instance>, s1: map<string, State>)
    requires n in s0 && running.once.Running? && n !in b0 && Kept(outer + [n], b0, s0[n := running], b1, s1)
    ensures n in s1 && s1[n] == running && n !in b1
  {
    assert s0[n := running][n].once.Running? && n in outer + [n];
  }

  lemma KeptConstruction(outer: seq<string>, n: string, b0: map<string, Instance>, s0: map<string, State>,
                         running: State, b1: map<string, Instance>, s1: map<string, State>, b2: map<string, Instance>,
                         done: State)
    requires n in s0 && s0[n].once.NotStarted? && n !in outer && done.once.Done? && running.once.Running?
    requires Kept(outer + [n], b0, s0[n := running], b1, s1)
    requires b2 == b1 || (n in b2 && b2 == b1[n := b2[n]])
    ensures n in s1 && Kept(outer, b0, s0, b2, s1[n := done])
  {
    var t0, t1 := s0[n := running], s1;
    assert t0[n].once.Running?;
    forall x | x in s0 && s0[x].once.Running? ensures s1[n := done][x] == s0[x] {
      assert t0[x] == s0[x];
    }
    forall x | x in s0 && s1[n := done][x].once.Running? ensures s0[x].once.Running? {
      assert x != n && t0[x] == s0[x];
    }
  }

  lemma OnlyRunningMore(stack: seq<string>, n: string, state: map<string, State>)
    requires OnlyRunning(stack, state)
    ensures OnlyRunning(stack + [n], state)
  {
  }

  lemma PrototypeResolved(stack: seq<string>, v: View, w: View, lo: nat, hi: nat, n: string,
                          s: map<string, State>, s': map<string, State>, x: Instance)
    requires Built(w, lo, hi, n, x) && w.definitions == v.definitions && n !in v.beans
    requires Kept(stack + [n], v.beans, s, w.beans, s') && n in v.definitions && v.definitions[n].scope.Prototype?
    ensures Resolved(v, w, lo, hi, n, x)
  {
    hide AllWired;
    assert n in stack + [n];
  }

  lemma InstanceReady(outer: seq<string>, v0: View, v1: View, lo: nat, hi: nat, n: string, s0: map<string, State>,
                      running: State, s1: map<string, State>, r: Outcome<Instance>)
    requires n in s0 && running.once.Running? && n !in v0.beans
      && Kept(outer + [n], v0.beans, s0[n := running], v1.beans, s1)
    requires Evolves(v0, v1) && (r.Found? <==> Sound(v0, n)) && (r.Found? ==> Built(v1, lo, hi, n, r.value))
    ensures n in s1 && s1[n] == running && n !in v1.beans
    ensures r.Found? <==> Sound(v1, n)
    ensures r.Found? ==> Buildable(v1, n) && r.value.typ == TypeOf(v1, n)
  {
    hide *;
    EvolvesSound(v0, v1, n);
    StillRunning(outer, n, v0.beans, s0, running, v1.beans, s1);
    if r.Found? {
      BuiltType(v1, lo, hi, n, r.value);
    }
  }

  lemma InstanceRemembered(outer: seq<string>, v0: View, v1: View, v2: View, lo: nat, hi: nat, n: string,
                           s0: map<string, State>, running: State, s1: map<string, State>, s2: map<string, State>,
                           r: Outcome<Instance>)
    requires n in s0 && s0[n].once.NotStarted? && running.once.Running? && n !in outer && n !in v0.beans
    requires Kept(outer + [n], v0.beans, s0[n := running], v1.beans, s1)
    requires Evolves(v0, v1) && Evolves(v1, v2) && (r.Found? ==> Built(v1, lo, hi, n, r.value)) && !r.Nil?
    requires v2.beans == if r.Found? then v1.beans[n := r.value] else v1.beans
    requires s2 == s1[n := EndState(running, r)]
    ensures Kept(outer, v0.beans, s0, v2.beans, s2) && Evolves(v0, v2)
    ensures r.Found? ==> n in v2.beans && Resolved(v0, v2, lo, hi, n, r.value)
  {
    hide *;
    EvolvesTrans(v0, v1, v2);
    EndIsDone(running, r);
    KeptConstruction(outer, n, v0.beans, s0, running, v1.beans, s1, v2.beans, EndState(running, r));
    if r.Found? {
      BuiltResolved(v0, v1, v2, lo, hi, n, r.value);
    }
  }

  lemma EndIsDone(s: State, r: Outcome<Instance>)
    ensures EndState(s, r).once.Done?
  {
  }

  /** The construction itself adds the kind of failure that building the instance came to. */
  lemma ConstructionAdds(v0: View, v1: View, v2: View, n: string, r: Outcome<Instance>)
    requires Adds(v0, v1, KindOf(r)) && !r.Nil?
    requires v2.failures ==
      if r.Found? then v1.failures else v1.failures[n := if r.Failed? then ByError else ByPanic]
    requires n !in v0.failures
    ensures Adds(v0, v2, KindOf(r)) && (!r.Found? ==> Marked(v2.failures, n, r))
  {
  }

  lemma DefineOk(definitions: map<string, Definition>, beans: map<string, Instance>, state: map<string, State>,
                 runs: map<string, nat>, n: string, d: Definition)
    requires StatesOk(definitions, beans, state, runs)
    ensures StatesOk(definitions[n := d], beans, state[n := FRESH], runs[n := 0])
    ensures Failures(state[n := FRESH]) == Failures(state) - {n}
    ensures OnlyRunning([], state) ==> OnlyRunning([], state[n := FRESH])
  {
    hide Failures;
    FailuresPut(state, n, FRESH);
  }

  lemma GiveOk(definitions: map<string, Definition>, beans: map<string, Instance>, state: map<string, State>,
               runs: map<string, nat>, n: string, x: Instance)
    requires StatesOk(definitions, beans, state, runs)
    ensures StatesOk(definitions, beans[n := x], state, runs)
  {
  }

  /** A definition without a factory, for an instance that was handed over. */
  lemma DefineGivenOk(definitions: map<string, Definition>, beans: map<string, Instance>, state: map<string, State>,
                      runs: map<string, nat>, n: string, x: Instance)
    requires StatesOk(definitions, beans, state, runs) && n !in definitions && n in beans
    ensures var s := state[n := State(Done, Some(x), false)];
      && StatesOk(definitions[n := Definition(Singleton, NoFactory)], beans, s, runs[n := 0])
      && Failures(s) == Failures(state) && (OnlyRunning([], state) ==> OnlyRunning([], s))
  {
    hide Failures;
    FailuresIn(state, n);
    FailuresPut(state, n, State(Done, Some(x), false));
  }

  lemma SameKeys(definitions: map<string, Definition>, beans: map<string, Instance>, state: map<string, State>,
                 runs: map<string, nat>)
    requires StatesOk(definitions, beans, state, runs)
    ensures state.Keys == definitions.Keys == runs.Keys
  {
  }

  lemma ReplaceOk(definitions: map<string, Definition>, beans: map<string, Instance>, state: map<string, State>,
                  runs: map<string, nat>, n: string, x: Instance)
    requires StatesOk(definitions, beans, state, runs) && n in state && n in beans
    ensures var s := state[n := state[n].(instance := Some(x))];
      && StatesOk(definitions, beans, s, runs)
      && Failures(s) == (if state[n].failed then Failures(state) else Failures(state) - {n})
      && (OnlyRunning([], state) ==> OnlyRunning([], s))
  {
    hide Failures;
    FailuresIn(state, n);
    FailuresPut(state, n, state[n].(instance := Some(x)));
  }

  lemma OnlyRunningKept(b: map<string, Instance>, s: map<string, State>, b': map<string, Instance>,
                        s': map<string, State>)
    requires OnlyRunning([], s) && Kept([], b, s, b', s')
    ensures OnlyRunning([], s')
  {
  }

  lemma ResolvedAtHand(v: View, w: View, lo: nat, hi: nat, n: string, x: Instance)
    requires Resolved(v, w, lo, hi, n, x) && n in v.beans
    ensures x == v.beans[n]
  {
    hide Built;
  }

  class ApplicationContainer {
    var definitions: map<string, Definition>
    var state: map<string, State>
    var beans: map<string, Instance>
    var nextId: nat
    ghost var runs: map<string, nat>     // how often each factory was called since the last Clear

    ghost function Now(): View
      reads this
    {
      View(definitions, beans, Failures(state))
    }

    ghost predicate Valid()
      reads this
    {
      StatesOk(definitions, beans, state, runs)
    }

    constructor ()
      ensures Valid() && OnlyRunning([], state) && Now() == View(map[], map[], map[])
    {
      definitions, state, beans, nextId, runs := map[], map[], map[], 0, map[];
      new;
      assert Failures(state) == map[];
    }

    method CheckCircularDependency(stack: seq<string>, name: string) returns (st: Status)
      ensures st.Failure? <==> name in stack
    {
      for i := 0 to |stack|
        invariant name !in stack[..i]
      {
        if stack[i] == name {
          return Failure;
        }
      }
      assert stack[..|stack|] == stack;
      st := Success;
    }

    /**
     `GetBeanScoped`, reached along `stack`. It finds the bean exactly when everything reachable from it is
     registered, buildable, acyclic and not used up; it gives nil without an error exactly when the construction of
     the bean itself was used up by a panic, and panics exactly when `Explodes` says so. What it remembers changes
     nothing about what can be resolved. Every singleton whose construction it entered in vain is used up, all in
     the way the call ended.
     */
    method GetBeanScoped(stack: seq<string>, name: string) returns (r: Outcome<Instance>)
      requires Valid() && OnlyRunning(stack, state) && Route(Now(), stack + [name])
      modifies this`state, this`beans, this`nextId, this`runs
      ensures Valid() && Kept(stack, old(beans), old(state), beans, state) && Evolves(old(Now()), Now())
      ensures Answered(old(Now()), name, r) && Adds(old(Now()), Now(), KindOf(r))
      ensures r.Found? ==> Resolved(old(Now()), Now(), old(nextId), nextId, name, r.value)
      ensures r.Found? && name !in beans ==> r.value.id >= old(nextId)
      ensures nextId >= old(nextId) && (r.Found? && name !in beans ==> nextId > r.value.id)
      ensures !r.Found? && name in definitions && definitions[name].scope.Singleton? && name !in stack ==>
        Marked(Failures(state), name, r)
      decreases |definitions.Keys - Elements(stack)|, 0
    {
      hide Sound, Spent, Explodes, Coherent, SameSound, LocalDefect, Evolves, Route, StatesOk, Defect, Needs, Leads,
        Wired, Misfit, Kept, OnlyRunning, Resolved, Elements, Failures, Built, Adds, Marked;
      ghost var v0, b0, s0, id0 := Now(), beans, state, nextId;
      EvolvesRefl(v0);
      AddsNone(v0, v0);
      KeptRefl(stack, beans, state);
      if name in beans {
        InBeans(v0, name);
        return Found(beans[name]);
      }
      if name !in definitions {
        NotInFailures(definitions, beans, state, runs, name);
        NotEnteredIsError(v0, name);
        AddsAny(v0);
        return Failed;
      }
      var st := CheckCircularDependency(stack, name);
      if st.Failure? {
        OnStackIsError(v0, stack, name);
        AddsAny(v0);
        return Failed;
      }
      var newStack := stack + [name];
      Shrinks(definitions.Keys, stack, name);
      match definitions[name].scope {
        case Singleton =>
          assert newStack[..|stack|] == stack;
          r := ResolveSingletonBean(newStack, name);
        case Prototype =>
          PrototypeIsFresh(definitions, beans, state, runs, name);
          OnlyRunningMore(stack, name, state);
          r := Instantiate(newStack, name);
          KeptLess(stack, name, b0, s0, beans, state);
          EvolvesSound(v0, Now(), name);
          if r.Found? {
            PrototypeResolved(stack, v0, Now(), id0, nextId, name, s0, state, r.value);
          }
        case _ =>
          ScopeIsFresh(definitions, beans, state, runs, name);
          NotEnteredIsError(v0, name);
          AddsAny(v0);
          r := Failed;     // no request registry in the context, or an unsupported scope
      }
    }

    /**
     `resolveSingletonBean`: the construction runs at most once. Its instance or error is remembered; after a panic
     there is neither, and the bean is nil from then on.
     */
    method ResolveSingletonBean(stack: seq<string>, name: string) returns (r: Outcome<Instance>)
      requires Valid() && stack != [] && stack[|stack| - 1] == name && name !in stack[..|stack| - 1]
      requires OnlyRunning(stack[..|stack| - 1], state) && Route(Now(), stack)
      requires name in definitions && definitions[name].scope.Singleton? && name !in beans
      modifies this`state, this`beans, this`nextId, this`runs
      ensures Valid() && Kept(stack[..|stack| - 1], old(beans), old(state), beans, state) && Evolves(old(Now()), Now())
      ensures Answered(old(Now()), name, r) && Adds(old(Now()), Now(), KindOf(r))
      ensures r.Found? ==> name in beans && Resolved(old(Now()), Now(), old(nextId), nextId, name, r.value)
      ensures !r.Found? ==> Marked(Failures(state), name, r)
      ensures old(state)[name].once.NotStarted? && r.Panicked? ==> state[name] == State(Done, None, false)
      ensures nextId >= old(nextId)
      decreases |definitions.Keys - Elements(stack)|, 5
    {
      hide Sound, Explodes, Evolves, Route, StatesOk, OnlyRunning, Kept, Failures, Resolved, Elements, Adds, Buildable;
      ghost var v0, outer := Now(), stack[..|stack| - 1];
      AlreadyUsedUp(definitions, beans, state, runs, outer, name);
      if state[name].once.NotStarted? {
        var panicked := Construct(stack, name);
        if panicked {
          return Panicked;
        }
      } else {
        EvolvesRefl(v0);
        AddsNone(v0, v0);
        AddsAny(v0);
        KeptRefl(outer, beans, state);
        Remembered(v0, name);
      }
      r := if state[name].failed then Failed else if state[name].instance.Some? then Found(state[name].instance.value)
        else Nil;
    }

    /** The `once.Do` of a singleton. A panic of the factory goes through it. */
    method Construct(stack: seq<string>, name: string) returns (panicked: bool)
      requires Valid() && stack != [] && stack[|stack| - 1] == name && name !in stack[..|stack| - 1]
      requires OnlyRunning(stack[..|stack| - 1], state) && Route(Now(), stack)
      requires name in definitions && definitions[name].scope.Singleton? && name !in beans
      requires name in state && state[name].once.NotStarted? && name !in Failures(state)
      modifies this`state, this`beans, this`nextId, this`runs
      ensures Valid() && Kept(stack[..|stack| - 1], old(beans), old(state), beans, state) && Evolves(old(Now()), Now())
      ensures name in state && state[name].once.Done?
      ensures panicked <==> Explodes(old(Now()), name)
      ensures panicked ==> state[name] == State(Done, None, false)
      ensures !panicked ==> (state[name].failed <==> !Sound(old(Now()), name))
      ensures !panicked && !state[name].failed ==>
        && state[name].instance.Some? && name in beans
        && Resolved(old(Now()), Now(), old(nextId), nextId, name, state[name].instance.value)
      ensures
        var r: Outcome<Instance> := if panicked then Panicked else if state[name].failed then Failed else Nil;
        Adds(old(Now()), Now(), KindOf(r)) && (!r.Nil? ==> Marked(Failures(state), name, r))
      ensures panicked ==> !Sound(old(Now()), name)
      ensures !Spent(old(Now()), name)
      ensures nextId >= old(nextId)
      decreases |definitions.Keys - Elements(stack)|, 4
    {
      hide Sound, Explodes, Evolves, Route, StatesOk, OnlyRunning, Kept, Failures, Resolved, Elements, Built, Buildable,
        Needs, Valid, Adds, Marked;
      ghost var v0, b0, s0, id0, outer := Now(), beans, state, nextId, stack[..|stack| - 1];
      assert stack == outer + [name];
      Begin(outer, name);
      ghost var running := state[name];
      var r := Instantiate(stack, name);
      ghost var v1, b1, s1 := Now(), beans, state;
      InstanceReady(outer, v0, v1, id0, nextId, name, s0, running, s1, r);
      Remember(name, r);
      InstanceRemembered(outer, v0, v1, Now(), id0, nextId, name, s0, running, s1, state, r);
      ConstructionAdds(v0, v1, Now(), name, r);
      panicked := r.Panicked?;
    }

    method Begin(ghost outer: seq<string>, name: string)
      requires Valid() && OnlyRunning(outer, state) && name in definitions && definitions[name].scope.Singleton?
      requires name in state && state[name].once.NotStarted?
      modifies this`state
      ensures Valid() && OnlyRunning(outer + [name], state) && Now() == old(Now())
      ensures name in state && state[name].once.Running? && state == old(state)[name := state[name]]
      ensures name !in Failures(state) && name in runs && runs[name] == 0
    {
      StartConstruction(definitions, beans, state, runs, outer, name, state[name].(once := Running));
      state := state[name := state[name].(once := Running)];
    }

    /** What is left of a construction: an instance goes into the definition and the beans, an error into the former. */
    method Remember(name: string, r: Outcome<Instance>)
      requires Valid() && name in definitions && name in state && state[name].once.Running? && !r.Nil?
      requires name !in beans && definitions[name].scope.Singleton?
      requires r.Found? <==> Sound(Now(), name)
      requires r.Found? ==> Buildable(Now(), name) && r.value.typ == TypeOf(Now(), name)
      modifies this`state, this`beans
      ensures Valid() && Evolves(old(Now()), Now())
      ensures beans == if r.Found? then old(beans)[name := r.value] else old(beans)
      ensures state == old(state)[name := EndState(old(state)[name], r)]
      ensures r.Panicked? ==> state[name] == State(Done, None, false)
      ensures Failures(state) ==
        if r.Found? then old(Failures(state)) else old(Failures(state))[name := if r.Failed? then ByError else ByPanic]
    {
      hide Sound, Evolves, StatesOk, Failures, Buildable, TypeOf;
      ghost var v := Now();
      EndConstruction(definitions, beans, state, runs, name, r);
      state := state[name := EndState(state[name], r)];
      if r.Found? {
        beans := beans[name := r.value];
        EvolvesCached(v, name, r.value);
      } else {
        EvolvesBlamed(v, name, if r.Failed? then ByError else ByPanic);
      }
    }

    /** `instantiate`. */
    method Instantiate(stack: seq<string>, name: string) returns (r: Outcome<Instance>)
      requires Valid() && stack != [] && stack[|stack| - 1] == name && OnlyRunning(stack, state) && Route(Now(), stack)
      requires Entered(Now(), name)
      requires
        || definitions[name].scope.Prototype?
        || (definitions[name].scope.Singleton? && name in state && name in runs && state[name].once.Running?
          && runs[name] == 0)
      modifies this`state, this`beans, this`nextId, this`runs
      ensures Valid() && Kept(stack, old(beans), old(state), beans, state) && Evolves(old(Now()), Now())
      ensures Answered(old(Now()), name, r) && !r.Nil? && Adds(old(Now()), Now(), KindOf(r))
      ensures r.Found? ==> Built(Now(), old(nextId), nextId, name, r.value)
      ensures r.Found? ==> r.value.id == old(nextId) && nextId > old(nextId)
      ensures nextId >= old(nextId)
      decreases |definitions.Keys - Elements(stack)|, 3
    {
      hide Sound, Explodes, Coherent, SameSound, Evolves, Route, Kept, OnlyRunning, Failures, AllWired, Needs, Misfit,
        Elements, Supplied, StatesOk, Adds, FieldsBurst;
      ghost var v0 := Now();
      EvolvesRefl(v0);
      AddsNone(v0, v0);
      AddsAny(v0);
      KeptRefl(stack, beans, state);
      if !definitions[name].factory.Builds? {
        NotBuildable(v0, name);
        ExplodesUnbuilt(v0, name);
        var f := definitions[name].factory;
        if f.WrongResults? || f.Failing? || f.Panics? {
          CountRun(definitions, beans, state, runs, name);
          runs := runs[name := runs[name] + 1];
        }
        return if f.Panics? then Panicked else Failed;
      }
      CountRun(definitions, beans, state, runs, name);
      runs := runs[name := runs[name] + 1];
      var id := nextId;
      nextId := nextId + 1;
      var fields := definitions[name].factory.fields;
      SuppliedAll(v0, name);
      ExplodesBuilt(v0, name);
      var xs := Autowire(stack, name, fields);
      r := if xs.Found? then Found(Instance(id, definitions[name].factory.typ, xs.value))
        else if xs.Panicked? then Panicked else Failed;
    }

    /** `autowire`: the tagged fields are injected in order, up to the first that cannot be. */
    method Autowire(stack: seq<string>, name: string, fields: seq<Field>) returns (r: Outcome<seq<Injected>>)
      requires Valid() && stack != [] && stack[|stack| - 1] == name && OnlyRunning(stack, state) && Route(Now(), stack)
      requires Entered(Now(), name) && Buildable(Now(), name) && fields == Fields(Now(), name)
      modifies this`state, this`beans, this`nextId, this`runs
      ensures Valid() && Kept(stack, old(beans), old(state), beans, state) && Evolves(old(Now()), Now())
      ensures r.Found? <==> forall i | 0 <= i < |fields| :: Supplied(old(Now()), fields[i])
      ensures r.Panicked? <==> FieldsBurst(old(Now()), fields)
      ensures !r.Nil? && Adds(old(Now()), Now(), KindOf(r))
      ensures r.Found? ==> |r.value| == |fields| && AllWired(Now(), old(nextId), nextId, fields, r.value)
      ensures nextId >= old(nextId)
      decreases |definitions.Keys - Elements(stack)|, 2
    {
      hide Sound, Coherent, SameSound, LocalDefect, Evolves, Route, StatesOk, Supplied, Wired, Misfit, HasType, Adds,
        Bursts, FieldsBurst, Leads, Failures;
      ghost var v0, b0, s0 := Now(), beans, state;
      EvolvesRefl(v0);
      AddsNone(v0, v0);
      var xs: seq<Injected> := [];
      for i := 0 to |fields|
        invariant Valid() && OnlyRunning(stack, state) && Route(Now(), stack) && Entered(Now(), name)
          && definitions == v0.definitions
        invariant Kept(stack, b0, s0, beans, state) && Evolves(v0, Now()) && Adds(v0, Now(), None)
        invariant nextId >= old(nextId) && |xs| == i && AllWired(Now(), old(nextId), nextId, fields, xs)
        invariant forall j | 0 <= j < i :: Supplied(v0, fields[j])
      {
        if fields[i].kind.Unsettable? {
          SkipField(v0, Now(), fields[i]);
          AllWiredMore(Now(), old(nextId), nextId, nextId, fields, xs, Untouched);
          xs := xs + [Untouched];
        } else {
          ghost var v1, b1, s1, id1 := Now(), beans, state, nextId;
          LeadsToField(v0, v1, name, i);
          var x := InjectDependencyField(stack, name, fields[i]);
          FieldsAnswered(v0, v1, fields, i, x);
          AddsNone(v0, v1);
          AddsAfter(v0, v1, Now(), KindOf(x));
          EvolvesTrans(v0, v1, Now());
          KeptTrans(stack, b0, s0, b1, s1, beans, state);
          if !x.Found? {
            return if x.Panicked? then Panicked else Failed;
          }
          AllWiredEvolves(v1, Now(), old(nextId), id1, fields, xs);
          AllWiredMore(Now(), old(nextId), id1, nextId, fields, xs, x.value);
          xs := xs + [x.value];
          RouteKept(v1, Now(), stack);
          EnteredKept(v1, Now(), name);
        }
      }
      AllSupplied(v0, fields);
      r := Found(xs);
    }

    /** `injectDependencyField`. Injecting a nil panics, for it has no type to ask for. */
    method InjectDependencyField(stack: seq<string>, name: string, f: Field) returns (r: Outcome<Injected>)
      requires Valid() && stack != [] && stack[|stack| - 1] == name && OnlyRunning(stack, state) && Route(Now(), stack)
      requires !f.kind.Unsettable? && (f.kind.Plain? ==> Leads(Now(), name, f.tag))
      modifies this`state, this`beans, this`nextId, this`runs
      ensures Valid() && Kept(stack, old(beans), old(state), beans, state) && Evolves(old(Now()), Now())
      ensures r.Found? <==> Supplied(old(Now()), f)
      ensures r.Panicked? <==> Bursts(old(Now()), f)
      ensures !r.Nil? && Adds(old(Now()), Now(), KindOf(r))
      ensures r.Found? ==> Wired(Now(), old(nextId), nextId, f, r.value)
      ensures nextId >= old(nextId)
      decreases |definitions.Keys - Elements(stack)|, 1
    {
      hide Sound, Spent, Explodes, Bursts, Supplied, Coherent, SameSound, LocalDefect, Evolves, StatesOk, OnlyRunning,
        Kept, AllWired, Built, Adds, Failures, Route, Leads;
      ghost var v0, id0 := Now(), nextId;
      EvolvesRefl(v0);
      AddsNone(v0, v0);
      KeptRefl(stack, beans, state);
      if f.kind.Provider? {
        ProviderField(v0, f);
        return Found(Lazy(f.tag));
      }
      RouteMore(v0, stack, f.tag);
      var d := GetBeanScoped(stack, f.tag);
      FieldAnswered(v0, f, d);
      if !d.Found? {
        AddsNoneAny(v0, Now(), d);
        return if d.Failed? then Failed else Panicked;
      }
      if d.value.typ !in f.accepts {
        AddsNoneAny(v0, Now(), d);
        return Failed;
      }
      FieldWired(v0, Now(), id0, nextId, f, d.value);
      r := Found(Bean(d.value));
    }

    /**
     `GetBean`, where an error comes back as nil. Whatever was resolved before, a bean can be had exactly when
     everything reachable from it is registered, buildable and acyclic, and no walk from it meets a construction that
     is used up. If every remembered failure is still deserved, the second half goes without saying, and this call
     remembers no other kind.
     */
    method GetBean(name: string) returns (r: Outcome<Instance>)
      requires Valid() && OnlyRunning([], state)
      modifies this`state, this`beans, this`nextId, this`runs
      ensures Valid() && OnlyRunning([], state) && Evolves(old(Now()), Now())
      ensures r.Found? <==> Sound(old(Now()), name)
      ensures r.Found? <==> Sound(Forget(old(Now())), name) && !MeetsFailure(old(Now()), name)
      ensures r.Panicked? <==> Explodes(old(Now()), name)
      ensures !r.Failed?
      ensures old(Coherent(Now())) ==> Coherent(Now()) && (r.Found? <==> Sound(Forget(old(Now())), name))
      ensures r.Found? ==> Resolved(old(Now()), Now(), old(nextId), nextId, name, r.value)
      ensures r.Found? && name !in beans ==> r.value.id >= old(nextId)
      ensures nextId >= old(nextId) && (r.Found? && name !in beans ==> nextId > r.value.id)
      ensures !r.Found? && name in definitions && definitions[name].scope.Singleton? ==> name in Failures(state)
    {
      hide Sound, LocalDefect, Defect, Needs, Wired, Misfit, Resolved, Elements, Failures, StatesOk, Coherent, TypeOf,
        HasType, Forget, MeetsFailure, Built, Spent, Explodes, Kept, OnlyRunning, Leads;
      assert [] + [name] == [name];
      ghost var v0, b0, s0 := Now(), beans, state;
      r := GetBeanScoped([], name);
      OnlyRunningKept(b0, s0, beans, state);
      if r.Failed? {
        r := Nil;
      }
      SoundExactly(v0, name);
      if Coherent(v0) {
        CoherentExactly(v0);
      }
    }

    /**
     Two calls in a row for a singleton. The second says what the first did, with the same instance, but for a panic:
     after it the call succeeds with nil.
     */
    method GetTwice(name: string) returns (first: Outcome<Instance>, second: Outcome<Instance>)
      requires Valid() && OnlyRunning([], state) && name in definitions && definitions[name].scope.Singleton?
      modifies this`state, this`beans, this`nextId, this`runs
      ensures Valid() && OnlyRunning([], state) && Evolves(old(Now()), Now()) && Answered(old(Now()), name, first)
      ensures second == if first.Panicked? then Nil else first
      ensures !first.Found? ==> name !in beans && Marked(Failures(state), name, first)
      ensures Adds(old(Now()), Now(), KindOf(first))
    {
      hide Sound, Explodes, Spent, Kept, OnlyRunning, StatesOk, Failures, Resolved, Evolves, Leads, Built;
      assert [] + [name] == [name];
      ghost var v0, b0, s0 := Now(), beans, state;
      first := GetBeanScoped([], name);
      OnlyRunningKept(b0, s0, beans, state);
      ghost var v1, id1, b1, s1 := Now(), nextId, beans, state;
      EvolvesKeeps(v0, v1, name);
      second := GetBeanScoped([], name);
      OnlyRunningKept(b1, s1, beans, state);
      EvolvesKeeps(v1, Now(), name);
      EvolvesTrans(v0, v1, Now());
      Again(v0, v1, Now(), name, first, second);
      if first.Found? {
        FoundAtHand(v0, v1, id1, name, first.value);
        ResolvedAtHand(v1, Now(), id1, nextId, name, second.value);
      }
    }

    /** `RegisterBeanDefinition`: a new definition, with nothing remembered for it. */
    method RegisterBeanDefinition(name: string, scope: Scope, factory: Factory)
      requires Valid()
      modifies this`definitions, this`state, this`runs
      ensures Valid() && definitions == old(definitions)[name := Definition(scope, factory)]
      ensures state == old(state)[name := FRESH]
      ensures Now().failures == old(Now()).failures - {name}
      ensures old(OnlyRunning([], state)) ==> OnlyRunning([], state)
      ensures old(Now()).failures == map[] ==> Coherent(Now())
    {
      hide Sound, Forget, StatesOk, Failures, OnlyRunning;
      DefineOk(definitions, beans, state, runs, name, Definition(scope, factory));
      definitions := definitions[name := Definition(scope, factory)];
      state := state[name := FRESH];
      runs := runs[name := 0];
    }

    /** `RegisterBean`: an instance, with a definition that has no factory if there is none. */
    method RegisterBean(name: string, bean: Instance)
      requires Valid()
      modifies this`definitions, this`state, this`beans, this`runs
      ensures Valid() && beans == old(beans)[name := bean] && Now().failures == old(Now()).failures
      ensures definitions ==
        if name in old(definitions) then old(definitions)
          else old(definitions)[name := Definition(Singleton, NoFactory)]
      ensures state == if name in old(definitions) then old(state)
        else old(state)[name := State(Done, Some(bean), false)]
      ensures old(OnlyRunning([], state)) ==> OnlyRunning([], state)
      ensures old(Now()).failures == map[] ==> Coherent(Now())
    {
      hide Sound, Forget, StatesOk, Failures, OnlyRunning;
      GiveOk(definitions, beans, state, runs, name, bean);
      beans := beans[name := bean];
      if name !in definitions {
        DefineGivenOk(definitions, beans, state, runs, name, bean);
        definitions := definitions[name := Definition(Singleton, NoFactory)];
        state := state[name := State(Done, Some(bean), false)];
        runs := runs[name := 0];
      }
    }

    /** `ReplaceBean`. */
    method ReplaceBean(name: string, bean: Instance)
      requires Valid()
      modifies this`definitions, this`state, this`beans, this`runs
      ensures Valid() && beans == old(beans)[name := bean]
      ensures Now().failures ==
        if name in old(state) && !old(state)[name].failed then old(Now()).failures - {name} else old(Now()).failures
      ensures definitions ==
        if name in old(definitions) then old(definitions)
          else old(definitions)[name := Definition(Singleton, NoFactory)]
      ensures name in old(definitions) ==>
        name in old(state) && state == old(state)[name := old(state)[name].(instance := Some(bean))]
      ensures name !in old(definitions) ==> state == old(state)[name := State(Done, Some(bean), false)]
      ensures old(OnlyRunning([], state)) ==> OnlyRunning([], state)
      ensures old(Now()).failures == map[] ==> Coherent(Now())
    {
      hide Sound, Forget, StatesOk, Failures, OnlyRunning;
      SameKeys(definitions, beans, state, runs);
      GiveOk(definitions, beans, state, runs, name, bean);
      beans := beans[name := bean];
      if name !in definitions {
        DefineGivenOk(definitions, beans, state, runs, name, bean);
        definitions := definitions[name := Definition(Singleton, NoFactory)];
        state := state[name := State(Done, Some(bean), false)];
        runs := runs[name := 0];
      } else {
        ReplaceOk(definitions, beans, state, runs, name, bean);
        state := state[name := state[name].(instance := Some(bean))];
      }
    }

    /** `Clear`: no instances, and no remembered failures. */
    method Clear()
      requires Valid()
      modifies this`state, this`beans, this`runs
      ensures Valid() && OnlyRunning([], state)
      ensures Now() == View(definitions, map[], map[]) && Coherent(Now())
      ensures forall n | n in runs :: runs[n] == 0
    {
      hide Sound;
      beans := map[];
      state := map n | n in state :: FRESH;
      runs := map n | n in runs :: 0;
      assert Failures(state) == map[];
    }

    /** RegisterBean on a fresh name, GetBean, Clear, GetBean: a bean that was only handed over is lost. */
    method GivenBeanIsLost(name: string, bean: Instance) returns (before: Outcome<Instance>, after: Outcome<Instance>)
      requires Valid() && OnlyRunning([], state) && name !in definitions
      modifies this
      ensures before == Found(bean) && after.Nil?
    {
      hide Sound, Resolved, StatesOk, Failures, Coherent, SameSound, Evolves, Built, Explodes, Spent;
      RegisterBean(name, bean);
      InBeans(Now(), name);
      ghost var v, id := Now(), nextId;
      before := GetBean(name);
      ResolvedAtHand(v, Now(), id, nextId, name, before.value);
      Clear();
      WithoutFactory(Now(), name);
      after := GetBean(name);
    }
  }

  const NEEDS_B := Definition(Singleton, Builds(0, [Field("b", Plain, {1})]))
  const PLAIN_B := Definition(Singleton, Builds(1, []))
  const PANICKING_B := Definition(Singleton, Panics)
  const NEEDS_A := Definition(Singleton, Builds(2, [Field("a", Plain, {0})]))

  /** The dependency of "a" is not registered. */
  lemma Missing(v: View)
    requires v == View(map["a" := NEEDS_B], map[], map[])
    ensures Answered(v, "a", Failed)
  {
    hide Sound, Supplied, Panicking;
    BadStart(v, "b");
    assert Fields(v, "a")[0].tag == "b" && Fields(v, "a")[0].kind.Plain?;
    NeedsSound(v, "a", "b");
    ExplodesBuilt(v, "a");
    NeverEntered(v, "b");
  }

  /** The factory of the dependency panics. */
  lemma DependencyPanics(v: View)
    requires v == View(map["a" := NEEDS_B, "b" := PANICKING_B], map[], map[])
    ensures Answered(v, "a", Panicked)
  {
    hide Sound, Supplied;
    var fields := Fields(v, "a");
    assert LeadsAt(v, fields, 0, "b") && Leads(v, "a", "b");
    assert Panicking(v, "b", 0) && Panicking(v, "a", 1);
    PanickingUnsound(v, "a", 1);
  }

  /** The dependency is nil. */
  lemma DependencyIsNil(v: View)
    requires Entered(v, "c") && v.definitions["c"] == NEEDS_A && Spent(v, "a")
    ensures Answered(v, "c", Panicked)
  {
    hide Sound, Supplied;
    var fields := Fields(v, "c");
    assert LeadsAt(v, fields, 0, "a") && Leads(v, "c", "a");
    assert Panicking(v, "c", 1);
    PanickingUnsound(v, "c", 1);
  }

  lemma Complete(v: View)
    requires "a" in v.definitions && "b" in v.definitions && v == View(v.definitions, map[], map[])
    requires v.definitions["a"] == NEEDS_B && v.definitions["b"] == PLAIN_B
    ensures Answered(v, "a", Found(Instance(0, 0, []))) && Sound(v, "a")
  {
    hide Sound, Panicking;
    Unfold(v, "b");
    Unfold(v, "a");
    SoundIsFound(v, "a", Instance(0, 0, []));
  }

  /** What can be had neither is nil nor panics. */
  lemma SoundIsFound(v: View, n: string, x: Instance)
    requires Sound(v, n)
    ensures Answered(v, n, Found(x))
  {
    hide Sound, Panicking;
    if Spent(v, n) {
      SpentUnsound(v, n);
    }
    if Explodes(v, n) {
      var k: nat :| Panicking(v, n, k);
      PanickingUnsound(v, n, k);
    }
  }

  lemma NewNameNotAtHand(v: View, w: View, n: string)
    requires Evolves(v, w) && n !in v.definitions && n !in v.beans
    ensures n !in w.beans
  {
    hide Sound;
  }

  lemma MarkedSpent(v: View, n: string)
    requires n !in v.beans && Marked(v.failures, n, Panicked)
    ensures Spent(v, n)
  {
  }

  lemma SpentStays(v: View, w: View, n: string, kind: Option<UsedUp>)
    requires Spent(v, n) && Evolves(v, w) && Adds(v, w, kind)
    ensures Spent(w, n)
  {
    hide Evolves, Sound, Explodes;
    SpentUnsound(v, n);
    UnsoundStays(v, w, n);
  }

  lemma OtherDefined(v: View, w: View, n: string, d: string)
    requires Spent(v, n) && w.beans == v.beans && w.failures == v.failures - {d} && n != d
    ensures Spent(w, n) && n !in w.beans && n in w.failures && w.failures[n].ByPanic?
    ensures d !in w.failures
  {
  }

  /**
   A remembered error outlives its cause: a bean whose dependency was missing keeps failing after the dependency
   is registered, until the container is cleared.
   */
  method StaleError() returns (missing: Outcome<Instance>, registered: Outcome<Instance>, cleared: Outcome<Instance>)
    ensures missing.Failed? && registered.Failed? && cleared.Found?
  {
    hide Sound, Explodes, Spent, Resolved, StatesOk, Failures, Coherent, SameSound, Evolves, Leads, Kept, OnlyRunning,
      EndState, Adds;
    var c := new ApplicationContainer();
    c.RegisterBeanDefinition("a", Singleton, NEEDS_B.factory);
    Missing(c.Now());
    var again;
    missing, again := c.GetTwice("a");
    c.RegisterBeanDefinition("b", Singleton, PLAIN_B.factory);
    UsedUpByError(c.Now(), "a");
    registered, again := c.GetTwice("a");
    c.Clear();
    Complete(c.Now());
    cleared, again := c.GetTwice("a");
  }

  /**
   A panic leaves less behind than an error: the bean that could not be built comes back as nil, as if that were a
   success, and what it is injected into panics; registering a working dependency does not help, a Clear does.
   */
  method SpentConstruction()
    returns (first: Outcome<Instance>, second: Outcome<Instance>, user: Outcome<Instance>,
             repaired: Outcome<Instance>, cleared: Outcome<Instance>)
    ensures first.Panicked? && second.Nil? && user.Panicked? && repaired.Nil? && cleared.Found?
  {
    hide Sound, Explodes, Spent, Resolved, StatesOk, Failures, Coherent, SameSound, Evolves, Leads, Kept, OnlyRunning,
      Marked, EndState, Adds;
    var c := new ApplicationContainer();
    c.RegisterBeanDefinition("a", Singleton, NEEDS_B.factory);
    c.RegisterBeanDefinition("b", Singleton, PANICKING_B.factory);
    DependencyPanics(c.Now());
    ghost var v0 := c.Now();
    first, second := c.GetTwice("a");
    ghost var v1 := c.Now();
    NewNameNotAtHand(v0, v1, "c");
    MarkedSpent(v1, "a");
    c.RegisterBeanDefinition("c", Singleton, NEEDS_A.factory);
    ghost var v2 := c.Now();
    OtherDefined(v1, v2, "a", "c");
    DependencyIsNil(v2);
    var again;
    user, again := c.GetTwice("c");
    ghost var v3 := c.Now();
    SpentStays(v2, v3, "a", KindOf(user));
    c.RegisterBeanDefinition("b", Singleton, PLAIN_B.factory);
    OtherDefined(v3, c.Now(), "a", "b");
    UsedUpByPanic(c.Now(), "a");
    repaired, again := c.GetTwice("a");
    c.Clear();
    Complete(c.Now());
    cleared, again := c.GetTwice("a");
  }
}
