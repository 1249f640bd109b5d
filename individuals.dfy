/**
 * The individual manager: a cache of the world's individual components and
 * their individuals, two id maps for quick lookup, three world-state buckets
 * for the root individuals, and the Init / Load / Connect flags on top.
 *
 * The cache is described by the value `IndividualCache`; the functions
 * `WithComponent` and `WithoutComponent` say what adding and removing one
 * component does to it, and the lemmas below state what lookups return
 * afterwards. The class `IndividualManager` keeps the same data in fields that
 * its methods update in place, and each method is proved to move its fields
 * exactly as those functions say.
 */
module Individuals {
  import opened Wrappers

  /** The dynamic class of an individual, as the casts in AddToCache test it. */
  datatype IndividualClass = SkeletalIndividual | RobotIndividual | OtherIndividual

  /** An individual object: its identity, its unique id value and its class. */
  datatype Individual = Individual(handle: nat, id: string, cls: IndividualClass)

  /** An actor of the world (the owner of an individual component). */
  datatype Actor = Actor(handle: nat)

  /**
   * An individual component: its identity, its owner, its root individual
   * object (absent when the component has none) and its child individuals.
   */
  datatype Component = Component(
    handle: nat,
    owner: Actor,
    individual: Option<Individual>,
    children: seq<Individual>)

  /**
   * One actor met by the world iteration, with its individual component if it
   * has one, and whether that component is valid and not pending kill.
   */
  datatype WorldActor = WorldActor(component: Option<Component>, alive: bool)

  /**
   * The cached references: the arrays, the world-state buckets and the id
   * maps, whose keys are the folded ids (`Key`).
   */
  datatype IndividualCache = IndividualCache(
    components: seq<Component>,
    individuals: seq<Individual>,
    childlessRoots: seq<Individual>,
    skeletal: seq<Individual>,
    robots: seq<Individual>,
    idToIndividuals: map<string, Individual>,
    idToComponents: map<string, Component>)

  const EmptyCache := IndividualCache([], [], [], [], [], map[], map[])

  /** The engine's "no index" value that the result of TArray::Remove is compared with. */
  const IndexNone: int := -1

  /** HasCache: the buckets are not consulted. */
  predicate HasEntries(c: IndividualCache) {
    |c.components| > 0 || |c.individuals| > 0 || |c.idToComponents| > 0 || |c.idToIndividuals| > 0
  }

  /** The root individual of a component, as a sequence of zero or one element. */
  function RootOf(ic: Component): seq<Individual> {
    if ic.individual.Some? then [ic.individual.value] else []
  }

  /** The individuals a component contributes to the cache, in the order AddToCache adds them. */
  function Registered(ic: Component): seq<Individual> {
    RootOf(ic) + ic.children
  }

  /** The engine's case folding of a character: ASCII upper-case letters become lower case. */
  function FoldChar(ch: char): char {
    if 'A' <= ch <= 'Z' then (ch as int + 32) as char else ch
  }

  /**
   * The key an id stands for in the id maps: FString keys compare and hash
   * ignoring case, so two ids equal up to ASCII case are the same key.
   */
  function Key(id: string): (r: string)
    ensures |r| == |id|
    ensures forall i :: 0 <= i < |id| ==> r[i] == FoldChar(id[i])
  {
    seq(|id|, i requires 0 <= i < |id| => FoldChar(id[i]))
  }

  /** The map keys of the ids of some individuals. */
  function KeysOf(inds: seq<Individual>): set<string> {
    set x | x in inds :: Key(x.id)
  }

  predicate DistinctKeys(inds: seq<Individual>) {
    forall i, j :: 0 <= i < j < |inds| ==> Key(inds[i].id) != Key(inds[j].id)
  }

  /** The world-state bucket a root individual of the given class goes to. */
  function Bucket(c: IndividualCache, cls: IndividualClass): seq<Individual> {
    match cls
    case SkeletalIndividual => c.skeletal
    case RobotIndividual => c.robots
    case OtherIndividual => c.childlessRoots
  }

  function WithBucket(c: IndividualCache, cls: IndividualClass, b: seq<Individual>): (r: IndividualCache)
    ensures Bucket(r, cls) == b
    ensures forall k :: k != cls ==> Bucket(r, k) == Bucket(c, k)
    ensures r.components == c.components && r.individuals == c.individuals
    ensures r.idToIndividuals == c.idToIndividuals && r.idToComponents == c.idToComponents
  {
    match cls
    case SkeletalIndividual => c.(skeletal := b)
    case RobotIndividual => c.(robots := b)
    case OtherIndividual => c.(childlessRoots := b)
  }

  /** Number of occurrences of x in s: what TArray::Remove returns. */
  function Occurrences<T(==)>(s: seq<T>, x: T): (n: nat)
    ensures n == 0 <==> x !in s
    decreases |s|
  {
    if s == [] then 0 else (if s[0] == x then 1 else 0) + Occurrences(s[1..], x)
  }

  /** TArray::Remove: every element equal to x taken out, the others kept in order. */
  function RemoveAll<T(==)>(s: seq<T>, x: T): seq<T>
    decreases |s|
  {
    if s == [] then [] else (if s[0] == x then [] else [s[0]]) + RemoveAll(s[1..], x)
  }

  /** TArray::Remove applied for each element of xs in turn. */
  function RemoveEach<T(==)>(s: seq<T>, xs: seq<T>): seq<T>
    decreases |xs|
  {
    if xs == [] then s else RemoveEach(RemoveAll(s, xs[0]), xs[1..])
  }

  /** RemoveAll keeps exactly the elements different from x, and shortens s by the count of x. */
  lemma {:induction false} RemoveAllMembers<T>(s: seq<T>, x: T, y: T)
    ensures y in RemoveAll(s, x) <==> y in s && y != x
    ensures |RemoveAll(s, x)| == |s| - Occurrences(s, x)
    decreases |s|
  {
    if s != [] {
      RemoveAllMembers(s[1..], x, y);
      assert s == [s[0]] + s[1..];
    }
  }

  /** RemoveEach keeps exactly the elements that are not in xs. */
  lemma {:induction false} RemoveEachMembers<T>(s: seq<T>, xs: seq<T>, y: T)
    ensures y in RemoveEach(s, xs) <==> y in s && y !in xs
    decreases |xs|
  {
    if xs != [] {
      RemoveAllMembers(s, xs[0], y);
      RemoveEachMembers(RemoveAll(s, xs[0]), xs[1..], y);
      assert xs == [xs[0]] + xs[1..];
    }
  }

  /** The id-to-individual map after `Add(Id, Individual)` for each individual in turn. */
  function WithIndividuals(m: map<string, Individual>, inds: seq<Individual>): (r: map<string, Individual>)
    ensures r.Keys == m.Keys + KeysOf(inds)
    ensures forall id :: id in m && id !in KeysOf(inds) ==> r[id] == m[id]
    decreases |inds|
  {
    if inds == [] then m
    else
      assert KeysOf(inds) == {Key(inds[0].id)} + KeysOf(inds[1..]) by {
        assert inds == [inds[0]] + inds[1..];
      }
      WithIndividuals(m[Key(inds[0].id) := inds[0]], inds[1..])
  }

  /** The id-to-component map after `Add(Id, IC)` for the id of each individual in turn. */
  function WithOwner(m: map<string, Component>, inds: seq<Individual>, ic: Component): (r: map<string, Component>)
    ensures r.Keys == m.Keys + KeysOf(inds)
    ensures forall id :: id in KeysOf(inds) ==> r[id] == ic
    ensures forall id :: id in m && id !in KeysOf(inds) ==> r[id] == m[id]
    decreases |inds|
  {
    if inds == [] then m
    else
      assert KeysOf(inds) == {Key(inds[0].id)} + KeysOf(inds[1..]) by {
        assert inds == [inds[0]] + inds[1..];
      }
      WithOwner(m[Key(inds[0].id) := ic], inds[1..], ic)
  }

  /** The cache after AddToCache(ic). */
  function WithComponent(c: IndividualCache, ic: Component): IndividualCache {
    var inds := Registered(ic);
    var added := c.(
      components := c.components + [ic],
      individuals := c.individuals + inds,
      idToIndividuals := WithIndividuals(c.idToIndividuals, inds),
      idToComponents := WithOwner(c.idToComponents, inds, ic));
    if ic.individual.Some? then
      var root := ic.individual.value;
      WithBucket(added, root.cls, Bucket(added, root.cls) + [root])
    else added
  }

  /** The cache after RemoveFromCache(ic). */
  function WithoutComponent(c: IndividualCache, ic: Component): IndividualCache {
    var inds := Registered(ic);
    var removed := c.(
      components := RemoveAll(c.components, ic),
      individuals := RemoveEach(c.individuals, inds),
      idToIndividuals := c.idToIndividuals - KeysOf(inds),
      idToComponents := c.idToComponents - KeysOf(inds));
    if ic.individual.Some? then
      var root := ic.individual.value;
      WithBucket(removed, root.cls, RemoveAll(Bucket(removed, root.cls), root))
    else removed
  }

  /** The cache after the world iteration of InitImpl has added every valid component it met. */
  function FromWorld(c: IndividualCache, world: seq<WorldActor>): IndividualCache
    decreases |world|
  {
    if world == [] then c
    else
      var before := FromWorld(c, world[..|world| - 1]);
      var a := world[|world| - 1];
      if a.component.Some? && a.alive then WithComponent(before, a.component.value) else before
  }

  /** The valid components of the world, in iteration order. */
  function AliveComponents(world: seq<WorldActor>): seq<Component>
    decreases |world|
  {
    if world == [] then []
    else
      var a := world[|world| - 1];
      AliveComponents(world[..|world| - 1])
        + (if a.component.Some? && a.alive then [a.component.value] else [])
  }

  datatype InitOutcome = InitOutcome(ok: bool, cache: IndividualCache)

  /** InitImpl: refuses a non-empty cache, otherwise caches the world and succeeds iff something was cached. */
  function InitImplOutcome(c: IndividualCache, world: seq<WorldActor>): InitOutcome {
    if HasEntries(c) then InitOutcome(false, c)
    else
      var cached := FromWorld(c, world);
      InitOutcome(HasEntries(cached), cached)
  }

  /** LoadImpl: every cached component and every cached individual reports loaded. */
  predicate AllLoaded(c: IndividualCache, componentLoaded: Component -> bool, individualLoaded: Individual -> bool) {
    && (forall i :: 0 <= i < |c.components| ==> componentLoaded(c.components[i]))
    && (forall i :: 0 <= i < |c.individuals| ==> individualLoaded(c.individuals[i]))
  }

  function IndividualOf(c: IndividualCache, id: string): (r: Option<Individual>)
    ensures r.Some? <==> Key(id) in c.idToIndividuals
  {
    if Key(id) in c.idToIndividuals then Some(c.idToIndividuals[Key(id)]) else None
  }

  function ComponentOf(c: IndividualCache, id: string): (r: Option<Component>)
    ensures r.Some? <==> Key(id) in c.idToComponents
  {
    if Key(id) in c.idToComponents then Some(c.idToComponents[Key(id)]) else None
  }

  function ActorOf(c: IndividualCache, id: string): (r: Option<Actor>)
    ensures r.Some? <==> ComponentOf(c, id).Some?
    ensures r.Some? ==> r.value == ComponentOf(c, id).value.owner
  {
    if Key(id) in c.idToComponents then Some(c.idToComponents[Key(id)].owner) else None
  }

  // ---------------------------------------------------------------------------
  // Lemmas about the cache

  lemma {:induction false} WithIndividualsSnoc(m: map<string, Individual>, inds: seq<Individual>, x: Individual)
    ensures WithIndividuals(m, inds + [x]) == WithIndividuals(m, inds)[Key(x.id) := x]
    decreases |inds|
  {
    if inds != [] {
      assert (inds + [x])[1..] == inds[1..] + [x];
      WithIndividualsSnoc(m[Key(inds[0].id) := inds[0]], inds[1..], x);
    }
  }

  lemma {:induction false} WithOwnerSnoc(m: map<string, Component>, inds: seq<Individual>, x: Individual, ic: Component)
    ensures WithOwner(m, inds + [x], ic) == WithOwner(m, inds, ic)[Key(x.id) := ic]
    decreases |inds|
  {
    if inds != [] {
      assert (inds + [x])[1..] == inds[1..] + [x];
      WithOwnerSnoc(m[Key(inds[0].id) := ic], inds[1..], x, ic);
    }
  }

  lemma {:induction false} RemoveEachSnoc<T>(s: seq<T>, xs: seq<T>, x: T)
    ensures RemoveEach(s, xs + [x]) == RemoveAll(RemoveEach(s, xs), x)
    decreases |xs|
  {
    if xs != [] {
      assert (xs + [x])[1..] == xs[1..] + [x];
      RemoveEachSnoc(RemoveAll(s, xs[0]), xs[1..], x);
    }
  }

  lemma {:induction false} WithIndividualsAppend(m: map<string, Individual>, a: seq<Individual>, b: seq<Individual>)
    ensures WithIndividuals(m, a + b) == WithIndividuals(WithIndividuals(m, a), b)
    decreases |a|
  {
    if a != [] {
      assert (a + b)[1..] == a[1..] + b;
      WithIndividualsAppend(m[Key(a[0].id) := a[0]], a[1..], b);
    } else {
      assert a + b == b;
    }
  }

  lemma {:induction false} WithOwnerAppend(m: map<string, Component>, a: seq<Individual>, b: seq<Individual>, ic: Component)
    ensures WithOwner(m, a + b, ic) == WithOwner(WithOwner(m, a, ic), b, ic)
    decreases |a|
  {
    if a != [] {
      assert (a + b)[1..] == a[1..] + b;
      WithOwnerAppend(m[Key(a[0].id) := ic], a[1..], b, ic);
    } else {
      assert a + b == b;
    }
  }

  lemma {:induction false} RemoveEachAppend<T>(s: seq<T>, a: seq<T>, b: seq<T>)
    ensures RemoveEach(s, a + b) == RemoveEach(RemoveEach(s, a), b)
    decreases |a|
  {
    if a != [] {
      assert (a + b)[1..] == a[1..] + b;
      RemoveEachAppend(RemoveAll(s, a[0]), a[1..], b);
    } else {
      assert a + b == b;
    }
  }

  lemma MinusUnion<V>(m: map<string, V>, ids: set<string>, id: string)
    ensures (m - ids) - {id} == m - (ids + {id})
  {
  }

  lemma KeysOfAppend(a: seq<Individual>, b: seq<Individual>)
    ensures KeysOf(a + b) == KeysOf(a) + KeysOf(b)
  {
  }

  /** When the ids are distinct, each individual's id maps to that individual. */
  lemma {:induction false} WithIndividualsLookup(m: map<string, Individual>, inds: seq<Individual>, k: nat)
    requires DistinctKeys(inds)
    requires k < |inds|
    ensures WithIndividuals(m, inds)[Key(inds[k].id)] == inds[k]
    decreases |inds|
  {
    var rest := inds[1..];
    if k == 0 {
      assert Key(inds[0].id) !in KeysOf(rest) by {
        forall x | x in rest ensures Key(x.id) != Key(inds[0].id) {
          var j :| 0 <= j < |rest| && rest[j] == x;
          assert inds[j + 1] == x;
        }
      }
    } else {
      assert DistinctKeys(rest) by {
        forall i, j | 0 <= i < j < |rest| ensures Key(rest[i].id) != Key(rest[j].id) {
          assert rest[i] == inds[i + 1] && rest[j] == inds[j + 1];
        }
      }
      WithIndividualsLookup(m[Key(inds[0].id) := inds[0]], rest, k - 1);
    }
  }

  /**
   * After AddToCache(ic): every id of ic's individual and children finds ic and
   * its actor, each of them finds its own individual when the ids are distinct,
   * and every other id finds what it found before (nothing, if it was never added).
   */
  lemma {:induction false} LookupAfterAdd(c: IndividualCache, ic: Component, id: string)
    ensures var r := WithComponent(c, ic);
      && (Key(id) in KeysOf(Registered(ic)) ==> ComponentOf(r, id) == Some(ic) && ActorOf(r, id) == Some(ic.owner))
      && (Key(id) !in KeysOf(Registered(ic)) ==> IndividualOf(r, id) == IndividualOf(c, id) && ComponentOf(r, id) == ComponentOf(c, id))
      && (DistinctKeys(Registered(ic)) ==>
            forall k :: 0 <= k < |Registered(ic)| && Key(Registered(ic)[k].id) == Key(id) ==> IndividualOf(r, id) == Some(Registered(ic)[k]))
  {
    var inds := Registered(ic);
    var r := WithComponent(c, ic);
    WithComponentShape(c, ic);
    if DistinctKeys(inds) {
      forall k | 0 <= k < |inds| && Key(inds[k].id) == Key(id)
        ensures IndividualOf(r, id) == Some(inds[k])
      {
        WithIndividualsLookup(c.idToIndividuals, inds, k);
      }
    }
  }

  /** Ids that differ only in ASCII case find the same entries. */
  lemma {:induction false} LookupIgnoresCase(ic: Component)
    requires ic.individual == Some(Individual(ic.handle, "ab", OtherIndividual))
    ensures var r := WithComponent(EmptyCache, ic);
      && ComponentOf(r, "AB") == Some(ic) && ComponentOf(r, "aB") == Some(ic)
      && ActorOf(r, "Ab") == Some(ic.owner)
  {
    assert Key("AB") == Key("aB") == Key("Ab") == Key("ab") == "ab";
    assert "ab" in KeysOf(Registered(ic)) by {
      assert Registered(ic)[0] == ic.individual.value;
    }
    LookupAfterAdd(EmptyCache, ic, "AB");
    LookupAfterAdd(EmptyCache, ic, "aB");
    LookupAfterAdd(EmptyCache, ic, "Ab");
  }

  /** A root individual not yet in any bucket ends up in exactly the bucket of its class. */
  lemma {:induction false} RootInExactlyOneBucket(c: IndividualCache, ic: Component)
    requires ic.individual.Some?
    requires forall k :: ic.individual.value !in Bucket(c, k)
    ensures var root := ic.individual.value;
      var r := WithComponent(c, ic);
      forall k :: root in Bucket(r, k) <==> k == root.cls
  {
    var root := ic.individual.value;
    var added := c.(
      components := c.components + [ic],
      individuals := c.individuals + Registered(ic),
      idToIndividuals := WithIndividuals(c.idToIndividuals, Registered(ic)),
      idToComponents := WithOwner(c.idToComponents, Registered(ic), ic));
    forall k ensures Bucket(added, k) == Bucket(c, k) {
      match k
      case SkeletalIndividual =>
      case RobotIndividual =>
      case OtherIndividual =>
    }
  }

  /**
   * After RemoveFromCache(ic): ic is no longer cached, the ids of its individual
   * and children are in neither map, every other id keeps its entry, and the
   * root leaves the bucket of its class while the other buckets are untouched.
   */
  lemma {:induction false} LookupAfterRemove(c: IndividualCache, ic: Component, id: string)
    ensures var r := WithoutComponent(c, ic);
      && ic !in r.components
      && (Key(id) in KeysOf(Registered(ic)) ==> IndividualOf(r, id) == None && ComponentOf(r, id) == None)
      && (Key(id) !in KeysOf(Registered(ic)) ==> IndividualOf(r, id) == IndividualOf(c, id) && ComponentOf(r, id) == ComponentOf(c, id))
      && (ic.individual.Some? ==>
            ic.individual.value !in Bucket(r, ic.individual.value.cls)
            && forall k :: k != ic.individual.value.cls ==> Bucket(r, k) == Bucket(c, k))
  {
    var inds := Registered(ic);
    var r := WithoutComponent(c, ic);
    WithoutComponentShape(c, ic);
    RemoveAllMembers(c.components, ic, ic);
    if ic.individual.Some? {
      var root := ic.individual.value;
      RemoveAllMembers(Bucket(c, root.cls), root, root);
      assert Bucket(r, root.cls) == RemoveAll(Bucket(c, root.cls), root) by {
        match root.cls
        case SkeletalIndividual =>
        case RobotIndividual =>
        case OtherIndividual =>
      }
      forall k | k != root.cls ensures Bucket(r, k) == Bucket(c, k) {
        match k
        case SkeletalIndividual =>
        case RobotIndividual =>
        case OtherIndividual =>
      }
    }
  }

  lemma {:induction false} RemoveAllAppend<T>(a: seq<T>, b: seq<T>, x: T)
    ensures RemoveAll(a + b, x) == RemoveAll(a, x) + RemoveAll(b, x)
    decreases |a|
  {
    if a != [] {
      assert (a + b)[1..] == a[1..] + b;
      RemoveAllAppend(a[1..], b, x);
    } else {
      assert a + b == b;
    }
  }

  lemma {:induction false} RemoveAllAbsent<T>(s: seq<T>, x: T)
    requires x !in s
    ensures RemoveAll(s, x) == s
    decreases |s|
  {
    if s != [] {
      RemoveAllAbsent(s[1..], x);
      assert s == [s[0]] + s[1..];
    }
  }

  /** Removing all of xs from s + t gives s back when t holds only elements of xs and s none. */
  lemma {:induction false} RemoveEachAppended<T>(s: seq<T>, t: seq<T>, xs: seq<T>)
    requires forall i :: 0 <= i < |t| ==> t[i] in xs
    requires forall x :: x in xs ==> x !in s
    ensures RemoveEach(s + t, xs) == s
    decreases |xs|
  {
    if xs == [] {
      assert |t| == 0;
      assert s + t == s;
    } else {
      RemoveAllAppend(s, t, xs[0]);
      RemoveAllAbsent(s, xs[0]);
      var t' := RemoveAll(t, xs[0]);
      forall i | 0 <= i < |t'| ensures t'[i] in xs[1..] {
        var y := t'[i];
        RemoveAllMembers(t, xs[0], y);
        assert y in xs && y != xs[0];
        assert xs == [xs[0]] + xs[1..];
      }
      RemoveEachAppended(s, t', xs[1..]);
    }
  }

  /** A bucket after AddToCache(ic): the root is appended to the bucket of its class. */
  function AddedTo(b: seq<Individual>, ic: Component, k: IndividualClass): seq<Individual> {
    if ic.individual.Some? && ic.individual.value.cls == k then b + [ic.individual.value] else b
  }

  /** A bucket after RemoveFromCache(ic): the root is taken out of the bucket of its class. */
  function RemovedFrom(b: seq<Individual>, ic: Component, k: IndividualClass): seq<Individual> {
    if ic.individual.Some? && ic.individual.value.cls == k then RemoveAll(b, ic.individual.value) else b
  }

  lemma WithComponentShape(c: IndividualCache, ic: Component)
    ensures var r := WithComponent(c, ic);
      && r.components == c.components + [ic]
      && r.individuals == c.individuals + Registered(ic)
      && r.idToIndividuals == WithIndividuals(c.idToIndividuals, Registered(ic))
      && r.idToComponents == WithOwner(c.idToComponents, Registered(ic), ic)
      && r.skeletal == AddedTo(c.skeletal, ic, SkeletalIndividual)
      && r.robots == AddedTo(c.robots, ic, RobotIndividual)
      && r.childlessRoots == AddedTo(c.childlessRoots, ic, OtherIndividual)
    ensures WithComponent(c, ic) == IndividualCache(c.components + [ic], c.individuals + Registered(ic),
        AddedTo(c.childlessRoots, ic, OtherIndividual), AddedTo(c.skeletal, ic, SkeletalIndividual),
        AddedTo(c.robots, ic, RobotIndividual), WithIndividuals(c.idToIndividuals, Registered(ic)),
        WithOwner(c.idToComponents, Registered(ic), ic))
  {
  }

  lemma WithoutComponentShape(c: IndividualCache, ic: Component)
    ensures var r := WithoutComponent(c, ic);
      && r.components == RemoveAll(c.components, ic)
      && r.individuals == RemoveEach(c.individuals, Registered(ic))
      && r.idToIndividuals == c.idToIndividuals - KeysOf(Registered(ic))
      && r.idToComponents == c.idToComponents - KeysOf(Registered(ic))
      && r.skeletal == RemovedFrom(c.skeletal, ic, SkeletalIndividual)
      && r.robots == RemovedFrom(c.robots, ic, RobotIndividual)
      && r.childlessRoots == RemovedFrom(c.childlessRoots, ic, OtherIndividual)
  {
  }

  /**
   * AddToCache followed by RemoveFromCache of the same component gives back
   * the original cache, when nothing of the component was cached before.
   */
  lemma {:induction false} RemoveUndoesAdd(c: IndividualCache, ic: Component)
    requires ic !in c.components
    requires forall x :: x in Registered(ic) ==> x !in c.individuals
    requires KeysOf(Registered(ic)) !! c.idToIndividuals.Keys
    requires KeysOf(Registered(ic)) !! c.idToComponents.Keys
    requires ic.individual.Some? ==> ic.individual.value !in Bucket(c, ic.individual.value.cls)
    ensures WithoutComponent(WithComponent(c, ic), ic) == c
  {
    var inds := Registered(ic);
    var a := WithComponent(c, ic);
    var r := WithoutComponent(a, ic);
    WithComponentShape(c, ic);
    WithoutComponentShape(a, ic);
    RemoveAllAppend(c.components, [ic], ic);
    RemoveAllAbsent(c.components, ic);
    assert RemoveAll([ic], ic) == [];
    assert r.components == c.components;
    RemoveEachAppended(c.individuals, inds, inds);
    assert r.individuals == c.individuals;
    MapRoundTrip(c.idToIndividuals, WithIndividuals(c.idToIndividuals, inds), KeysOf(inds));
    MapRoundTrip(c.idToComponents, WithOwner(c.idToComponents, inds, ic), KeysOf(inds));
    BucketRoundTrip(c, ic, SkeletalIndividual);
    BucketRoundTrip(c, ic, RobotIndividual);
    BucketRoundTrip(c, ic, OtherIndividual);
  }

  /** Entries added under fresh keys and then removed leave the map as it was. */
  lemma MapRoundTrip<V>(m: map<string, V>, grown: map<string, V>, ids: set<string>)
    requires ids !! m.Keys
    requires grown.Keys == m.Keys + ids
    requires forall id :: id in m ==> grown[id] == m[id]
    ensures grown - ids == m
  {
  }

  lemma BucketRoundTrip(c: IndividualCache, ic: Component, k: IndividualClass)
    requires ic.individual.Some? ==> ic.individual.value !in Bucket(c, ic.individual.value.cls)
    ensures RemovedFrom(AddedTo(Bucket(c, k), ic, k), ic, k) == Bucket(c, k)
  {
    if ic.individual.Some? && k == ic.individual.value.cls {
      var root := ic.individual.value;
      RemoveAllAppend(Bucket(c, k), [root], root);
      RemoveAllAbsent(Bucket(c, k), root);
      assert RemoveAll([root], root) == [];
    }
  }

  lemma {:induction false} FromWorldComponents(c: IndividualCache, world: seq<WorldActor>)
    ensures FromWorld(c, world).components == c.components + AliveComponents(world)
    decreases |world|
  {
    if world != [] {
      FromWorldComponents(c, world[..|world| - 1]);
    }
  }

  lemma {:induction false} FromWorldNothingAlive(c: IndividualCache, world: seq<WorldActor>)
    requires AliveComponents(world) == []
    ensures FromWorld(c, world) == c
    decreases |world|
  {
    if world != [] {
      var a := world[|world| - 1];
      assert !(a.component.Some? && a.alive);
      FromWorldNothingAlive(c, world[..|world| - 1]);
    }
  }

  /**
   * InitImpl on a cache that already has entries fails and changes nothing;
   * on an empty cache it caches the valid components in world order and
   * succeeds exactly when there was at least one.
   */
  lemma {:induction false} InitImplCachesWorld(c: IndividualCache, world: seq<WorldActor>)
    ensures var r := InitImplOutcome(c, world);
      && (HasEntries(c) ==> !r.ok && r.cache == c)
      && (c == EmptyCache ==>
            r.cache.components == AliveComponents(world)
            && (r.ok <==> |AliveComponents(world)| > 0))
  {
    if c == EmptyCache {
      assert !HasEntries(c);
      var cached := FromWorld(c, world);
      assert InitImplOutcome(c, world) == InitOutcome(HasEntries(cached), cached);
      FromWorldComponents(c, world);
      assert cached.components == AliveComponents(world);
      if AliveComponents(world) == [] {
        FromWorldNothingAlive(c, world);
        assert !HasEntries(cached);
      } else {
        assert HasEntries(cached);
      }
    } else if HasEntries(c) {
      assert InitImplOutcome(c, world) == InitOutcome(false, c);
    }
  }

  /** The finding: TArray::Remove returns a count, which is never IndexNone. */
  function RemovedAsWritten(removedCount: nat): bool {
    removedCount != IndexNone
  }

  /** As written, RemoveFromCache reports a removal even for a component that was never cached. */
  lemma {:induction false} RemovedAsWrittenForUncached(c: IndividualCache, ic: Component)
    requires ic !in c.components
    ensures Occurrences(c.components, ic) == 0
    ensures RemovedAsWritten(Occurrences(c.components, ic))
  {
  }

  // ---------------------------------------------------------------------------
  // The manager actor

  class IndividualManager {
    var individualComponents: seq<Component>
    var individuals: seq<Individual>
    var childlessRootIndividuals: seq<Individual>
    var skeletalIndividuals: seq<Individual>
    var robotIndividuals: seq<Individual>
    var idToIndividuals: map<string, Individual>
    var idToIndividualComponents: map<string, Component>
    var isInit: bool
    var isLoaded: bool
    var isConnected: bool

    /** The cached data as one value. */
    function Cache(): IndividualCache
      reads this
    {
      IndividualCache(individualComponents, individuals, childlessRootIndividuals,
        skeletalIndividuals, robotIndividuals, idToIndividuals, idToIndividualComponents)
    }

    ghost predicate Valid()
      reads this
    {
      isLoaded ==> isInit
    }

    constructor ()
      ensures Valid() && Cache() == EmptyCache
      ensures !isInit && !isLoaded && !isConnected
    {
      individualComponents, individuals := [], [];
      childlessRootIndividuals, skeletalIndividuals, robotIndividuals := [], [], [];
      idToIndividuals, idToIndividualComponents := map[], map[];
      isInit, isLoaded, isConnected := false, false, false;
    }

    /**
     * Whether anything is cached apart from the world-state buckets; without
     * a cache no id resolves to an individual or a component.
     */
    predicate HasCache(): (r: bool)
      reads this
      ensures r <==> Cache().(childlessRoots := [], skeletal := [], robots := []) != EmptyCache
      ensures !r ==> forall id :: IndividualOf(Cache(), id) == None && ComponentOf(Cache(), id) == None
    {
      HasEntries(Cache())
    }

    function GetIndividual(id: string): Option<Individual>
      reads this
    {
      IndividualOf(Cache(), id)
    }

    function GetIndividualComponent(id: string): Option<Component>
      reads this
    {
      ComponentOf(Cache(), id)
    }

    function GetIndividualActor(id: string): Option<Actor>
      reads this
    {
      ActorOf(Cache(), id)
    }

    method SetIsLoaded(newValue: bool)
      modifies this`isLoaded
      ensures isLoaded == newValue
    {
      if isLoaded != newValue {
        isLoaded := newValue;
      }
    }

    /** Clearing the init flag clears the loaded flag as well. */
    method SetIsInit(newValue: bool)
      modifies this`isInit, this`isLoaded
      ensures isInit == newValue
      ensures isLoaded == (old(isLoaded) && !(old(isInit) && !newValue))
    {
      if isInit != newValue {
        if !newValue {
          SetIsLoaded(false);
        }
        isInit := newValue;
      }
    }

    method SetIsConnected(newValue: bool)
      modifies this`isConnected
      ensures isConnected == newValue
    {
      if isConnected != newValue {
        isConnected := newValue;
      }
    }

    method ClearCache()
      modifies this
      ensures Cache() == EmptyCache && !HasCache()
      ensures isInit == old(isInit) && isLoaded == old(isLoaded) && isConnected == old(isConnected)
    {
      individualComponents := [];
      individuals := [];
      childlessRootIndividuals := [];
      skeletalIndividuals := [];
      robotIndividuals := [];
      idToIndividuals := map[];
      idToIndividualComponents := map[];
    }

    method LoadReset()
      modifies this`isLoaded
      ensures !isLoaded
    {
      SetIsLoaded(false);
    }

    /**
     * Clears the cache and both flags. Unbinding the destroyed delegates is not
     * part of this model, and the connected flag is left as it was.
     */
    method InitReset()
      modifies this
      ensures Valid()
      ensures Cache() == EmptyCache && !isInit && !isLoaded
      ensures isConnected == old(isConnected)
    {
      LoadReset();
      ClearCache();
      SetIsInit(false);
    }

    /** Adds the root individual of ic, if any, to the world-state bucket of its class. */
    method AppendToBucket(ic: Component)
      modifies this`skeletalIndividuals, this`robotIndividuals, this`childlessRootIndividuals
      ensures skeletalIndividuals == AddedTo(old(skeletalIndividuals), ic, SkeletalIndividual)
      ensures robotIndividuals == AddedTo(old(robotIndividuals), ic, RobotIndividual)
      ensures childlessRootIndividuals == AddedTo(old(childlessRootIndividuals), ic, OtherIndividual)
    {
      if ic.individual.Some? {
        var individual := ic.individual.value;
        match individual.cls
        case SkeletalIndividual =>
          skeletalIndividuals := skeletalIndividuals + [individual];
        case RobotIndividual =>
          robotIndividuals := robotIndividuals + [individual];
        case OtherIndividual =>
          childlessRootIndividuals := childlessRootIndividuals + [individual];
      }
    }

    /** Takes the root individual of ic, if any, out of the world-state bucket of its class. */
    method RemoveFromBucket(ic: Component)
      modifies this`skeletalIndividuals, this`robotIndividuals, this`childlessRootIndividuals
      ensures skeletalIndividuals == RemovedFrom(old(skeletalIndividuals), ic, SkeletalIndividual)
      ensures robotIndividuals == RemovedFrom(old(robotIndividuals), ic, RobotIndividual)
      ensures childlessRootIndividuals == RemovedFrom(old(childlessRootIndividuals), ic, OtherIndividual)
    {
      if ic.individual.Some? {
        var individual := ic.individual.value;
        match individual.cls
        case SkeletalIndividual =>
          skeletalIndividuals := RemoveAll(skeletalIndividuals, individual);
        case RobotIndividual =>
          robotIndividuals := RemoveAll(robotIndividuals, individual);
        case OtherIndividual =>
          childlessRootIndividuals := RemoveAll(childlessRootIndividuals, individual);
      }
    }

    /** Adds one individual to the array and both id maps. */
    method AddIndividual(individual: Individual, ic: Component)
      modifies this`individuals, this`idToIndividuals, this`idToIndividualComponents
      ensures individuals == old(individuals) + [individual]
      ensures idToIndividuals == old(idToIndividuals)[Key(individual.id) := individual]
      ensures idToIndividualComponents == old(idToIndividualComponents)[Key(individual.id) := ic]
    {
      individuals := individuals + [individual];
      idToIndividuals := idToIndividuals[Key(individual.id) := individual];
      idToIndividualComponents := idToIndividualComponents[Key(individual.id) := ic];
    }

    /** Takes one individual out of the array and both id maps. */
    method RemoveIndividual(individual: Individual)
      modifies this`individuals, this`idToIndividuals, this`idToIndividualComponents
      ensures individuals == RemoveAll(old(individuals), individual)
      ensures idToIndividuals == old(idToIndividuals) - {Key(individual.id)}
      ensures idToIndividualComponents == old(idToIndividualComponents) - {Key(individual.id)}
    {
      individuals := RemoveAll(individuals, individual);
      idToIndividuals := idToIndividuals - {Key(individual.id)};
      idToIndividualComponents := idToIndividualComponents - {Key(individual.id)};
    }

    /** The children loop of AddToCache. */
    method AddChildren(ic: Component)
      modifies this`individuals, this`idToIndividuals, this`idToIndividualComponents
      ensures individuals == old(individuals) + ic.children
      ensures idToIndividuals == WithIndividuals(old(idToIndividuals), ic.children)
      ensures idToIndividualComponents == WithOwner(old(idToIndividualComponents), ic.children, ic)
    {
      var i := 0;
      while i < |ic.children|
        invariant 0 <= i <= |ic.children|
        invariant individuals == old(individuals) + ic.children[..i]
        invariant idToIndividuals == WithIndividuals(old(idToIndividuals), ic.children[..i])
        invariant idToIndividualComponents == WithOwner(old(idToIndividualComponents), ic.children[..i], ic)
      {
        var child := ic.children[i];
        assert ic.children[..i + 1] == ic.children[..i] + [child];
        WithIndividualsSnoc(old(idToIndividuals), ic.children[..i], child);
        WithOwnerSnoc(old(idToIndividualComponents), ic.children[..i], child, ic);
        AddIndividual(child, ic);
        i := i + 1;
      }
      assert ic.children[..i] == ic.children;
    }

    /** The children loop of RemoveFromCache. */
    method RemoveChildren(ic: Component)
      modifies this`individuals, this`idToIndividuals, this`idToIndividualComponents
      ensures individuals == RemoveEach(old(individuals), ic.children)
      ensures idToIndividuals == old(idToIndividuals) - KeysOf(ic.children)
      ensures idToIndividualComponents == old(idToIndividualComponents) - KeysOf(ic.children)
    {
      var i := 0;
      while i < |ic.children|
        invariant 0 <= i <= |ic.children|
        invariant individuals == RemoveEach(old(individuals), ic.children[..i])
        invariant idToIndividuals == old(idToIndividuals) - KeysOf(ic.children[..i])
        invariant idToIndividualComponents == old(idToIndividualComponents) - KeysOf(ic.children[..i])
      {
        var child := ic.children[i];
        assert ic.children[..i + 1] == ic.children[..i] + [child];
        RemoveEachSnoc(old(individuals), ic.children[..i], child);
        KeysOfAppend(ic.children[..i], [child]);
        assert KeysOf([child]) == {Key(child.id)};
        MinusUnion(old(idToIndividuals), KeysOf(ic.children[..i]), Key(child.id));
        MinusUnion(old(idToIndividualComponents), KeysOf(ic.children[..i]), Key(child.id));
        RemoveIndividual(child);
        i := i + 1;
      }
      assert ic.children[..i] == ic.children;
    }

    /** The individuals part of AddToCache: the root individual first, then the children. */
    method AddRegistered(ic: Component)
      modifies this`individuals, this`idToIndividuals, this`idToIndividualComponents
      ensures individuals == old(individuals) + Registered(ic)
      ensures idToIndividuals == WithIndividuals(old(idToIndividuals), Registered(ic))
      ensures idToIndividualComponents == WithOwner(old(idToIndividualComponents), Registered(ic), ic)
    {
      if ic.individual.Some? {
        AddIndividual(ic.individual.value, ic);
      }
      assert individuals == old(individuals) + RootOf(ic);
      assert idToIndividuals == WithIndividuals(old(idToIndividuals), RootOf(ic));
      assert idToIndividualComponents == WithOwner(old(idToIndividualComponents), RootOf(ic), ic);
      AddChildren(ic);
      WithIndividualsAppend(old(idToIndividuals), RootOf(ic), ic.children);
      WithOwnerAppend(old(idToIndividualComponents), RootOf(ic), ic.children, ic);
    }

    /** The individuals part of RemoveFromCache: the root individual first, then the children. */
    method RemoveRegistered(ic: Component)
      modifies this`individuals, this`idToIndividuals, this`idToIndividualComponents
      ensures individuals == RemoveEach(old(individuals), Registered(ic))
      ensures idToIndividuals == old(idToIndividuals) - KeysOf(Registered(ic))
      ensures idToIndividualComponents == old(idToIndividualComponents) - KeysOf(Registered(ic))
    {
      if ic.individual.Some? {
        RemoveIndividual(ic.individual.value);
        assert RootOf(ic) == [ic.individual.value];
        assert KeysOf(RootOf(ic)) == {Key(ic.individual.value.id)};
      } else {
        assert RootOf(ic) == [];
        assert KeysOf(RootOf(ic)) == {};
      }
      assert individuals == RemoveEach(old(individuals), RootOf(ic));
      RemoveChildren(ic);
      RemoveEachAppend(old(individuals), RootOf(ic), ic.children);
      KeysOfAppend(RootOf(ic), ic.children);
    }

    method AddToCache(ic: Component)
      modifies this`individualComponents, this`individuals, this`idToIndividuals, this`idToIndividualComponents
      modifies this`skeletalIndividuals, this`robotIndividuals, this`childlessRootIndividuals
      ensures Cache() == WithComponent(old(Cache()), ic)
      ensures isInit == old(isInit) && isLoaded == old(isLoaded) && isConnected == old(isConnected)
    {
      WithComponentShape(Cache(), ic);
      ghost var expected := WithComponent(Cache(), ic);
      individualComponents := individualComponents + [ic];
      AddRegistered(ic);
      AppendToBucket(ic);
      assert individualComponents == expected.components && individuals == expected.individuals;
      assert idToIndividuals == expected.idToIndividuals && idToIndividualComponents == expected.idToComponents;
      assert skeletalIndividuals == expected.skeletal && robotIndividuals == expected.robots;
      assert childlessRootIndividuals == expected.childlessRoots;
    }

    /**
     * Returns whether ic was cached. The source compares the count returned by
     * TArray::Remove with IndexNone, which makes the result always true
     * (RemovedAsWritten); the model returns what the comparison evidently meant.
     */
    method RemoveFromCache(ic: Component) returns (removed: bool)
      modifies this
      ensures removed <==> ic in old(individualComponents)
      ensures Cache() == WithoutComponent(old(Cache()), ic)
      ensures isInit == old(isInit) && isLoaded == old(isLoaded) && isConnected == old(isConnected)
    {
      ghost var start := Cache();
      removed := false;
      var count := Occurrences(individualComponents, ic);
      individualComponents := RemoveAll(individualComponents, ic);
      if count > 0 {
        removed := true;
      }
      RemoveRegistered(ic);
      RemoveFromBucket(ic);
      WithoutComponentShape(start, ic);
    }

    /** The destroyed-delegate handler: the destroyed component is no longer cached. */
    method OnIndividualComponentDestroyed(destroyed: Component)
      modifies this
      ensures Cache() == WithoutComponent(old(Cache()), destroyed)
      ensures destroyed !in individualComponents
      ensures isInit == old(isInit) && isLoaded == old(isLoaded) && isConnected == old(isConnected)
    {
      ghost var before := individualComponents;
      var _ := RemoveFromCache(destroyed);
      RemoveAllMembers(before, destroyed, destroyed);
    }

    /** Caches the valid individual components met by the world iteration. */
    method InitImpl(world: seq<WorldActor>) returns (ok: bool)
      modifies this
      ensures InitOutcome(ok, Cache()) == InitImplOutcome(old(Cache()), world)
      ensures isInit == old(isInit) && isLoaded == old(isLoaded) && isConnected == old(isConnected)
    {
      if HasCache() {
        return false;
      }
      var i := 0;
      while i < |world|
        invariant 0 <= i <= |world|
        invariant Cache() == FromWorld(old(Cache()), world[..i])
        invariant isInit == old(isInit) && isLoaded == old(isLoaded) && isConnected == old(isConnected)
      {
        assert world[..i + 1][..i] == world[..i];
        ghost var before := Cache();
        ghost var next := FromWorld(old(Cache()), world[..i + 1]);
        assert next == if world[i].component.Some? && world[i].alive
                       then WithComponent(before, world[i].component.value) else before;
        if world[i].component.Some? && world[i].alive {
          AddToCache(world[i].component.value);
        }
        assert Cache() == next;
        i := i + 1;
      }
      assert world[..i] == world;
      ok := HasCache();
    }

    /** Checks that every cached component and individual reports loaded. */
    method LoadImpl(componentLoaded: Component -> bool, individualLoaded: Individual -> bool) returns (allLoaded: bool)
      ensures allLoaded <==> AllLoaded(Cache(), componentLoaded, individualLoaded)
    {
      allLoaded := true;
      var i := 0;
      while i < |individualComponents|
        invariant 0 <= i <= |individualComponents|
        invariant allLoaded <==> forall j :: 0 <= j < i ==> componentLoaded(individualComponents[j])
      {
        if !componentLoaded(individualComponents[i]) {
          allLoaded := false;
        }
        i := i + 1;
      }
      var k := 0;
      while k < |individuals|
        invariant 0 <= k <= |individuals|
        invariant allLoaded <==>
          (forall j :: 0 <= j < |individualComponents| ==> componentLoaded(individualComponents[j]))
          && (forall j :: 0 <= j < k ==> individualLoaded(individuals[j]))
      {
        if !individualLoaded(individuals[k]) {
          allLoaded := false;
        }
        k := k + 1;
      }
    }

    /**
     * Init(false) on an initialised manager returns true and changes nothing;
     * otherwise (after InitReset when reset is asked) InitImpl decides the flag.
     */
    method Init(reset: bool, world: seq<WorldActor>) returns (ok: bool)
      requires Valid()
      modifies this
      ensures Valid()
      ensures ok == isInit
      ensures isConnected == old(isConnected)
      ensures !reset && old(isInit) ==> ok && Cache() == old(Cache()) && isLoaded == old(isLoaded)
      ensures reset || !old(isInit) ==>
        var r := InitImplOutcome(if reset then EmptyCache else old(Cache()), world);
        ok == r.ok && Cache() == r.cache && !isLoaded
    {
      if reset {
        InitReset();
      }
      if isInit {
        return true;
      }
      var implOk := InitImpl(world);
      SetIsInit(implOk);
      ok := isInit;
    }

    /**
     * Loaded is set only once init has succeeded, so `isLoaded ==> isInit`
     * holds afterwards. An uninitialised manager is initialised first.
     */
    method Load(reset: bool, world: seq<WorldActor>,
                componentLoaded: Component -> bool, individualLoaded: Individual -> bool)
      returns (ok: bool)
      requires Valid()
      modifies this
      ensures Valid()
      ensures ok == isLoaded
      ensures isConnected == old(isConnected)
      ensures !reset && old(isLoaded) ==> ok && Cache() == old(Cache()) && isInit == old(isInit)
      ensures old(isInit) && (reset || !old(isLoaded)) ==>
        isInit && Cache() == old(Cache()) && (ok <==> AllLoaded(Cache(), componentLoaded, individualLoaded))
      ensures !old(isInit) ==>
        var r := InitImplOutcome(if reset then EmptyCache else old(Cache()), world);
        Cache() == r.cache && isInit == r.ok && (ok <==> r.ok && AllLoaded(r.cache, componentLoaded, individualLoaded))
    {
      if reset {
        LoadReset();
      }
      if isLoaded {
        return true;
      }
      if !isInit {
        var initOk := Init(reset, world);
        if !initOk {
          return false;
        }
      }
      var allLoaded := LoadImpl(componentLoaded, individualLoaded);
      SetIsLoaded(allLoaded);
      ok := isLoaded;
    }

    /**
     * Binding the destroyed delegates (not part of this model) fails exactly
     * when nothing is cached; an already connected manager is left alone.
     */
    method Connect() returns (ok: bool)
      modifies this`isConnected
      ensures old(isConnected) ==> ok && isConnected
      ensures !old(isConnected) ==> (ok <==> HasCache()) && isConnected == ok
    {
      if isConnected {
        return true;
      }
      SetIsConnected(HasCache());
      ok := isConnected;
    }
  }
}
