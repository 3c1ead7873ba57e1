/** The kubeconfig store: three named lists and a current context, changed by upsert and removal. */
module Kubeconfig {
  import opened Common

  datatype Named<+T> = Named(name: string, value: T)

  datatype ClusterInfo = ClusterInfo(server: string, certificateAuthority: string)

  datatype UserInfo = UserInfo(certificate: string, key: string)

  datatype ContextInfo = ContextInfo(cluster: string, user: Option<string>, namespace: Option<string>)

  datatype Config = Config(
    clusters: seq<Named<ClusterInfo>>, users: seq<Named<UserInfo>>, contexts: seq<Named<ContextInfo>>,
    current: Option<string>)

  /** Why a server is refused. */
  datatype StoreError = InvalidServer(url: string, reason: string) | BadYaml(reason: string)

  // ---- lists of named entries ----

  function Names<T>(l: seq<Named<T>>): set<string> {
    if l == [] then {} else {l[0].name} + Names(l[1..])
  }

  /** The entries whose names are not in the set, in order. */
  function Without<T>(l: seq<Named<T>>, names: set<string>): seq<Named<T>> {
    if l == [] then []
    else (if l[0].name in names then [] else [l[0]]) + Without(l[1..], names)
  }

  /** Same-named entries give way to the incoming ones, everything else is kept. */
  function Upsert<T>(l: seq<Named<T>>, next: seq<Named<T>>): seq<Named<T>> {
    Without(l, Names(next)) + next
  }

  function Lookup<T>(l: seq<Named<T>>, name: string): Option<Named<T>> {
    if l == [] then None else if l[0].name == name then Some(l[0]) else Lookup(l[1..], name)
  }

  ghost predicate UniqueNames<T>(l: seq<Named<T>>) {
    l == [] || (l[0].name !in Names(l[1..]) && UniqueNames(l[1..]))
  }

  lemma {:induction false} NamesOfWithout<T>(l: seq<Named<T>>, names: set<string>)
    ensures Names(Without(l, names)) == Names(l) - names
  {
    if l != [] {
      NamesOfWithout(l[1..], names);
      var first := if l[0].name in names then [] else [l[0]];
      NamesOfConcat(first, Without(l[1..], names));
    }
  }

  lemma {:induction false} NamesOfConcat<T>(a: seq<Named<T>>, b: seq<Named<T>>)
    ensures Names(a + b) == Names(a) + Names(b)
  {
    if a == [] {
      assert a + b == b;
    } else {
      assert (a + b)[1..] == a[1..] + b;
      NamesOfConcat(a[1..], b);
    }
  }

  lemma NamesOfUpsert<T>(l: seq<Named<T>>, next: seq<Named<T>>)
    ensures Names(Upsert(l, next)) == Names(l) + Names(next)
  {
    NamesOfWithout(l, Names(next));
    NamesOfConcat(Without(l, Names(next)), next);
  }

  lemma {:induction false} WithoutConcat<T>(a: seq<Named<T>>, b: seq<Named<T>>, names: set<string>)
    ensures Without(a + b, names) == Without(a, names) + Without(b, names)
  {
    if a == [] {
      assert a + b == b;
    } else {
      assert (a + b)[1..] == a[1..] + b;
      WithoutConcat(a[1..], b, names);
    }
  }

  lemma {:induction false} WithoutTwice<T>(l: seq<Named<T>>, m: set<string>, n: set<string>)
    ensures Without(Without(l, m), n) == Without(l, m + n)
  {
    if l != [] {
      WithoutTwice(l[1..], m, n);
      WithoutConcat(if l[0].name in m then [] else [l[0]], Without(l[1..], m), n);
    }
  }

  lemma {:induction false} WithoutAll<T>(l: seq<Named<T>>, names: set<string>)
    requires Names(l) <= names
    ensures Without(l, names) == []
  {
    if l != [] {
      WithoutAll(l[1..], names);
    }
  }

  lemma {:induction false} WithoutNone<T>(l: seq<Named<T>>, names: set<string>)
    requires Names(l) !! names
    ensures Without(l, names) == l
  {
    if l != [] {
      WithoutNone(l[1..], names);
    }
  }

  /** Merging in two steps or merging the merged lists gives the same list, entry by entry. */
  lemma UpsertAssociative<T>(a: seq<Named<T>>, b: seq<Named<T>>, c: seq<Named<T>>)
    ensures Upsert(Upsert(a, b), c) == Upsert(a, Upsert(b, c))
  {
    var nb, nc := Names(b), Names(c);
    WithoutConcat(Without(a, nb), b, nc);
    WithoutTwice(a, nb, nc);
    NamesOfUpsert(b, c);
  }

  /** A later merge of the same names makes an earlier one disappear without trace. */
  lemma UpsertAbsorbs<T>(a: seq<Named<T>>, b: seq<Named<T>>, c: seq<Named<T>>)
    requires Names(b) <= Names(c)
    ensures Upsert(Upsert(a, b), c) == Upsert(a, c)
  {
    UpsertAssociative(a, b, c);
    WithoutAll(b, Names(c));
    assert [] + c == c;
  }

  /** Entries that are not replaced keep their order and come first. */
  lemma UpsertKeepsOthers<T>(l: seq<Named<T>>, next: seq<Named<T>>)
    ensures Without(Upsert(l, next), Names(next)) == Without(l, Names(next))
  {
    WithoutConcat(Without(l, Names(next)), next, Names(next));
    WithoutTwice(l, Names(next), Names(next));
    assert Names(next) + Names(next) == Names(next);
    WithoutAll(next, Names(next));
  }

  lemma {:induction false} UniqueConcat<T>(a: seq<Named<T>>, b: seq<Named<T>>)
    ensures UniqueNames(a + b) <==> UniqueNames(a) && UniqueNames(b) && Names(a) !! Names(b)
  {
    if a == [] {
      assert a + b == b;
    } else {
      assert (a + b)[1..] == a[1..] + b;
      UniqueConcat(a[1..], b);
      NamesOfConcat(a[1..], b);
    }
  }

  lemma {:induction false} UniqueWithout<T>(l: seq<Named<T>>, names: set<string>)
    requires UniqueNames(l)
    ensures UniqueNames(Without(l, names))
  {
    if l != [] {
      UniqueWithout(l[1..], names);
      NamesOfWithout(l[1..], names);
      if l[0].name in names {
        assert Without(l, names) == Without(l[1..], names);
      } else {
        assert Without(l, names)[1..] == Without(l[1..], names);
      }
    }
  }

  lemma UpsertKeepsUnique<T>(l: seq<Named<T>>, next: seq<Named<T>>)
    requires UniqueNames(l) && UniqueNames(next)
    ensures UniqueNames(Upsert(l, next))
  {
    UniqueWithout(l, Names(next));
    NamesOfWithout(l, Names(next));
    UniqueConcat(Without(l, Names(next)), next);
  }

  lemma {:induction false} LookupConcat<T>(a: seq<Named<T>>, b: seq<Named<T>>, name: string)
    ensures Lookup(a + b, name) == if Lookup(a, name).Some? then Lookup(a, name) else Lookup(b, name)
  {
    if a == [] {
      assert a + b == b;
    } else {
      assert (a + b)[1..] == a[1..] + b;
      LookupConcat(a[1..], b, name);
    }
  }

  lemma {:induction false} LookupWithout<T>(l: seq<Named<T>>, names: set<string>, name: string)
    ensures Lookup(Without(l, names), name) == if name in names then None else Lookup(l, name)
  {
    if l != [] {
      LookupWithout(l[1..], names, name);
      LookupConcat(if l[0].name in names then [] else [l[0]], Without(l[1..], names), name);
    }
  }

  lemma {:induction false} LookupFinds<T>(l: seq<Named<T>>, name: string)
    ensures Lookup(l, name).Some? <==> name in Names(l)
    ensures Lookup(l, name).Some? ==> Lookup(l, name).value in l && Lookup(l, name).value.name == name
  {
    if l != [] {
      LookupFinds(l[1..], name);
    }
  }

  /** What the list means: a map from names to entries. */
  ghost function AsMap<T>(l: seq<Named<T>>): map<string, Named<T>> {
    map n | n in Names(l) && Lookup(l, n).Some? :: Lookup(l, n).value
  }

  /** An upsert is a map update in which the incoming entries win. */
  lemma UpsertIsMapUpdate<T>(l: seq<Named<T>>, next: seq<Named<T>>)
    ensures AsMap(Upsert(l, next)) == AsMap(l) + AsMap(next)
  {
    NamesOfUpsert(l, next);
    forall n ensures Lookup(Upsert(l, next), n) == if n in Names(next) then Lookup(next, n) else Lookup(l, n) {
      LookupWithout(l, Names(next), n);
      LookupConcat(Without(l, Names(next)), next, n);
      LookupFinds(next, n);
    }
    forall n ensures Lookup(next, n).Some? <==> n in Names(next) { LookupFinds(next, n); }
    forall n ensures Lookup(l, n).Some? <==> n in Names(l) { LookupFinds(l, n); }
  }

  lemma WithoutIsMapRemoval<T>(l: seq<Named<T>>, names: set<string>)
    ensures AsMap(Without(l, names)) == AsMap(l) - names
  {
    NamesOfWithout(l, names);
    forall n ensures Lookup(Without(l, names), n) == if n in names then None else Lookup(l, n) {
      LookupWithout(l, names, n);
    }
  }

  // ---- the store's operations, as functions ----

  function KindName(cluster: string): string { "kind-" + cluster }

  /** The three lists upserted, the current context unchanged. */
  function Merged(c: Config, next: Config): Config {
    Config(Upsert(c.clusters, next.clusters), Upsert(c.users, next.users), Upsert(c.contexts, next.contexts), c.current)
  }

  /** One cluster, one user and one context that refers to both, under one name. */
  function Triple(name: string, cluster: ClusterInfo, user: UserInfo): Config {
    Config([Named(name, cluster)], [Named(name, user)],
           [Named(name, ContextInfo(name, Some(name), Some("default")))], None)
  }

  function Ensured(c: Config, name: string, cluster: ClusterInfo, user: UserInfo): Config {
    Merged(c, Triple(name, cluster, user)).(current := Some(name))
  }

  /** The entry of that name, else the first one. */
  function Preferred<T>(l: seq<Named<T>>, wanted: string): (r: seq<Named<T>>)
    ensures |r| <= 1 && (r == [] <==> l == [])
    ensures l != [] ==> r[0] in l
    ensures l != [] ==> if wanted in Names(l) then r[0].name == wanted else r[0] == l[0]
  {
    LookupFinds(l, wanted);
    if l == [] then []
    else match Lookup(l, wanted)
      case Some(e) => [e]
      case None => [l[0]]
  }

  function FromKind(c: Config, wanted: string, incoming: Config): Config {
    var context := Preferred(incoming.contexts, wanted);
    var triple := Config(Preferred(incoming.clusters, wanted), Preferred(incoming.users, wanted), context, None);
    Merged(c, triple).(current := if context == [] then c.current else Some(context[0].name))
  }

  function Removed(c: Config, name: string): Config {
    Config(Without(c.clusters, {name}), Without(c.users, {name}), Without(c.contexts, {name}),
           if c.current == Some(name) then None else c.current)
  }

  // ---- runs ----

  datatype Op =
    | Ensure(cluster: string, server: ClusterInfo, user: UserInfo)
    | KindOutput(cluster: string, incoming: Config)
    | Merge(next: Config)
    | Remove(cluster: string)

  function Apply(c: Config, op: Op): Config {
    match op
    case Ensure(cluster, server, user) => Ensured(c, KindName(cluster), server, user)
    case KindOutput(cluster, incoming) => FromKind(c, KindName(cluster), incoming)
    case Merge(next) => Merged(c, next)
    case Remove(cluster) => Removed(c, KindName(cluster))
  }

  function ApplyAll(c: Config, ops: seq<Op>): Config {
    if ops == [] then c else Apply(ApplyAll(c, ops[..|ops| - 1]), ops[|ops| - 1])
  }

  ghost predicate Unique(c: Config) { UniqueNames(c.clusters) && UniqueNames(c.users) && UniqueNames(c.contexts) }

  /** The current context, if set, names a context. */
  predicate CurrentExists(c: Config) { c.current.Some? ==> c.current.value in Names(c.contexts) }

  /** The meaning of a store: three maps. */
  datatype Maps = Maps(
    clusters: map<string, Named<ClusterInfo>>, users: map<string, Named<UserInfo>>, contexts: map<string, Named<ContextInfo>>)

  ghost function Meaning(c: Config): Maps { Maps(AsMap(c.clusters), AsMap(c.users), AsMap(c.contexts)) }

  ghost function Updated(m: Maps, n: Maps): Maps {
    Maps(m.clusters + n.clusters, m.users + n.users, m.contexts + n.contexts)
  }

  /** The incoming entries of an operation that adds. */
  function Incoming(op: Op): Config
    requires !op.Remove?
  {
    match op
    case Ensure(cluster, server, user) => Triple(KindName(cluster), server, user)
    case KindOutput(cluster, incoming) =>
      var wanted := KindName(cluster);
      Config(Preferred(incoming.clusters, wanted), Preferred(incoming.users, wanted), Preferred(incoming.contexts, wanted), None)
    case Merge(next) => next
  }

  /** What the operation does to the meaning: last write wins, removal forgets one name. */
  ghost function MapStep(m: Maps, op: Op): Maps {
    if op.Remove? then
      var gone := {KindName(op.cluster)};
      Maps(m.clusters - gone, m.users - gone, m.contexts - gone)
    else Updated(m, Meaning(Incoming(op)))
  }

  ghost function MapRun(m: Maps, ops: seq<Op>): Maps {
    if ops == [] then m else MapStep(MapRun(m, ops[..|ops| - 1]), ops[|ops| - 1])
  }

  /** Merges are used with duplicate-free lists only. */
  ghost predicate UniqueOp(op: Op) { op.Merge? ==> Unique(op.next) }

  lemma SingleIsUnique<T>(l: seq<Named<T>>)
    requires |l| <= 1
    ensures UniqueNames(l)
  {
    assert l != [] ==> l[1..] == [];
  }

  lemma ApplyKeepsUnique(c: Config, op: Op)
    requires Unique(c) && UniqueOp(op)
    ensures Unique(Apply(c, op))
  {
    if op.Remove? {
      UniqueWithout(c.clusters, {KindName(op.cluster)});
      UniqueWithout(c.users, {KindName(op.cluster)});
      UniqueWithout(c.contexts, {KindName(op.cluster)});
    } else {
      var next := Incoming(op);
      if !op.Merge? {
        SingleIsUnique(next.clusters);
        SingleIsUnique(next.users);
        SingleIsUnique(next.contexts);
      }
      UpsertKeepsUnique(c.clusters, next.clusters);
      UpsertKeepsUnique(c.users, next.users);
      UpsertKeepsUnique(c.contexts, next.contexts);
    }
  }

  /** Names stay unique over every run. */
  lemma {:induction false} RunKeepsUnique(c: Config, ops: seq<Op>)
    requires Unique(c) && forall i :: 0 <= i < |ops| ==> UniqueOp(ops[i])
    ensures Unique(ApplyAll(c, ops))
  {
    if ops != [] {
      RunKeepsUnique(c, ops[..|ops| - 1]);
      ApplyKeepsUnique(ApplyAll(c, ops[..|ops| - 1]), ops[|ops| - 1]);
    }
  }

  lemma ApplyRefinesMap(c: Config, op: Op)
    ensures Meaning(Apply(c, op)) == MapStep(Meaning(c), op)
  {
    if op.Remove? {
      var gone := {KindName(op.cluster)};
      WithoutIsMapRemoval(c.clusters, gone);
      WithoutIsMapRemoval(c.users, gone);
      WithoutIsMapRemoval(c.contexts, gone);
    } else {
      var next := Incoming(op);
      UpsertIsMapUpdate(c.clusters, next.clusters);
      UpsertIsMapUpdate(c.users, next.users);
      UpsertIsMapUpdate(c.contexts, next.contexts);
    }
  }

  /** Over every run the store means what the same run on maps gives. */
  lemma {:induction false} RunRefinesMap(c: Config, ops: seq<Op>)
    ensures Meaning(ApplyAll(c, ops)) == MapRun(Meaning(c), ops)
  {
    if ops != [] {
      RunRefinesMap(c, ops[..|ops| - 1]);
      ApplyRefinesMap(ApplyAll(c, ops[..|ops| - 1]), ops[|ops| - 1]);
    }
  }

  lemma ApplyKeepsCurrent(c: Config, op: Op)
    requires CurrentExists(c)
    ensures CurrentExists(Apply(c, op))
  {
    if op.Remove? {
      NamesOfWithout(c.contexts, {KindName(op.cluster)});
    } else {
      NamesOfUpsert(c.contexts, Incoming(op).contexts);
    }
  }

  /** A current context that named an existing context never comes to dangle. */
  lemma {:induction false} RunKeepsCurrent(c: Config, ops: seq<Op>)
    requires CurrentExists(c)
    ensures CurrentExists(ApplyAll(c, ops))
  {
    if ops != [] {
      RunKeepsCurrent(c, ops[..|ops| - 1]);
      ApplyKeepsCurrent(ApplyAll(c, ops[..|ops| - 1]), ops[|ops| - 1]);
    }
  }

  /** Every name a run may touch in one of the lists. */
  ghost function Touched(ops: seq<Op>): set<string> {
    if ops == [] then {}
    else
      var op := ops[|ops| - 1];
      Touched(ops[..|ops| - 1]) +
      if op.Remove? then {KindName(op.cluster)}
      else Names(Incoming(op).clusters) + Names(Incoming(op).users) + Names(Incoming(op).contexts)
  }

  lemma WithoutMore<T>(l: seq<Named<T>>, next: seq<Named<T>>, names: set<string>)
    requires Names(next) <= names
    ensures Without(Upsert(l, next), names) == Without(l, names)
  {
    WithoutConcat(Without(l, Names(next)), next, names);
    WithoutTwice(l, Names(next), names);
    assert Names(next) + names == names;
    WithoutAll(next, names);
  }

  lemma ApplyKeepsOthers(c: Config, op: Op, names: set<string>)
    requires Touched([op]) <= names
    ensures var c' := Apply(c, op);
      && Without(c'.clusters, names) == Without(c.clusters, names)
      && Without(c'.users, names) == Without(c.users, names)
      && Without(c'.contexts, names) == Without(c.contexts, names)
  {
    assert [op][..0] == [];
    if op.Remove? {
      var gone := {KindName(op.cluster)};
      assert gone + names == names;
      WithoutTwice(c.clusters, gone, names);
      WithoutTwice(c.users, gone, names);
      WithoutTwice(c.contexts, gone, names);
    } else {
      var next := Incoming(op);
      WithoutMore(c.clusters, next.clusters, names);
      WithoutMore(c.users, next.users, names);
      WithoutMore(c.contexts, next.contexts, names);
    }
  }

  /** Entries whose names a run does not touch stay, with their contents and in their order. */
  lemma {:induction false} RunKeepsOthers(c: Config, ops: seq<Op>, names: set<string>)
    requires Touched(ops) <= names
    ensures var c' := ApplyAll(c, ops);
      && Without(c'.clusters, names) == Without(c.clusters, names)
      && Without(c'.users, names) == Without(c.users, names)
      && Without(c'.contexts, names) == Without(c.contexts, names)
  {
    if ops != [] {
      var op := ops[|ops| - 1];
      assert [op][..0] == [] && Touched([]) == {};
      RunKeepsOthers(c, ops[..|ops| - 1], names);
      ApplyKeepsOthers(ApplyAll(c, ops[..|ops| - 1]), op, names);
    }
  }

  /** Merging is associative, list by list and entry by entry. */
  lemma MergeAssociative(a: Config, b: Config, c: Config)
    ensures Merged(Merged(a, b), c) == Merged(a, Merged(b, c))
  {
    UpsertAssociative(a.clusters, b.clusters, c.clusters);
    UpsertAssociative(a.users, b.users, c.users);
    UpsertAssociative(a.contexts, b.contexts, c.contexts);
  }

  /** Ensuring a context twice under one name is ensuring it once, with the later data. */
  lemma EnsureAbsorbs(c: Config, name: string, c1: ClusterInfo, u1: UserInfo, c2: ClusterInfo, u2: UserInfo)
    ensures Ensured(Ensured(c, name, c1, u1), name, c2, u2) == Ensured(c, name, c2, u2)
  {
    var t1, t2 := Triple(name, c1, u1), Triple(name, c2, u2);
    UpsertAbsorbs(c.clusters, t1.clusters, t2.clusters);
    UpsertAbsorbs(c.users, t1.users, t2.users);
    UpsertAbsorbs(c.contexts, t1.contexts, t2.contexts);
  }

  /** Different clusters have different entries. */
  lemma KindNamesDiffer(a: string, b: string)
    ensures KindName(a) == KindName(b) ==> a == b
  {
    assert KindName(a)[5..] == a && KindName(b)[5..] == b;
  }

  /** The entry of one cluster in the store. */
  ghost predicate HasCluster(c: Config, cluster: string, server: ClusterInfo, user: UserInfo) {
    && Lookup(c.clusters, KindName(cluster)) == Some(Named(KindName(cluster), server))
    && Lookup(c.users, KindName(cluster)) == Some(Named(KindName(cluster), user))
    && Lookup(c.contexts, KindName(cluster))
       == Some(Named(KindName(cluster), ContextInfo(KindName(cluster), Some(KindName(cluster)), Some("default"))))
  }

  /** Ensuring a cluster gives it its entries, and ensuring or removing it leaves every other cluster its own. */
  lemma ClustersAreIndependent(c: Config, cluster: string, server: ClusterInfo, user: UserInfo, other: string)
    ensures HasCluster(Apply(c, Ensure(cluster, server, user)), cluster, server, user)
    ensures other != cluster ==> forall op :: op == Ensure(cluster, server, user) || op == Remove(cluster) ==>
      && Lookup(Apply(c, op).clusters, KindName(other)) == Lookup(c.clusters, KindName(other))
      && Lookup(Apply(c, op).users, KindName(other)) == Lookup(c.users, KindName(other))
      && Lookup(Apply(c, op).contexts, KindName(other)) == Lookup(c.contexts, KindName(other))
  {
    var name, t := KindName(cluster), Triple(KindName(cluster), server, user);
    OneUpserted(c.clusters, t.clusters[0], KindName(other));
    OneUpserted(c.users, t.users[0], KindName(other));
    OneUpserted(c.contexts, t.contexts[0], KindName(other));
    OneUpserted(c.clusters, t.clusters[0], name);
    OneUpserted(c.users, t.users[0], name);
    OneUpserted(c.contexts, t.contexts[0], name);
    KindNamesDiffer(cluster, other);
    LookupWithout(c.clusters, {name}, KindName(other));
    LookupWithout(c.users, {name}, KindName(other));
    LookupWithout(c.contexts, {name}, KindName(other));
  }

  lemma OneUpserted<T>(l: seq<Named<T>>, e: Named<T>, name: string)
    ensures Lookup(Upsert(l, [e]), name) == if name == e.name then Some(e) else Lookup(l, name)
  {
    assert [e][1..] == [] && Names([e]) == {e.name};
    LookupConcat(Without(l, Names([e])), [e], name);
    LookupWithout(l, {e.name}, name);
  }

  /** After removing a cluster nothing of it is left. */
  lemma RemoveTakesAll(c: Config, cluster: string)
    ensures var c' := Apply(c, Remove(cluster));
      KindName(cluster) !in Names(c'.clusters) + Names(c'.users) + Names(c'.contexts) && c'.current != Some(KindName(cluster))
  {
    NamesOfWithout(c.clusters, {KindName(cluster)});
    NamesOfWithout(c.users, {KindName(cluster)});
    NamesOfWithout(c.contexts, {KindName(cluster)});
  }

  /** Removing after ensuring leaves the store as it was but for that name, and no current context. */
  lemma RemoveUndoesEnsure(c: Config, name: string, cluster: ClusterInfo, user: UserInfo)
    ensures Removed(Ensured(c, name, cluster, user), name) == Removed(c, name).(current := None)
    ensures name !in Names(c.clusters) + Names(c.users) + Names(c.contexts) ==>
              Removed(Ensured(c, name, cluster, user), name) == c.(current := None)
  {
    var t := Triple(name, cluster, user);
    WithoutMore(c.clusters, t.clusters, {name});
    WithoutMore(c.users, t.users, {name});
    WithoutMore(c.contexts, t.contexts, {name});
    if name !in Names(c.clusters) + Names(c.users) + Names(c.contexts) {
      WithoutNone(c.clusters, {name});
      WithoutNone(c.users, {name});
      WithoutNone(c.contexts, {name});
    }
  }

  lemma {:induction false} WithoutShrinks<T>(l: seq<Named<T>>, name: string)
    ensures |Without(l, {name})| <= |l|
    ensures |Without(l, {name})| < |l| <==> name in Names(l)
  {
    if l != [] { WithoutShrinks(l[1..], name); }
  }

  // ---- references between the lists ----

  predicate RefersTo(x: ContextInfo, name: string) { x.cluster == name || x.user == Some(name) }

  /** The cluster and the user of a context exist. */
  predicate Resolves(x: ContextInfo, clusters: set<string>, users: set<string>) {
    x.cluster in clusters && (x.user.Some? ==> x.user.value in users)
  }

  ghost predicate AllResolve(contexts: seq<Named<ContextInfo>>, clusters: set<string>, users: set<string>) {
    forall e :: e in contexts ==> Resolves(e.value, clusters, users)
  }

  ghost predicate RefsOk(c: Config) { AllResolve(c.contexts, Names(c.clusters), Names(c.users)) }

  lemma {:induction false} MemberOfWithout<T>(l: seq<Named<T>>, names: set<string>, e: Named<T>)
    ensures e in Without(l, names) <==> e in l && e.name !in names
  {
    if l != [] { MemberOfWithout(l[1..], names, e); }
  }

  /** Removal leaves a reference dangling exactly when a context of another name refers to the removed name. */
  lemma RemoveKeepsRefsIff(c: Config, name: string)
    requires RefsOk(c)
    ensures RefsOk(Removed(c, name)) <==> forall e :: e in c.contexts && e.name != name ==> !RefersTo(e.value, name)
  {
    NamesOfWithout(c.clusters, {name});
    NamesOfWithout(c.users, {name});
    forall e ensures e in Without(c.contexts, {name}) <==> e in c.contexts && e.name != name {
      MemberOfWithout(c.contexts, {name}, e);
    }
  }

  /** Importing keeps all references good exactly when the imported context's own lead to what was there or comes with it. */
  lemma KindOutputKeepsRefsIff(c: Config, wanted: string, incoming: Config)
    requires RefsOk(c)
    ensures RefsOk(FromKind(c, wanted, incoming)) <==>
      AllResolve(Preferred(incoming.contexts, wanted),
                 Names(c.clusters) + Names(Preferred(incoming.clusters, wanted)),
                 Names(c.users) + Names(Preferred(incoming.users, wanted)))
  {
    var contexts := Preferred(incoming.contexts, wanted);
    NamesOfUpsert(c.clusters, Preferred(incoming.clusters, wanted));
    NamesOfUpsert(c.users, Preferred(incoming.users, wanted));
    forall e ensures e in Upsert(c.contexts, contexts) <==> (e in c.contexts && e.name !in Names(contexts)) || e in contexts {
      MemberOfWithout(c.contexts, Names(contexts), e);
    }
  }

  /** Ensuring a context keeps all references good. */
  lemma EnsureKeepsRefs(c: Config, name: string, cluster: ClusterInfo, user: UserInfo)
    requires RefsOk(c)
    ensures RefsOk(Ensured(c, name, cluster, user))
  {
    var t := Triple(name, cluster, user);
    NamesOfUpsert(c.clusters, t.clusters);
    NamesOfUpsert(c.users, t.users);
    forall e ensures e in Upsert(c.contexts, t.contexts) ==> e in c.contexts || e in t.contexts {
      MemberOfWithout(c.contexts, Names(t.contexts), e);
    }
  }

  // ---- the store ----

  /** The names of a list, gathered in one pass. */
  method CollectNames<T>(l: seq<Named<T>>) returns (names: set<string>)
    ensures names == Names(l)
  {
    names := {};
    for i := 0 to |l|
      invariant names == Names(l[..i])
    {
      NamesOfConcat(l[..i], [l[i]]);
      assert l[..i + 1] == l[..i] + [l[i]];
      assert Names([l[i]]) == {l[i].name};
      names := names + {l[i].name};
    }
    assert l[..|l|] == l;
  }

  /** Keeps the entries whose names are not in the set, in one pass. */
  method Retain<T>(l: seq<Named<T>>, names: set<string>) returns (kept: seq<Named<T>>)
    ensures kept == Without(l, names)
  {
    kept := [];
    for i := 0 to |l|
      invariant kept == Without(l[..i], names)
    {
      WithoutConcat(l[..i], [l[i]], names);
      assert l[..i + 1] == l[..i] + [l[i]];
      assert [l[i]][1..] == [];
      if l[i].name !in names { kept := kept + [l[i]]; }
    }
    assert l[..|l|] == l;
  }

  /** What the URL parser says of a server address: its scheme, or why it is none. */
  type UrlParser = string -> Result<string, string>

  class Store {
    var clusters: seq<Named<ClusterInfo>>
    var users: seq<Named<UserInfo>>
    var contexts: seq<Named<ContextInfo>>
    var currentContext: Option<string>

    function Contents(): Config
      reads this
    {
      Config(clusters, users, contexts, currentContext)
    }

    constructor (c: Config)
      ensures Contents() == c
    {
      clusters, users, contexts, currentContext := c.clusters, c.users, c.contexts, c.current;
    }

    method Merge(next: Config)
      modifies this
      ensures Contents() == Merged(old(Contents()), next)
    {
      var incomingClusters := CollectNames(next.clusters);
      var incomingUsers := CollectNames(next.users);
      var incomingContexts := CollectNames(next.contexts);
      clusters := Retain(clusters, incomingClusters);
      users := Retain(users, incomingUsers);
      contexts := Retain(contexts, incomingContexts);
      clusters := clusters + next.clusters;
      users := users + next.users;
      contexts := contexts + next.contexts;
    }

    /** Only servers that parse and are https are accepted; a refusal changes nothing. */
    method EnsureContext(cluster: string, info: ClusterInfo, user: UserInfo, parse: UrlParser)
      returns (r: Result<(), StoreError>)
      modifies this
      ensures r.Success? <==> parse(info.server) == Success("https")
      ensures r.Failure? ==> r.error.InvalidServer? && r.error.url == info.server && Contents() == old(Contents())
      ensures r.Success? ==> Contents() == Apply(old(Contents()), Ensure(cluster, info, user))
    {
      var parsed := parse(info.server);
      if parsed.Failure? {
        return Failure(InvalidServer(info.server, parsed.error));
      }
      if parsed.value != "https" {
        return Failure(InvalidServer(info.server, "only https:// servers are accepted"));
      }
      var name := KindName(cluster);
      Merge(Triple(name, info, user));
      currentContext := Some(name);
      return Success(());
    }

    /** Imports the entries of that name, or the first ones; a document that does not parse changes nothing. */
    method EnsureContextFromKindOutput(cluster: string, parsed: Result<Config, string>) returns (r: Result<(), StoreError>)
      modifies this
      ensures r.Success? <==> parsed.Success?
      ensures r.Failure? ==> r.error == BadYaml(parsed.error) && Contents() == old(Contents())
      ensures r.Success? ==> Contents() == Apply(old(Contents()), KindOutput(cluster, parsed.value))
    {
      if parsed.Failure? {
        return Failure(BadYaml(parsed.error));
      }
      var incoming, wanted := parsed.value, KindName(cluster);
      var triple := Config(Preferred(incoming.clusters, wanted), Preferred(incoming.users, wanted), Preferred(incoming.contexts, wanted), None);
      Merge(triple);
      if triple.contexts != [] { currentContext := Some(triple.contexts[0].name); }
      return Success(());
    }

    /** Whether anything was removed. */
    method RemoveContext(cluster: string) returns (removed: bool)
      modifies this
      ensures Contents() == Apply(old(Contents()), Remove(cluster))
      ensures removed <==> KindName(cluster) in Names(old(clusters)) + Names(old(users)) + Names(old(contexts))
    {
      var name := KindName(cluster);
      var before := |clusters| + |users| + |contexts|;
      WithoutShrinks(clusters, name);
      WithoutShrinks(users, name);
      WithoutShrinks(contexts, name);
      clusters := Retain(clusters, {name});
      users := Retain(users, {name});
      contexts := Retain(contexts, {name});
      if currentContext == Some(name) { currentContext := None; }
      removed := before != |clusters| + |users| + |contexts|;
    }

    /** Whether a context of this name exists. */
    method VerifyContext(name: string) returns (found: bool)
      ensures found <==> name in Names(contexts)
    {
      var names := CollectNames(contexts);
      found := name in names;
    }
  }
}
