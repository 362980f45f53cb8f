/** The environment store: the workspace's and collections' environments,
    the collection to active-environment selection, and the sidebar and
    progress flags. REST calls are parameters: each operation receives the
    outcome its call settled to. */
module Environment {
  import opened Common
  import opened Seqs

  datatype EnvMeta = EnvMeta(kind: string, visibility: Option<int>)
  datatype EnvRef = EnvRef(id: Id, workspaceId: Id, collectionId: Option<Id>)
  datatype Env = Env(name: string, variables: map<string, string>, meta: EnvMeta, ref: EnvRef)

  /** The value of `EEnvironmentScope.Collection`. */
  const CollectionScope: string := "C"

  /** The body sent to create an environment (it only reaches the REST call). */
  datatype EnvPayload = EnvPayload(name: string, variables: map<string, string>, meta: EnvMeta,
                                   workspaceId: Id, collectionId: Option<Id>)

  /** Calls the store makes on the collection-environment tree provider. */
  datatype EnvTdpEvent = InitEnvs(envs: seq<Env>) | AddEnvItem(env: Env) | RemoveEnvItem(id: Id)

  /* ---------- initialize: grouping by collection ---------- */

  /** `initialize` groups the environments whose `__meta.type` is `'C'` or `'P'`. */
  predicate IsGrouped(e: Env) {
    e.meta.kind == "C" || e.meta.kind == "P"
  }

  /** The object key an environment is grouped under: its `collectionId`,
      which JavaScript turns into the key "undefined" when it is absent. */
  function GroupKey(e: Env): string {
    e.ref.collectionId.GetOr("undefined")
  }

  function KeyIs(k: string): Env -> bool {
    (e: Env) => GroupKey(e) == k
  }

  function InGroup(k: string): Env -> bool {
    (e: Env) => IsGrouped(e) && GroupKey(e) == k
  }

  /** `cEnvs`: the `reduce` that collects each environment under its group key, in list order. */
  function Grouped(es: seq<Env>): map<string, seq<Env>>
    decreases |es|
  {
    if es == [] then map[]
    else
      var p := Grouped(es[..|es| - 1]);
      var e := es[|es| - 1];
      var k := GroupKey(e);
      p[k := (if k in p then p[k] else []) + [e]]
  }

  /** `Object.keys` of the object that a group's `reduce` keys by environment id:
      each id once, where it was first inserted. */
  function IdKeys(g: seq<Env>): seq<Id>
    decreases |g|
  {
    if g == [] then []
    else
      var ks := IdKeys(g[..|g| - 1]);
      var id := g[|g| - 1].ref.id;
      if id in ks then ks else ks + [id]
  }

  /** `Object.keys(...)[0] || ''`. */
  function FirstOrEmpty(ids: seq<Id>): Id {
    if ids != [] && ids[0] != "" then ids[0] else ""
  }

  /** The keys under which `initialize` records an active environment. */
  function GroupKeys(es: seq<Env>): set<string> {
    set e | e in es && IsGrouped(e) :: GroupKey(e)
  }

  /** The active environment `initialize` intends for group `k`: the id of the
      first environment of that group, in list order. */
  function FirstInGroup(es: seq<Env>, k: string): (id: Id)
    requires k in GroupKeys(es)
    ensures exists i :: (0 <= i < |es| && InGroup(k)(es[i]) && es[i].ref.id == id
                         && forall j :: 0 <= j < i ==> !InGroup(k)(es[j]))
  {
    GroupKeysIff(es, k);
    FilterHeadIsFirst(es, InGroup(k));
    es[IndexOfFirst(es, InGroup(k)).value].ref.id
  }

  /** `m` holds one entry per group key, the id of that group's first environment. */
  ghost predicate ActiveFor(es: seq<Env>, m: map<string, Id>) {
    && (forall k :: k in m <==> k in GroupKeys(es))
    && (forall k :: k in m ==> m[k] == FirstInGroup(es, k))
  }

  /** The groups of `reduce` are exactly the filters by group key. */
  lemma {:induction false} GroupedIsFilter(s: seq<Env>, k: string)
    ensures k in Grouped(s) <==> Filter(s, KeyIs(k)) != []
    ensures k in Grouped(s) ==> Grouped(s)[k] == Filter(s, KeyIs(k))
    decreases |s|
  {
    if s != [] {
      var n := |s| - 1;
      var pre, e := s[..n], s[n];
      assert s == pre + [e];
      GroupedIsFilter(pre, k);
      FilterConcat(pre, [e], KeyIs(k));
      var g := Grouped(pre);
      assert Grouped(s) == g[GroupKey(e) := (if GroupKey(e) in g then g[GroupKey(e)] else []) + [e]];
      if GroupKey(e) == k {
        assert Filter([e], KeyIs(k)) == [e];
      } else {
        assert Filter([e], KeyIs(k)) == [];
        assert Filter(s, KeyIs(k)) == Filter(pre, KeyIs(k));
      }
    }
  }

  /** Every environment id of a non-empty group is keyed, the first one first. */
  lemma {:induction false} IdKeysHead(g: seq<Env>)
    requires g != []
    ensures IdKeys(g) != [] && IdKeys(g)[0] == g[0].ref.id
    decreases |g|
  {
    if |g| > 1 {
      var pre := g[..|g| - 1];
      IdKeysHead(pre);
      assert pre[0] == g[0];
    }
  }

  /** The per-group key lists `_cEnvs` that `initialize` builds from `envs`. */
  function KeyedGroups(es: seq<Env>): map<string, seq<Id>> {
    var cEnvs := Grouped(Filter(es, IsGrouped));
    map k | k in cEnvs :: IdKeys(cEnvs[k])
  }

  /** A key is a group key exactly when some environment is in its group. */
  lemma GroupKeysIff(es: seq<Env>, k: string)
    ensures k in GroupKeys(es) <==> Filter(es, InGroup(k)) != []
  {
    FilterEmptyIff(es, InGroup(k));
    if k in GroupKeys(es) {
      var e :| e in es && IsGrouped(e) && GroupKey(e) == k;
      var i :| 0 <= i < |es| && es[i] == e;
      assert InGroup(k)(es[i]);
    } else {
      forall i | 0 <= i < |es| ensures !InGroup(k)(es[i]) {
        assert es[i] in es;
      }
    }
  }

  /** The group `cEnvs[k]` is the filter of all environments by `InGroup(k)`. */
  lemma GroupOfKey(es: seq<Env>, k: string)
    ensures k in Grouped(Filter(es, IsGrouped)) <==> Filter(es, InGroup(k)) != []
    ensures k in Grouped(Filter(es, IsGrouped)) ==> Grouped(Filter(es, IsGrouped))[k] == Filter(es, InGroup(k))
  {
    GroupedIsFilter(Filter(es, IsGrouped), k);
    FilterFilter(es, IsGrouped, KeyIs(k), InGroup(k));
  }

  /** The intended active environment is the head of its group. */
  lemma FirstInGroupIsHead(es: seq<Env>, k: string)
    requires k in GroupKeys(es)
    ensures Filter(es, InGroup(k)) != [] && FirstInGroup(es, k) == Filter(es, InGroup(k))[0].ref.id
  {
    GroupKeysIff(es, k);
    FilterHeadIsFirst(es, InGroup(k));
  }

  /** For each key, taking the first key of its keyed group yields the intended active environment. */
  lemma KeyedGroupsYieldActive(es: seq<Env>, k: string)
    ensures k in KeyedGroups(es) <==> k in GroupKeys(es)
    ensures k in KeyedGroups(es) ==> FirstOrEmpty(KeyedGroups(es)[k]) == FirstInGroup(es, k)
  {
    GroupKeysIff(es, k);
    GroupOfKey(es, k);
    if k in GroupKeys(es) {
      FirstInGroupIsHead(es, k);
      IdKeysHead(Filter(es, InGroup(k)));
    }
  }

  /** A map that takes the first key of every keyed group has one entry per
      group key, holding the id of the group's first environment. */
  lemma ActiveEnvsAreIntended(es: seq<Env>, active: map<string, Id>)
    requires active.Keys == KeyedGroups(es).Keys
    requires forall k :: k in KeyedGroups(es) ==> active[k] == FirstOrEmpty(KeyedGroups(es)[k])
    ensures ActiveFor(es, active)
  {
    forall k | k in active ensures k in GroupKeys(es) && active[k] == FirstInGroup(es, k) {
      KeyedGroupsYieldActive(es, k);
    }
    forall k | k in GroupKeys(es) ensures k in active {
      KeyedGroupsYieldActive(es, k);
    }
  }

  /** The `for (let key in _cEnvs)` loop: the first key of each group, or `''`. */
  method ActiveEnvs(groups: map<string, seq<Id>>) returns (active: map<string, Id>)
    ensures active.Keys == groups.Keys
    ensures forall k :: k in groups ==> active[k] == FirstOrEmpty(groups[k])
  {
    active := map[];
    var todo := groups.Keys;
    while todo != {}
      invariant todo <= groups.Keys
      invariant active.Keys == groups.Keys - todo
      invariant forall k :: k in active ==> active[k] == FirstOrEmpty(groups[k])
      decreases todo
    {
      var k :| k in todo;
      active := active[k := FirstOrEmpty(groups[k])];
      todo := todo - {k};
    }
  }

  /* ---------- the local patches ---------- */

  /** `setEnvVariables`: the environments with id `id` get `variables`; nothing else changes. */
  function WithVariables(es: seq<Env>, id: Id, variables: map<string, string>): (r: seq<Env>)
    ensures |r| == |es|
    ensures forall i :: 0 <= i < |es| ==> r[i].(variables := es[i].variables) == es[i]
    ensures forall i :: 0 <= i < |es| ==>
      r[i].variables == if es[i].ref.id == id then variables else es[i].variables
  {
    seq(|es|, i requires 0 <= i < |es| =>
      if es[i].ref.id == id then es[i].(variables := variables) else es[i])
  }

  function InCollection(c: Id): Env -> bool {
    (e: Env) => e.ref.collectionId == Some(c)
  }

  /** `getCollectionEnvs`: exactly the environments of collection `c`, in their order. */
  function CollectionEnvs(es: seq<Env>, c: Id): (r: seq<Env>)
    ensures forall e :: e in r <==> e in es && e.ref.collectionId == Some(c)
    ensures forall e :: e in es && e.ref.collectionId == Some(c) ==> multiset(r)[e] == multiset(es)[e]
    ensures Subsequence(r, es)
  {
    Filter(es, InCollection(c))
  }

  /** `updateEnvironment`: every environment with the response's id is replaced by it whole. */
  function Replaced(es: seq<Env>, env: Env): (r: seq<Env>)
    ensures |r| == |es|
    ensures forall i :: 0 <= i < |es| ==> r[i].ref.id == es[i].ref.id
    ensures forall i :: 0 <= i < |es| ==> es[i].ref.id == env.ref.id ==> r[i] == env
    ensures forall i :: 0 <= i < |es| ==> es[i].ref.id != env.ref.id ==> r[i] == es[i]
  {
    seq(|es|, i requires 0 <= i < |es| => if es[i].ref.id == env.ref.id then env else es[i])
  }

  function HasId(id: Id): Env -> bool {
    (e: Env) => e.ref.id == id
  }

  /** An environment's id, `__ref.id`. */
  function EnvId(e: Env): Id {
    e.ref.id
  }

  /** Whether `deleteEnvironment` tells the tree provider: the environment existed
      and is collection-scoped. */
  function RemovesTreeItem(es: seq<Env>, id: Id): (b: bool)
    ensures b <==> exists i :: (0 <= i < |es| && es[i].ref.id == id && es[i].meta.kind == CollectionScope
                                && forall j :: 0 <= j < i ==> es[j].ref.id != id)
  {
    match Find(es, HasId(id))
    case None => false
    case Some(e) => e.meta.kind == CollectionScope
  }

  /* ---------- the store ---------- */

  class EnvStore {
    var tabColMap: map<Id, Id>
    var colEnvMap: map<Id, Id>
    var isEnvSidebarOpen: bool
    var tdpRegistered: bool
    var envs: seq<Env>
    /** Not part of the initial state: `undefined` until the first toggle. */
    var isProgressing: Option<bool>
    /** The key `initialize` writes; it is not part of the initial state. */
    var activeTabCollectionEnvs: Option<map<string, Id>>
    var tdpLog: seq<EnvTdpEvent>

    constructor ()
      ensures tabColMap == map[] && colEnvMap == map[] && !isEnvSidebarOpen
      ensures !tdpRegistered && envs == [] && isProgressing == None
      ensures activeTabCollectionEnvs == None && tdpLog == []
    {
      tabColMap, colEnvMap, isEnvSidebarOpen := map[], map[], false;
      tdpRegistered, envs, isProgressing := false, [], None;
      activeTabCollectionEnvs, tdpLog := None, [];
    }

    /** `initialize`: replaces `envs` and records the first environment of each
        collection group as its active one. */
    method Initialize(es: seq<Env>)
      modifies this`envs, this`activeTabCollectionEnvs
      ensures envs == es && activeTabCollectionEnvs.Some?
      ensures ActiveFor(es, activeTabCollectionEnvs.value)
    {
      var keyed := KeyedGroups(es);
      var active := ActiveEnvs(keyed);
      ActiveEnvsAreIntended(es, active);
      envs := es;
      activeTabCollectionEnvs := Some(active);
    }

    method RegisterTdp()
      modifies this`tdpRegistered, this`tdpLog
      ensures tdpRegistered && tdpLog == old(tdpLog) + [InitEnvs(envs)]
    {
      tdpLog := tdpLog + [InitEnvs(envs)];
      tdpRegistered := true;
    }

    method UnregisterTdp()
      modifies this`tdpRegistered
      ensures !tdpRegistered
    {
      tdpRegistered := false;
    }

    method ToggleEnvSidebar()
      modifies this`isEnvSidebarOpen
      ensures isEnvSidebarOpen == !old(isEnvSidebarOpen)
    {
      isEnvSidebarOpen := !isEnvSidebarOpen;
    }

    /** Sets the flag to its argument (`undefined` when called without one); it never negates. */
    method ToggleProgressBar(flag: Option<bool>)
      modifies this`isProgressing
      ensures isProgressing == flag
    {
      isProgressing := flag;
    }

    method SetEnvVariables(envId: Id, variables: map<string, string>)
      modifies this`envs
      ensures envs == WithVariables(old(envs), envId, variables)
    {
      envs := WithVariables(envs, envId, variables);
    }

    method SetCollectionActiveEnv(collectionId: Id, envId: Id)
      modifies this`colEnvMap
      ensures Lookup(colEnvMap, collectionId) == Some(envId)
      ensures forall k :: k != collectionId ==> Lookup(colEnvMap, k) == Lookup(old(colEnvMap), k)
    {
      colEnvMap := colEnvMap[collectionId := envId];
    }

    method GetCollectionActiveEnv(collectionId: Id) returns (envId: Option<Id>)
      ensures envId.Some? <==> collectionId in colEnvMap
      ensures envId.Some? ==> envId.value == colEnvMap[collectionId]
    {
      envId := Lookup(colEnvMap, collectionId);
    }

    method GetCollectionEnvs(collectionId: Id) returns (r: seq<Env>)
      ensures forall e :: e in r <==> e in envs && e.ref.collectionId == Some(collectionId)
      ensures forall e :: e in envs && e.ref.collectionId == Some(collectionId) ==> multiset(r)[e] == multiset(envs)[e]
      ensures Subsequence(r, envs)
    {
      r := CollectionEnvs(envs, collectionId);
    }

    /** `fetchEnvironment`: returns the fetched environment without storing it. */
    method FetchEnvironment(envId: Id, outcome: RestOutcome<Env>) returns (settled: Settled, env: Option<Env>)
      modifies this`isProgressing
      ensures isProgressing == Some(false)
      ensures settled == SettledBy(outcome, false)
      ensures env == if outcome.Success? then Some(outcome.data) else None
    {
      ToggleProgressBar(Some(true));
      env := if outcome.Success? then Some(outcome.data) else None;
      ToggleProgressBar(Some(false));
      settled := SettledBy(outcome, false);
    }

    /** `createEnvironment`: on success appends the server's environment, and tells
        the tree provider only about a collection-scoped one. */
    method CreateEnvironment(payload: EnvPayload, outcome: RestOutcome<Env>) returns (settled: Settled)
      modifies this`envs, this`tdpLog, this`isProgressing
      ensures isProgressing == Some(false)
      ensures settled == SettledBy(outcome, false)
      ensures envs == if outcome.Success? then old(envs) + [outcome.data] else old(envs)
      ensures tdpLog == old(tdpLog) +
        if outcome.Success? && outcome.data.meta.kind == CollectionScope && tdpRegistered
        then [AddEnvItem(outcome.data)] else []
    {
      ToggleProgressBar(Some(true));
      if outcome.Success? {
        var env := outcome.data;
        if env.meta.kind == CollectionScope && tdpRegistered {
          tdpLog := tdpLog + [AddEnvItem(env)];
        }
        envs := envs + [env];
      }
      ToggleProgressBar(Some(false));
      settled := SettledBy(outcome, false);
    }

    /** `updateEnvironment`: on success the environment with the response's id is replaced by the response. */
    method UpdateEnvironment(envId: Id, body: map<string, string>, outcome: RestOutcome<Env>) returns (settled: Settled)
      modifies this`envs, this`isProgressing
      ensures isProgressing == Some(false)
      ensures settled == SettledBy(outcome, false)
      ensures envs == if outcome.Success? then Replaced(old(envs), outcome.data) else old(envs)
    {
      ToggleProgressBar(Some(true));
      if outcome.Success? {
        envs := Replaced(envs, outcome.data);
      }
      ToggleProgressBar(Some(false));
      settled := SettledBy(outcome, false);
    }

    /** `deleteEnvironment`: on success drops every environment with the id, telling the
        tree provider only when the first of them is collection-scoped. */
    method DeleteEnvironment(envId: Id, outcome: RestOutcome<()>) returns (settled: Settled)
      modifies this`envs, this`tdpLog, this`isProgressing
      ensures isProgressing == Some(false)
      ensures settled == SettledBy(outcome, false)
      ensures envs == if outcome.Success? then Without(old(envs), EnvId, envId) else old(envs)
      ensures tdpLog == old(tdpLog) +
        if outcome.Success? && tdpRegistered && RemovesTreeItem(old(envs), envId)
        then [RemoveEnvItem(envId)] else []
    {
      ToggleProgressBar(Some(true));
      if outcome.Success? {
        var found := Find(envs, HasId(envId));
        if found.Some? && found.value.meta.kind == CollectionScope && tdpRegistered {
          tdpLog := tdpLog + [RemoveEnvItem(envId)];
        }
        envs := Without(envs, EnvId, envId);
      }
      ToggleProgressBar(Some(false));
      settled := SettledBy(outcome, false);
    }

    /** `dispose`: merges the initial state back in; `isProgressing` and
        `activeTabCollectionEnvs`, which it does not mention, survive. */
    method Dispose()
      modifies this`tabColMap, this`colEnvMap, this`isEnvSidebarOpen, this`tdpRegistered, this`envs
      ensures tabColMap == map[] && colEnvMap == map[] && !isEnvSidebarOpen
      ensures !tdpRegistered && envs == []
    {
      tabColMap, colEnvMap, isEnvSidebarOpen := map[], map[], false;
      tdpRegistered, envs := false, [];
    }
  }
}
