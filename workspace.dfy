/** The explorer store: the current workspace with its ordered collection ids,
    the flat lists of collections, folders and requests that make up the
    explorer tree, and the progress flag. REST calls are parameters: every
    REST-backed operation receives the outcome its call settled to, and
    fresh ids are passed in. */
module Workspace {
  import opened Common
  import opened Seqs
  import Environment

  /** `__ref`: an entity's own id and the ids of what it belongs to. */
  datatype Ref = Ref(id: Id, workspaceId: Option<Id>, collectionId: Option<Id>, folderId: Option<Id>)

  /** `__meta` of a collection or folder: the ordered child folder and request ids, and `type`. */
  datatype Meta = Meta(fOrders: seq<Id>, rOrders: seq<Id>, kind: Option<string>)

  /** A collection or a folder; both have this shape in the explorer. */
  datatype Container = Container(name: string, description: string, meta: Meta, ref: Ref)

  /** A request's `__meta`: its name and the other meta fields. */
  datatype RequestMeta = RequestMeta(name: string, others: map<string, string>)

  /** A request as the explorer holds it (`verb` is its `method`); `others` are the fields besides
      `url`, `method`, `__meta` and `__ref`. */
  datatype Request = Request(url: string, verb: string, meta: RequestMeta, ref: Ref, others: map<string, string>)

  /** The workspace, with `__meta.cOrders` and `__meta.type` flattened. */
  datatype Workspace = Workspace(name: string, cOrders: seq<Id>, kind: string, ref: Ref)

  /** The value of `EWorkspaceType.Personal`. */
  const PersonalWorkspace: string := "personal"

  /** The workspace the store starts with (and `dispose` restores); its id is
      generated once, when the store module is loaded. */
  function InitialWorkspace(id: Id): Workspace {
    Workspace("My Workspace", [], PersonalWorkspace, Ref(id, None, None, None))
  }

  function ContainerId(c: Container): Id {
    c.ref.id
  }

  function RequestId(r: Request): Id {
    r.ref.id
  }

  /** An entry of an order list is itself the id. */
  function OrderId(id: Id): Id {
    id
  }

  /** The rename payload `on*Update` handlers read: `__ref.id` and the new name. */
  datatype Rename = Rename(id: Id, name: string)

  /** What `on*Delete` handlers accept: an id, or an entity whose `__ref.id` is used. */
  datatype Target = ById(id: Id) | ByEntity(ref: Ref)

  function TargetId(t: Target): (id: Id)
    ensures t.ById? ==> id == t.id
    ensures t.ByEntity? ==> id == t.ref.id
  {
    match t
    case ById(id) => id
    case ByEntity(r) => r.id
  }

  /** Calls the store makes on the explorer's tree data provider. */
  datatype TdpEvent =
    | Init(collections: seq<Container>, folders: seq<Container>, requests: seq<Request>, cOrders: seq<Id>)
    | AddCollectionItem(item: Container)
    | UpdateCollectionItem(patch: Rename)
    | DeleteCollectionItem(id: Id)
    | AddFolderItem(item: Container)
    | UpdateFolderItem(patch: Rename)
    | DeleteFolderItem(id: Id)
    | AddRequestItem(request: Request)
    | UpdateRequestItem(patch: Rename)
    | DeleteRequestItem(id: Id)

  /* ---------- renaming ---------- */

  /** `onUpdateCollection` / `onUpdateFolder`: entries with the payload's id take its name; nothing else changes. */
  function Renamed(cs: seq<Container>, p: Rename): (r: seq<Container>)
    ensures |r| == |cs|
    ensures forall i :: 0 <= i < |cs| ==> r[i].(name := cs[i].name) == cs[i]
    ensures forall i :: 0 <= i < |cs| ==> r[i].name == if cs[i].ref.id == p.id then p.name else cs[i].name
  {
    seq(|cs|, i requires 0 <= i < |cs| => if cs[i].ref.id == p.id then cs[i].(name := p.name) else cs[i])
  }

  /** `onUpdateRequest`: requests with the payload's id take its `__meta.name`; nothing else changes. */
  function RenamedRequests(rs: seq<Request>, p: Rename): (r: seq<Request>)
    ensures |r| == |rs|
    ensures forall i :: 0 <= i < |rs| ==> r[i].(meta := rs[i].meta) == rs[i]
    ensures forall i :: 0 <= i < |rs| ==> r[i].meta.(name := rs[i].meta.name) == rs[i].meta
    ensures forall i :: 0 <= i < |rs| ==> r[i].meta.name == if rs[i].ref.id == p.id then p.name else rs[i].meta.name
  {
    seq(|rs|, i requires 0 <= i < |rs| =>
      if rs[i].ref.id == p.id then rs[i].(meta := rs[i].meta.(name := p.name)) else rs[i])
  }

  /** Renaming keeps every id where it was, so distinct ids stay distinct. */
  lemma RenamedKeepsIds(cs: seq<Container>, p: Rename)
    requires DistinctKeys(cs, ContainerId)
    ensures DistinctKeys(Renamed(cs, p), ContainerId)
  {
    var r := Renamed(cs, p);
    forall i, j | 0 <= i < j < |r| ensures ContainerId(r[i]) != ContainerId(r[j]) {
      assert r[i].ref == cs[i].ref && r[j].ref == cs[j].ref;
    }
  }

  /** Renaming a request keeps every id where it was, so distinct ids stay distinct. */
  lemma RenamedRequestsKeepsIds(rs: seq<Request>, p: Rename)
    requires DistinctKeys(rs, RequestId)
    ensures DistinctKeys(RenamedRequests(rs, p), RequestId)
  {
    var r := RenamedRequests(rs, p);
    forall i, j | 0 <= i < j < |r| ensures RequestId(r[i]) != RequestId(r[j]) {
      assert r[i].(meta := rs[i].meta) == rs[i] && r[j].(meta := rs[j].meta) == rs[j];
    }
  }

  /** Renaming to the same name twice is renaming once. */
  lemma RenamedIdempotent(cs: seq<Container>, p: Rename)
    ensures Renamed(Renamed(cs, p), p) == Renamed(cs, p)
  {
    var r := Renamed(cs, p);
    var rr := Renamed(r, p);
    forall i | 0 <= i < |cs| ensures rr[i] == r[i] {
      assert rr[i].(name := r[i].name) == r[i];
    }
  }

  /* ---------- attaching a new child to its parent ---------- */

  /** Where a new folder or request is recorded: under `__ref.folderId` when it
      is truthy, else under `__ref.collectionId` when that is truthy, else nowhere. */
  datatype Placement = UnderFolder(parent: Id) | UnderCollection(parent: Id) | AtRoot

  function PlacementOf(ref: Ref): (p: Placement)
    ensures p.UnderFolder? <==> Truthy(ref.folderId)
    ensures p.UnderCollection? <==> !Truthy(ref.folderId) && Truthy(ref.collectionId)
    ensures p.UnderFolder? ==> p.parent == ref.folderId.value
    ensures p.UnderCollection? ==> p.parent == ref.collectionId.value
  {
    if Truthy(ref.folderId) then UnderFolder(ref.folderId.value)
    else if Truthy(ref.collectionId) then UnderCollection(ref.collectionId.value)
    else AtRoot
  }

  /** The two child order lists of a container. */
  datatype OrderList = FOrders | ROrders

  /** `__meta.fOrders.push(child)` or `__meta.rOrders.push(child)` on every entry whose id is `parent`. */
  function PushChild(cs: seq<Container>, parent: Id, list: OrderList, child: Id): (r: seq<Container>)
    ensures |r| == |cs|
    ensures forall i :: 0 <= i < |cs| ==> r[i].(meta := cs[i].meta) == cs[i] && r[i].meta.kind == cs[i].meta.kind
    ensures forall i :: 0 <= i < |cs| && cs[i].ref.id != parent ==> r[i] == cs[i]
    ensures forall i :: 0 <= i < |cs| && cs[i].ref.id == parent ==>
      r[i].meta.fOrders == cs[i].meta.fOrders + (if list == FOrders then [child] else [])
    ensures forall i :: 0 <= i < |cs| && cs[i].ref.id == parent ==>
      r[i].meta.rOrders == cs[i].meta.rOrders + (if list == ROrders then [child] else [])
  {
    seq(|cs|, i requires 0 <= i < |cs| =>
      if cs[i].ref.id != parent then cs[i]
      else if list == FOrders then cs[i].(meta := cs[i].meta.(fOrders := cs[i].meta.fOrders + [child]))
      else cs[i].(meta := cs[i].meta.(rOrders := cs[i].meta.rOrders + [child])))
  }

  /** The folders after a new child with reference `ref` is recorded in its parent folder, if that is where it goes. */
  function FoldersWithChild(fs: seq<Container>, ref: Ref, list: OrderList): (r: seq<Container>)
    ensures !Truthy(ref.folderId) ==> r == fs
  {
    match PlacementOf(ref)
    case UnderFolder(p) => PushChild(fs, p, list, ref.id)
    case _ => fs
  }

  /** The collections after a new child with reference `ref` is recorded in its parent collection, if that is where it goes. */
  function CollectionsWithChild(cs: seq<Container>, ref: Ref, list: OrderList): (r: seq<Container>)
    ensures Truthy(ref.folderId) || !Truthy(ref.collectionId) ==> r == cs
  {
    match PlacementOf(ref)
    case UnderCollection(p) => PushChild(cs, p, list, ref.id)
    case _ => cs
  }

  /** Pushing onto an order list keeps every id where it was, so distinct ids stay distinct. */
  lemma PushChildKeepsIds(cs: seq<Container>, parent: Id, list: OrderList, child: Id)
    requires DistinctKeys(cs, ContainerId)
    ensures DistinctKeys(PushChild(cs, parent, list, child), ContainerId)
  {
    var r := PushChild(cs, parent, list, child);
    forall i, j | 0 <= i < j < |r| ensures ContainerId(r[i]) != ContainerId(r[j]) {
      assert r[i].(meta := cs[i].meta) == cs[i] && r[j].(meta := cs[j].meta) == cs[j];
    }
  }

  /** Recording a new child in its parent keeps the ids of folders and of collections distinct. */
  lemma WithChildKeepsIds(cs: seq<Container>, ref: Ref, list: OrderList)
    requires DistinctKeys(cs, ContainerId)
    ensures DistinctKeys(FoldersWithChild(cs, ref, list), ContainerId)
    ensures DistinctKeys(CollectionsWithChild(cs, ref, list), ContainerId)
  {
    match PlacementOf(ref)
    case UnderFolder(p) => PushChildKeepsIds(cs, p, list, ref.id);
    case UnderCollection(p) => PushChildKeepsIds(cs, p, list, ref.id);
    case AtRoot =>
  }

  /** A new child is recorded in at most one parent list: a folder parent wins over a collection. */
  lemma ChildHasOneParent(cs: seq<Container>, fs: seq<Container>, ref: Ref, list: OrderList)
    ensures FoldersWithChild(fs, ref, list) == fs || CollectionsWithChild(cs, ref, list) == cs
    ensures Truthy(ref.folderId) ==> FoldersWithChild(fs, ref, list) == PushChild(fs, ref.folderId.value, list, ref.id)
    ensures !Truthy(ref.folderId) && Truthy(ref.collectionId) ==>
      CollectionsWithChild(cs, ref, list) == PushChild(cs, ref.collectionId.value, list, ref.id)
  {
  }

  /** `if (folder.__meta?.type) folder.__meta.type = 'F'`: a folder with a truthy type is migrated to `'F'`. */
  function Migrated(folder: Container): (f: Container)
    ensures f.(meta := folder.meta) == folder
    ensures f.meta.(kind := folder.meta.kind) == folder.meta
    ensures f.meta.kind == if Truthy(folder.meta.kind) then Some("F") else folder.meta.kind
  {
    if Truthy(folder.meta.kind) then folder.(meta := folder.meta.(kind := Some("F"))) else folder
  }

  /** `{ url, method, __meta, __ref }`: the part of a request `onNewRequestCreate` stores. */
  function Projected(r: Request): (p: Request)
    ensures p.url == r.url && p.verb == r.verb && p.meta == r.meta && p.ref == r.ref
    ensures p.others == map[]
  {
    r.(others := map[])
  }

  /* ---------- replacing order lists ---------- */

  /** `change{Collection,Folder}MetaOrders`: on every entry with id `id`, each
      order list that was supplied as an array replaces the old one. */
  function WithOrders(cs: seq<Container>, id: Id, fOrders: Option<seq<Id>>, rOrders: Option<seq<Id>>): (r: seq<Container>)
    ensures |r| == |cs|
    ensures forall i :: 0 <= i < |cs| ==> r[i].(meta := cs[i].meta) == cs[i] && r[i].meta.kind == cs[i].meta.kind
    ensures forall i :: 0 <= i < |cs| && cs[i].ref.id != id ==> r[i] == cs[i]
    ensures forall i :: 0 <= i < |cs| && cs[i].ref.id == id ==>
      r[i].meta.fOrders == fOrders.GetOr(cs[i].meta.fOrders) && r[i].meta.rOrders == rOrders.GetOr(cs[i].meta.rOrders)
  {
    seq(|cs|, i requires 0 <= i < |cs| =>
      if cs[i].ref.id != id then cs[i]
      else cs[i].(meta := cs[i].meta.(fOrders := fOrders.GetOr(cs[i].meta.fOrders),
                                      rOrders := rOrders.GetOr(cs[i].meta.rOrders))))
  }

  /** Supplying neither list changes nothing. */
  lemma WithNoOrdersIsNoop(cs: seq<Container>, id: Id)
    ensures WithOrders(cs, id, None, None) == cs
  {
    var r := WithOrders(cs, id, None, None);
    forall i | 0 <= i < |cs| ensures r[i] == cs[i] {
      assert r[i].(meta := cs[i].meta) == cs[i];
    }
  }

  /** Applying the same orders twice is applying them once. */
  lemma WithOrdersIdempotent(cs: seq<Container>, id: Id, fOrders: Option<seq<Id>>, rOrders: Option<seq<Id>>)
    ensures WithOrders(WithOrders(cs, id, fOrders, rOrders), id, fOrders, rOrders) == WithOrders(cs, id, fOrders, rOrders)
  {
    var r := WithOrders(cs, id, fOrders, rOrders);
    var rr := WithOrders(r, id, fOrders, rOrders);
    forall i | 0 <= i < |cs| ensures rr[i] == r[i] {
      assert rr[i].(meta := r[i].meta) == r[i];
    }
  }

  /* ---------- creating and deleting ---------- */

  /** Creating a collection with a fresh id and deleting it restores both the
      collection list and the workspace's `cOrders`. */
  lemma CollectionCreateThenDelete(ws: Workspace, cs: seq<Container>, c: Container)
    requires forall i :: 0 <= i < |cs| ==> cs[i].ref.id != c.ref.id
    requires forall i :: 0 <= i < |ws.cOrders| ==> ws.cOrders[i] != c.ref.id
    ensures Without(cs + [c], ContainerId, c.ref.id) == cs
    ensures Without(ws.cOrders + [c.ref.id], OrderId, c.ref.id) == ws.cOrders
  {
    WithoutUndoesAppend(cs, ContainerId, c);
    WithoutUndoesAppend(ws.cOrders, OrderId, c.ref.id);
  }

  /** Deleting a collection twice is deleting it once, for the list and for `cOrders`. */
  lemma CollectionDeleteIdempotent(ws: Workspace, cs: seq<Container>, id: Id)
    ensures Without(Without(cs, ContainerId, id), ContainerId, id) == Without(cs, ContainerId, id)
    ensures Without(Without(ws.cOrders, OrderId, id), OrderId, id) == Without(ws.cOrders, OrderId, id)
  {
    WithoutIdempotent(cs, ContainerId, id);
    WithoutIdempotent(ws.cOrders, OrderId, id);
  }

  /** Deleting a collection id that is neither listed nor ordered changes nothing. */
  lemma CollectionDeleteAbsentIsNoop(ws: Workspace, cs: seq<Container>, id: Id)
    requires forall i :: 0 <= i < |cs| ==> cs[i].ref.id != id
    requires forall i :: 0 <= i < |ws.cOrders| ==> ws.cOrders[i] != id
    ensures Without(cs, ContainerId, id) == cs
    ensures Without(ws.cOrders, OrderId, id) == ws.cOrders
  {
    WithoutAbsentIsNoop(cs, ContainerId, id);
    WithoutAbsentIsNoop(ws.cOrders, OrderId, id);
  }

  /** Creating a request with a fresh id and deleting it restores the request list. */
  lemma RequestCreateThenDelete(rs: seq<Request>, r: Request)
    requires forall i :: 0 <= i < |rs| ==> rs[i].ref.id != r.ref.id
    ensures Without(rs + [r], RequestId, r.ref.id) == rs
  {
    WithoutUndoesAppend(rs, RequestId, r);
  }

  /* ---------- fetching the explorer ---------- */

  /** `res.data` of `fetchWorkspaceArtifacts`; a list that is `None` is missing
      (or, for `collections`, not an array). */
  datatype Artifacts = Artifacts(workspace: Workspace, collections: Option<seq<Container>>,
                                 folders: Option<seq<Container>>, requests: Option<seq<Request>>,
                                 envs: Option<seq<Environment.Env>>)

  /** The explorer state `fetchExplorer` replaces. */
  datatype Explorer = Explorer(workspace: Workspace, collections: seq<Container>, folders: seq<Container>, requests: seq<Request>)

  /** The fetch replaces the state only when it succeeded with a `collections` array. */
  predicate Loads(outcome: RestOutcome<Artifacts>) {
    outcome.Success? && outcome.data.collections.Some?
  }

  /** The explorer after a fetch: the artifacts, missing lists read as `[]`; or the old one. */
  function Fetched(current: Explorer, outcome: RestOutcome<Artifacts>): (e: Explorer)
    ensures !Loads(outcome) ==> e == current
    ensures Loads(outcome) ==> e.workspace == outcome.data.workspace && e.collections == outcome.data.collections.value
    ensures Loads(outcome) ==> e.folders == outcome.data.folders.GetOr([]) && e.requests == outcome.data.requests.GetOr([])
  {
    if Loads(outcome) then
      var a := outcome.data;
      Explorer(a.workspace, a.collections.value, a.folders.GetOr([]), a.requests.GetOr([]))
    else current
  }

  /** The tree provider's `init` call of a fetch that loads. */
  function InitFrom(a: Artifacts): TdpEvent
    requires a.collections.Some?
  {
    Init(a.collections.value, a.folders.GetOr([]), a.requests.GetOr([]), a.workspace.cOrders)
  }

  /* ---------- the collection name validator ---------- */

  const ShortNameMessage: string := "The collection name must have minimum 3 characters."
  const SpecialCharactersMessage: string := "The collection name must not contain any special characters."

  /** The validator of the create-collection prompt; `noSpecialCharacters` is the
      test of the `NoSpecialCharacters` regular expression. */
  function CollectionNameValidator(val: string, noSpecialCharacters: string -> bool): (v: Validation)
    ensures v.isValid <==> |val| >= 3 && noSpecialCharacters(val)
    ensures v.isValid ==> v.message == None
    ensures |val| < 3 ==> v.message == Some(ShortNameMessage)
    ensures |val| >= 3 && !noSpecialCharacters(val) ==> v.message == Some(SpecialCharactersMessage)
  {
    if |val| < 3 then Validation(false, Some(ShortNameMessage))
    else if noSpecialCharacters(val) then Validation(true, None)
    else Validation(false, Some(SpecialCharactersMessage))
  }

  /* ---------- the store ---------- */

  /** What `open{Collection,Folder}Tab` emits for a found entity. */
  datatype TabEntity = TabEntity(name: string, description: string, ref: Ref)

  function CIdIs(id: Id): Container -> bool {
    (c: Container) => c.ref.id == id
  }

  class WorkspaceStore {
    /** The id `nanoid()` generated for the initial workspace when the module loaded. */
    const initialWorkspaceId: Id
    var workspace: Workspace
    var tdpRegistered: bool
    var isProgressing: bool
    var collections: seq<Container>
    var folders: seq<Container>
    var requests: seq<Request>
    var tdpLog: seq<TdpEvent>

    constructor (initialId: Id)
      ensures initialWorkspaceId == initialId && workspace == InitialWorkspace(initialId)
      ensures !tdpRegistered && !isProgressing
      ensures collections == [] && folders == [] && requests == [] && tdpLog == []
    {
      initialWorkspaceId := initialId;
      workspace := InitialWorkspace(initialId);
      tdpRegistered, isProgressing := false, false;
      collections, folders, requests, tdpLog := [], [], [], [];
    }

    function Snapshot(): Explorer
      reads this
    {
      Explorer(workspace, collections, folders, requests)
    }

    /** A call on the tree provider, made only while one is registered (`tdpInstance?.`). */
    method Notify(e: TdpEvent)
      modifies this`tdpLog
      ensures tdpLog == old(tdpLog) + if tdpRegistered then [e] else []
    {
      if tdpRegistered {
        tdpLog := tdpLog + [e];
      }
    }

    /** Every collection, folder and request id occurs once in its list. */
    ghost predicate IdsDistinct()
      reads this
    {
      DistinctKeys(collections, ContainerId) && DistinctKeys(folders, ContainerId) && DistinctKeys(requests, RequestId)
    }

    /** Removing an id from any of the three lists keeps the ids distinct. */
    lemma DeleteKeepsIds(id: Id)
      requires IdsDistinct()
      ensures DistinctKeys(Without(collections, ContainerId, id), ContainerId)
      ensures DistinctKeys(Without(folders, ContainerId, id), ContainerId)
      ensures DistinctKeys(Without(requests, RequestId, id), RequestId)
    {
      WithoutKeepsDistinctIds(collections, ContainerId, id);
      WithoutKeepsDistinctIds(folders, ContainerId, id);
      WithoutKeepsDistinctIds(requests, RequestId, id);
    }

    /** `registerTDP`: the provider is initialised with the current explorer, then kept. */
    method RegisterTdp()
      modifies this`tdpRegistered, this`tdpLog
      ensures tdpRegistered
      ensures tdpLog == old(tdpLog) + [Init(collections, folders, requests, workspace.cOrders)]
    {
      tdpLog := tdpLog + [Init(collections, folders, requests, workspace.cOrders)];
      tdpRegistered := true;
    }

    method UnregisterTdp()
      modifies this`tdpRegistered
      ensures !tdpRegistered
    {
      tdpRegistered := false;
    }

    /** `toggleProgressBar(flag?)`: sets a boolean flag, negates without one. */
    method ToggleProgressBar(flag: Option<bool>)
      modifies this`isProgressing
      ensures isProgressing == if flag.Some? then flag.value else !old(isProgressing)
    {
      isProgressing := if flag.Some? then flag.value else !isProgressing;
    }

    method SetWorkspace(w: Workspace)
      modifies this`workspace
      ensures workspace == w
    {
      workspace := w;
    }

    method GetWorkspaceId() returns (id: Id)
      ensures id == workspace.ref.id
    {
      id := workspace.ref.id;
    }

    /** `fetchExplorer(workspaceId?)`: fetches the artifacts of `workspaceId`, or
        of the current workspace when it is falsy; a response with a
        `collections` array replaces the explorer, re-initialises the provider
        and the environment store. Every error is caught. The source returns
        nothing: `wId` only names the workspace whose artifacts `outcome`
        stands for, the id the source passes to `fetchWorkspaceArtifacts`. */
    method FetchExplorer(workspaceId: Option<Id>, outcome: RestOutcome<Artifacts>, env: Environment.EnvStore)
      returns (wId: Id)
      modifies this`workspace, this`collections, this`folders, this`requests, this`tdpLog, this`isProgressing
      modifies env`envs, env`activeTabCollectionEnvs
      ensures wId == if Truthy(workspaceId) then workspaceId.value else old(workspace.ref.id)
      ensures !isProgressing
      ensures Snapshot() == Fetched(old(Snapshot()), outcome)
      ensures tdpLog == old(tdpLog) + if Loads(outcome) && tdpRegistered then [InitFrom(outcome.data)] else []
      ensures Loads(outcome) ==> env.envs == outcome.data.envs.GetOr([])
      ensures Loads(outcome) ==> env.activeTabCollectionEnvs.Some?
      ensures Loads(outcome) ==> Environment.ActiveFor(outcome.data.envs.GetOr([]), env.activeTabCollectionEnvs.value)
      ensures !Loads(outcome) ==> env.envs == old(env.envs) && env.activeTabCollectionEnvs == old(env.activeTabCollectionEnvs)
    {
      ToggleProgressBar(Some(true));
      wId := if Truthy(workspaceId) then workspaceId.value else workspace.ref.id;
      if Loads(outcome) {
        var a := outcome.data;
        Notify(InitFrom(a));
        workspace, collections := a.workspace, a.collections.value;
        folders, requests := a.folders.GetOr([]), a.requests.GetOr([]);
        env.Initialize(a.envs.GetOr([]));
      }
      ToggleProgressBar(Some(false));
    }

    /* ----- collections ----- */

    /** `openCollectionTab`: the entity of the first collection with the id, if any. */
    method OpenCollectionTab(collectionId: Id) returns (tab: Option<TabEntity>)
      ensures tab.Some? <==> exists i :: 0 <= i < |collections| && collections[i].ref.id == collectionId
      ensures tab.Some? ==> exists i :: (0 <= i < |collections| && collections[i].ref.id == collectionId
        && (forall j :: 0 <= j < i ==> collections[j].ref.id != collectionId)
        && tab.value == TabEntity(collections[i].name, collections[i].description, collections[i].ref))
    {
      var found := Find(collections, CIdIs(collectionId));
      tab := if found.Some? then Some(TabEntity(found.value.name, found.value.description, found.value.ref)) else None;
      if found.Some? {
        var i := IndexOfFirst(collections, CIdIs(collectionId)).value;
        assert collections[i] == found.value;
      }
    }

    /** `onCreateCollection`: the collection is appended, and its id to `cOrders`. */
    method OnCreateCollection(c: Container)
      modifies this`workspace, this`collections, this`tdpLog
      ensures collections == old(collections) + [c]
      ensures workspace == old(workspace).(cOrders := old(workspace.cOrders) + [c.ref.id])
      ensures tdpLog == old(tdpLog) + if tdpRegistered then [AddCollectionItem(c)] else []
      ensures old(IdsDistinct()) && Fresh(old(collections), ContainerId, c.ref.id) ==> IdsDistinct()
    {
      Notify(AddCollectionItem(c));
      workspace := workspace.(cOrders := workspace.cOrders + [c.ref.id]);
      if IdsDistinct() && Fresh(collections, ContainerId, c.ref.id) {
        AppendFreshKeepsDistinctIds(collections, ContainerId, c);
      }
      collections := collections + [c];
    }

    /** `onUpdateCollection`: renames the collections with the payload's id. */
    method OnUpdateCollection(p: Rename)
      modifies this`collections, this`tdpLog
      ensures collections == Renamed(old(collections), p)
      ensures tdpLog == old(tdpLog) + if tdpRegistered then [UpdateCollectionItem(p)] else []
      ensures old(IdsDistinct()) ==> IdsDistinct()
    {
      Notify(UpdateCollectionItem(p));
      if IdsDistinct() {
        RenamedKeepsIds(collections, p);
      }
      collections := Renamed(collections, p);
    }

    /** `onDeleteCollection`: drops the id from `collections` and from `cOrders`;
        folders and requests of the collection stay. */
    method OnDeleteCollection(t: Target)
      modifies this`workspace, this`collections, this`tdpLog
      ensures collections == Without(old(collections), ContainerId, TargetId(t))
      ensures workspace == old(workspace).(cOrders := Without(old(workspace.cOrders), OrderId, TargetId(t)))
      ensures tdpLog == old(tdpLog) + if tdpRegistered then [DeleteCollectionItem(TargetId(t))] else []
      ensures old(IdsDistinct()) ==> IdsDistinct()
    {
      var cId := TargetId(t);
      Notify(DeleteCollectionItem(cId));
      if IdsDistinct() {
        DeleteKeepsIds(cId);
      }
      workspace := workspace.(cOrders := Without(workspace.cOrders, OrderId, cId));
      collections := Without(collections, ContainerId, cId);
    }

    /** `createCollection`: the server's collection is added on success; a failure rejects. */
    method CreateCollection(outcome: RestOutcome<Container>) returns (settled: Settled)
      modifies this`workspace, this`collections, this`tdpLog, this`isProgressing
      ensures !isProgressing && settled == SettledBy(outcome, false)
      ensures collections == old(collections) + if outcome.Success? then [outcome.data] else []
      ensures workspace == if outcome.Success? then old(workspace).(cOrders := old(workspace.cOrders) + [outcome.data.ref.id])
                           else old(workspace)
      ensures tdpLog == old(tdpLog) + if outcome.Success? && tdpRegistered then [AddCollectionItem(outcome.data)] else []
    {
      ToggleProgressBar(Some(true));
      if outcome.Success? {
        OnCreateCollection(outcome.data);
      }
      ToggleProgressBar(Some(false));
      settled := SettledBy(outcome, false);
    }

    /** `updateCollection(cId, payload)`: on success the payload's rename is applied
        (it names its own `__ref.id`); failures are caught. */
    method UpdateCollection(cId: Id, p: Rename, outcome: RestOutcome<()>) returns (settled: Settled)
      modifies this`collections, this`tdpLog, this`isProgressing
      ensures !isProgressing && settled == Fulfilled
      ensures collections == if outcome.Success? then Renamed(old(collections), p) else old(collections)
      ensures tdpLog == old(tdpLog) + if outcome.Success? && tdpRegistered then [UpdateCollectionItem(p)] else []
    {
      ToggleProgressBar(Some(true));
      if outcome.Success? {
        OnUpdateCollection(p);
      }
      ToggleProgressBar(Some(false));
      settled := SettledBy(outcome, true);
    }

    method DeleteCollection(cId: Id, outcome: RestOutcome<()>) returns (settled: Settled)
      modifies this`workspace, this`collections, this`tdpLog, this`isProgressing
      ensures !isProgressing && settled == Fulfilled
      ensures collections == if outcome.Success? then Without(old(collections), ContainerId, cId) else old(collections)
      ensures workspace == if outcome.Success? then old(workspace).(cOrders := Without(old(workspace.cOrders), OrderId, cId))
                           else old(workspace)
      ensures tdpLog == old(tdpLog) + if outcome.Success? && tdpRegistered then [DeleteCollectionItem(cId)] else []
    {
      ToggleProgressBar(Some(true));
      if outcome.Success? {
        OnDeleteCollection(ById(cId));
      }
      ToggleProgressBar(Some(false));
      settled := SettledBy(outcome, true);
    }

    /* ----- folders ----- */

    /** `openFolderTab`: the entity of the first folder with the id, if any. */
    method OpenFolderTab(folderId: Id) returns (tab: Option<TabEntity>)
      ensures tab.Some? <==> exists i :: 0 <= i < |folders| && folders[i].ref.id == folderId
      ensures tab.Some? ==> exists i :: (0 <= i < |folders| && folders[i].ref.id == folderId
        && (forall j :: 0 <= j < i ==> folders[j].ref.id != folderId)
        && tab.value == TabEntity(folders[i].name, folders[i].description, folders[i].ref))
    {
      var found := Find(folders, CIdIs(folderId));
      tab := if found.Some? then Some(TabEntity(found.value.name, found.value.description, found.value.ref)) else None;
      if found.Some? {
        var i := IndexOfFirst(folders, CIdIs(folderId)).value;
        assert folders[i] == found.value;
      }
    }

    /** `onCreateFolder`: the (migrated) folder is appended to `folders`, and its id
        pushed onto the `fOrders` of its parent folder or else its parent collection. */
    method OnCreateFolder(folder: Container)
      modifies this`collections, this`folders, this`tdpLog
      ensures folders == FoldersWithChild(old(folders), folder.ref, FOrders) + [Migrated(folder)]
      ensures collections == CollectionsWithChild(old(collections), folder.ref, FOrders)
      ensures tdpLog == old(tdpLog) + if tdpRegistered then [AddFolderItem(Migrated(folder))] else []
      ensures old(IdsDistinct()) && Fresh(old(folders), ContainerId, folder.ref.id) ==> IdsDistinct()
    {
      var f := Migrated(folder);
      Notify(AddFolderItem(f));
      ghost var distinct := IdsDistinct() && Fresh(folders, ContainerId, f.ref.id);
      if distinct {
        WithChildKeepsIds(folders, f.ref, FOrders);
        WithChildKeepsIds(collections, f.ref, FOrders);
      }
      match PlacementOf(f.ref) {
        case UnderFolder(p) =>
          folders := PushChild(folders, p, FOrders, f.ref.id);
        case UnderCollection(p) =>
          collections := PushChild(collections, p, FOrders, f.ref.id);
        case AtRoot =>
      }
      if distinct {
        AppendFreshKeepsDistinctIds(folders, ContainerId, f);
      }
      folders := folders + [f];
    }

    method OnUpdateFolder(p: Rename)
      modifies this`folders, this`tdpLog
      ensures folders == Renamed(old(folders), p)
      ensures tdpLog == old(tdpLog) + if tdpRegistered then [UpdateFolderItem(p)] else []
      ensures old(IdsDistinct()) ==> IdsDistinct()
    {
      Notify(UpdateFolderItem(p));
      if IdsDistinct() {
        RenamedKeepsIds(folders, p);
      }
      folders := Renamed(folders, p);
    }

    /** `onDeleteFolder`: drops the id from `folders` only; no parent order list changes. */
    method OnDeleteFolder(t: Target)
      modifies this`folders, this`tdpLog
      ensures folders == Without(old(folders), ContainerId, TargetId(t))
      ensures tdpLog == old(tdpLog) + if tdpRegistered then [DeleteFolderItem(TargetId(t))] else []
      ensures old(IdsDistinct()) ==> IdsDistinct()
    {
      Notify(DeleteFolderItem(TargetId(t)));
      if IdsDistinct() {
        WithoutKeepsDistinctIds(folders, ContainerId, TargetId(t));
      }
      folders := Without(folders, ContainerId, TargetId(t));
    }

    /** `createFolder`: builds the folder locally with a fresh id and empty orders and,
        when the call succeeds, records that local folder; a failure rejects. */
    method CreateFolder(name: string, description: string, collectionId: Option<Id>, folderId: Option<Id>,
                        freshId: Id, outcome: RestOutcome<()>) returns (settled: Settled)
      modifies this`collections, this`folders, this`tdpLog, this`isProgressing
      ensures !isProgressing && settled == SettledBy(outcome, false)
      ensures var f := Container(name, description, Meta([], [], None), Ref(freshId, None, collectionId, folderId));
        && folders == (if outcome.Success? then FoldersWithChild(old(folders), f.ref, FOrders) + [f] else old(folders))
        && collections == (if outcome.Success? then CollectionsWithChild(old(collections), f.ref, FOrders) else old(collections))
        && tdpLog == old(tdpLog) + if outcome.Success? && tdpRegistered then [AddFolderItem(f)] else []
    {
      var f := Container(name, description, Meta([], [], None), Ref(freshId, None, collectionId, folderId));
      ToggleProgressBar(Some(true));
      if outcome.Success? {
        OnCreateFolder(f);
      }
      ToggleProgressBar(Some(false));
      settled := SettledBy(outcome, false);
    }

    method UpdateFolder(fId: Id, p: Rename, outcome: RestOutcome<()>) returns (settled: Settled)
      modifies this`folders, this`tdpLog, this`isProgressing
      ensures !isProgressing && settled == Fulfilled
      ensures folders == if outcome.Success? then Renamed(old(folders), p) else old(folders)
      ensures tdpLog == old(tdpLog) + if outcome.Success? && tdpRegistered then [UpdateFolderItem(p)] else []
    {
      ToggleProgressBar(Some(true));
      if outcome.Success? {
        OnUpdateFolder(p);
      }
      ToggleProgressBar(Some(false));
      settled := SettledBy(outcome, true);
    }

    method DeleteFolder(fId: Id, outcome: RestOutcome<()>) returns (settled: Settled)
      modifies this`folders, this`tdpLog, this`isProgressing
      ensures !isProgressing && settled == Fulfilled
      ensures folders == if outcome.Success? then Without(old(folders), ContainerId, fId) else old(folders)
      ensures tdpLog == old(tdpLog) + if outcome.Success? && tdpRegistered then [DeleteFolderItem(fId)] else []
    {
      ToggleProgressBar(Some(true));
      if outcome.Success? {
        OnDeleteFolder(ById(fId));
      }
      ToggleProgressBar(Some(false));
      settled := SettledBy(outcome, true);
    }

    /* ----- requests ----- */

    /** `onNewRequestCreate`: the request's id goes to its parent's `rOrders`, and
        only its projection is appended to `requests`. */
    method OnNewRequestCreate(r: Request)
      modifies this`collections, this`folders, this`requests, this`tdpLog
      ensures requests == old(requests) + [Projected(r)]
      ensures folders == FoldersWithChild(old(folders), r.ref, ROrders)
      ensures collections == CollectionsWithChild(old(collections), r.ref, ROrders)
      ensures tdpLog == old(tdpLog) + if tdpRegistered then [AddRequestItem(r)] else []
      ensures old(IdsDistinct()) && Fresh(old(requests), RequestId, r.ref.id) ==> IdsDistinct()
    {
      Notify(AddRequestItem(r));
      AttachRequest(r.ref);
      if IdsDistinct() && Fresh(requests, RequestId, r.ref.id) {
        AppendFreshKeepsDistinctIds(requests, RequestId, Projected(r));
      }
      requests := requests + [Projected(r)];
    }

    /** `onCreateRequest`: like `onNewRequestCreate`, but the whole request is appended. */
    method OnCreateRequest(r: Request)
      modifies this`collections, this`folders, this`requests, this`tdpLog
      ensures requests == old(requests) + [r]
      ensures folders == FoldersWithChild(old(folders), r.ref, ROrders)
      ensures collections == CollectionsWithChild(old(collections), r.ref, ROrders)
      ensures tdpLog == old(tdpLog) + if tdpRegistered then [AddRequestItem(r)] else []
      ensures old(IdsDistinct()) && Fresh(old(requests), RequestId, r.ref.id) ==> IdsDistinct()
    {
      Notify(AddRequestItem(r));
      AttachRequest(r.ref);
      if IdsDistinct() && Fresh(requests, RequestId, r.ref.id) {
        AppendFreshKeepsDistinctIds(requests, RequestId, r);
      }
      requests := requests + [r];
    }

    /** Pushes a new request's id onto its parent's `rOrders`. */
    method AttachRequest(ref: Ref)
      modifies this`collections, this`folders
      ensures folders == FoldersWithChild(old(folders), ref, ROrders)
      ensures collections == CollectionsWithChild(old(collections), ref, ROrders)
      ensures old(IdsDistinct()) ==> IdsDistinct()
    {
      if IdsDistinct() {
        WithChildKeepsIds(folders, ref, ROrders);
        WithChildKeepsIds(collections, ref, ROrders);
      }
      match PlacementOf(ref) {
        case UnderFolder(p) =>
          folders := PushChild(folders, p, ROrders, ref.id);
        case UnderCollection(p) =>
          collections := PushChild(collections, p, ROrders, ref.id);
        case AtRoot =>
      }
    }

    method OnUpdateRequest(p: Rename)
      modifies this`requests, this`tdpLog
      ensures requests == RenamedRequests(old(requests), p)
      ensures tdpLog == old(tdpLog) + if tdpRegistered then [UpdateRequestItem(p)] else []
      ensures old(IdsDistinct()) ==> IdsDistinct()
    {
      Notify(UpdateRequestItem(p));
      if IdsDistinct() {
        RenamedRequestsKeepsIds(requests, p);
      }
      requests := RenamedRequests(requests, p);
    }

    /** `onDeleteRequest`: drops the id from `requests` only; no parent order list changes. */
    method OnDeleteRequest(t: Target)
      modifies this`requests, this`tdpLog
      ensures requests == Without(old(requests), RequestId, TargetId(t))
      ensures tdpLog == old(tdpLog) + if tdpRegistered then [DeleteRequestItem(TargetId(t))] else []
      ensures old(IdsDistinct()) ==> IdsDistinct()
    {
      Notify(DeleteRequestItem(TargetId(t)));
      if IdsDistinct() {
        DeleteKeepsIds(TargetId(t));
      }
      requests := Without(requests, RequestId, TargetId(t));
    }

    /** `createRequest`: the payload, with the current workspace id added to its
        `__ref`, is recorded on success; failures are caught. */
    method CreateRequest(payload: Request, outcome: RestOutcome<()>) returns (settled: Settled)
      modifies this`collections, this`folders, this`requests, this`tdpLog, this`isProgressing
      ensures !isProgressing && settled == Fulfilled
      ensures var r := payload.(ref := payload.ref.(workspaceId := Some(workspace.ref.id)));
        && requests == old(requests) + (if outcome.Success? then [r] else [])
        && folders == (if outcome.Success? then FoldersWithChild(old(folders), r.ref, ROrders) else old(folders))
        && collections == (if outcome.Success? then CollectionsWithChild(old(collections), r.ref, ROrders) else old(collections))
        && tdpLog == old(tdpLog) + if outcome.Success? && tdpRegistered then [AddRequestItem(r)] else []
    {
      var r := payload.(ref := payload.ref.(workspaceId := Some(workspace.ref.id)));
      ToggleProgressBar(Some(true));
      if outcome.Success? {
        OnCreateRequest(r);
      }
      ToggleProgressBar(Some(false));
      settled := SettledBy(outcome, true);
    }

    method UpdateRequest(rId: Id, p: Rename, outcome: RestOutcome<()>) returns (settled: Settled)
      modifies this`requests, this`tdpLog, this`isProgressing
      ensures !isProgressing && settled == Fulfilled
      ensures requests == if outcome.Success? then RenamedRequests(old(requests), p) else old(requests)
      ensures tdpLog == old(tdpLog) + if outcome.Success? && tdpRegistered then [UpdateRequestItem(p)] else []
    {
      ToggleProgressBar(Some(true));
      if outcome.Success? {
        OnUpdateRequest(p);
      }
      ToggleProgressBar(Some(false));
      settled := SettledBy(outcome, true);
    }

    method DeleteRequest(rId: Id, outcome: RestOutcome<()>) returns (settled: Settled)
      modifies this`requests, this`tdpLog, this`isProgressing
      ensures !isProgressing && settled == Fulfilled
      ensures requests == if outcome.Success? then Without(old(requests), RequestId, rId) else old(requests)
      ensures tdpLog == old(tdpLog) + if outcome.Success? && tdpRegistered then [DeleteRequestItem(rId)] else []
    {
      ToggleProgressBar(Some(true));
      if outcome.Success? {
        OnDeleteRequest(ById(rId));
      }
      ToggleProgressBar(Some(false));
      settled := SettledBy(outcome, true);
    }

    /* ----- order lists ----- */

    /** `changeWorkspaceMetaOrders`: on success `cOrders` becomes `orders`. */
    method ChangeWorkspaceMetaOrders(orders: seq<Id>, outcome: RestOutcome<()>) returns (settled: Settled)
      modifies this`workspace, this`isProgressing
      ensures !isProgressing && settled == Fulfilled
      ensures workspace == if outcome.Success? then old(workspace).(cOrders := orders) else old(workspace)
    {
      ToggleProgressBar(Some(true));
      if outcome.Success? {
        workspace := workspace.(cOrders := orders);
      }
      ToggleProgressBar(Some(false));
      settled := SettledBy(outcome, true);
    }

    /** `changeCollectionMetaOrders`: on success the supplied lists replace those of collection `id`. */
    method ChangeCollectionMetaOrders(id: Id, fOrders: Option<seq<Id>>, rOrders: Option<seq<Id>>, outcome: RestOutcome<()>)
      returns (settled: Settled)
      modifies this`collections, this`isProgressing
      ensures !isProgressing && settled == Fulfilled
      ensures collections == if outcome.Success? then WithOrders(old(collections), id, fOrders, rOrders) else old(collections)
    {
      ToggleProgressBar(Some(true));
      if outcome.Success? {
        collections := WithOrders(collections, id, fOrders, rOrders);
      }
      ToggleProgressBar(Some(false));
      settled := SettledBy(outcome, true);
    }

    /** `changeFolderMetaOrders`: on success the supplied lists replace those of folder `id`. */
    method ChangeFolderMetaOrders(id: Id, fOrders: Option<seq<Id>>, rOrders: Option<seq<Id>>, outcome: RestOutcome<()>)
      returns (settled: Settled)
      modifies this`folders, this`isProgressing
      ensures !isProgressing && settled == Fulfilled
      ensures folders == if outcome.Success? then WithOrders(old(folders), id, fOrders, rOrders) else old(folders)
    {
      ToggleProgressBar(Some(true));
      if outcome.Success? {
        folders := WithOrders(folders, id, fOrders, rOrders);
      }
      ToggleProgressBar(Some(false));
      settled := SettledBy(outcome, true);
    }

    /* ----- moving ----- */

    /** `moveFolder`: on success the whole explorer is fetched again (`refetch` is that fetch's outcome). */
    method MoveFolder(folderId: Id, outcome: RestOutcome<()>, refetch: RestOutcome<Artifacts>, env: Environment.EnvStore)
      returns (settled: Settled)
      modifies this`workspace, this`collections, this`folders, this`requests, this`tdpLog, this`isProgressing
      modifies env`envs, env`activeTabCollectionEnvs
      ensures !isProgressing && settled == Fulfilled
      ensures Snapshot() == if outcome.Success? then Fetched(old(Snapshot()), refetch) else old(Snapshot())
      ensures tdpLog == old(tdpLog) + if outcome.Success? && Loads(refetch) && tdpRegistered then [InitFrom(refetch.data)] else []
      ensures outcome.Success? && Loads(refetch) ==> env.envs == refetch.data.envs.GetOr([])
      ensures outcome.Success? && Loads(refetch) ==> env.activeTabCollectionEnvs.Some?
      ensures outcome.Success? && Loads(refetch) ==>
        Environment.ActiveFor(refetch.data.envs.GetOr([]), env.activeTabCollectionEnvs.value)
      ensures outcome.Failure? || !Loads(refetch) ==>
        env.envs == old(env.envs) && env.activeTabCollectionEnvs == old(env.activeTabCollectionEnvs)
    {
      ToggleProgressBar(Some(true));
      if outcome.Success? {
        var _ := FetchExplorer(None, refetch, env);
      }
      ToggleProgressBar(Some(false));
      settled := SettledBy(outcome, true);
    }

    /** `moveRequest`: on success the whole explorer is fetched again (`refetch` is that fetch's outcome). */
    method MoveRequest(requestId: Id, outcome: RestOutcome<()>, refetch: RestOutcome<Artifacts>, env: Environment.EnvStore)
      returns (settled: Settled)
      modifies this`workspace, this`collections, this`folders, this`requests, this`tdpLog, this`isProgressing
      modifies env`envs, env`activeTabCollectionEnvs
      ensures !isProgressing && settled == Fulfilled
      ensures Snapshot() == if outcome.Success? then Fetched(old(Snapshot()), refetch) else old(Snapshot())
      ensures tdpLog == old(tdpLog) + if outcome.Success? && Loads(refetch) && tdpRegistered then [InitFrom(refetch.data)] else []
      ensures outcome.Success? && Loads(refetch) ==> env.envs == refetch.data.envs.GetOr([])
      ensures outcome.Success? && Loads(refetch) ==> env.activeTabCollectionEnvs.Some?
      ensures outcome.Success? && Loads(refetch) ==>
        Environment.ActiveFor(refetch.data.envs.GetOr([]), env.activeTabCollectionEnvs.value)
      ensures outcome.Failure? || !Loads(refetch) ==>
        env.envs == old(env.envs) && env.activeTabCollectionEnvs == old(env.activeTabCollectionEnvs)
    {
      ToggleProgressBar(Some(true));
      if outcome.Success? {
        var _ := FetchExplorer(None, refetch, env);
      }
      ToggleProgressBar(Some(false));
      settled := SettledBy(outcome, true);
    }

    /** `dispose`: the provider is emptied and kept; everything else returns to the
        initial state, including the workspace id generated at load time. */
    method Dispose()
      modifies this`workspace, this`collections, this`folders, this`requests, this`tdpLog, this`isProgressing
      ensures workspace == InitialWorkspace(initialWorkspaceId) && !isProgressing
      ensures collections == [] && folders == [] && requests == []
      ensures tdpLog == old(tdpLog) + if tdpRegistered then [Init([], [], [], [])] else []
    {
      Notify(Init([], [], [], []));
      workspace, isProgressing := InitialWorkspace(initialWorkspaceId), false;
      collections, folders, requests := [], [], [];
    }
  }
}
