# Explorer and environment stores, table row reordering, save prompt

This project models four parts of the Firecamp API client's front end and proves their properties in Dafny:

- **The explorer store** (`module Workspace`, class `WorkspaceStore`). It holds:
  - the current workspace and its ordered collection ids (`cOrders`);
  - the flat lists of collections, folders and requests. Collections and folders carry `fOrders` and `rOrders`, the ordered ids of their child folders and requests;
  - the `isProgressing` flag.

  The `on*` handlers create, rename and delete entities. The `change*MetaOrders` handlers replace order lists. Every REST-backed wrapper follows one discipline:
  1. raise the flag;
  2. on success, apply the local patch;
  3. lower the flag;
  4. settle for the caller, rejecting only when the call failed and the wrapper has no `.catch`.
- **The environment store** (`module Environment`, class `EnvStore`). It holds the environment list, the collection-to-active-environment map, and the sidebar and progress flags. `initialize` groups the collection-scoped environments by collection and records each group's first environment.
- **The table widget** (`module Table`). It covers:
  - the column definitions derived from the `columns` prop, with their chain of defaults;
  - the drag-and-drop row reorder, which is two `splice` calls on `tableData`.
- **The save-item prompt** (`module Prompt`). It covers the dialog state machine: trim, validate, then resolve directly or run the executor. It also covers the folder picker's root folders.

Shared pieces:
- `module Common`: optional values, JavaScript truthiness, REST outcomes, and how a wrapper's promise settles.
- `module Seqs`: `filter`, `find`, removal by id, and their lemmas.

REST calls are parameters. Each operation receives the outcome its call settled to (`RestOutcome`), and generated ids are passed in. Calls on the tree data providers, and on the prompt's `onError`, `onResolve` and executor props, are recorded in event logs, so contracts can say which calls happen. Each store operation is one atomic step.

## Model

Paths are relative to the repository root.

| member | source | states |
|---|---|---|
| `Common.Lookup` | platform/firecamp-platform/src/store/environment.ts:133-135 | a property read on a dictionary object finds a value exactly when the key is present, and it is the stored one |
| `Common.ErrorMessage` | packages/firecamp-platform/src/components/prompt/PromptSaveItem.tsx:78 | the shown message is the response's message when it is truthy, otherwise `e.message` |
| `Common.SettledBy` | platform/firecamp-platform/src/store/workspace.ts:294-330 | a wrapper's promise rejects exactly when the REST call failed and the wrapper has no `.catch`, and then with the call's error |
| `Seqs.Filter` | platform/firecamp-platform/src/store/environment.ts:138 | `filter` keeps exactly the passing elements, each as often as in the input, in input order |
| `Seqs.IndexOfFirst` | platform/firecamp-platform/src/store/environment.ts:207 | the index found is the first whose element passes; none is found only when no element passes |
| `Seqs.Find` | platform/firecamp-platform/src/store/workspace.ts:245-247 | `find` returns an element exactly when one passes, and it is the element at the first passing index |
| `Seqs.FilterConcat` | platform/firecamp-platform/src/store/environment.ts:59-69 | filtering a concatenation is concatenating the filters |
| `Seqs.FilterAllPass` | platform/firecamp-platform/src/store/environment.ts:213 | a filter that every element passes returns the input |
| `Seqs.FilterIdempotent` | platform/firecamp-platform/src/store/environment.ts:213 | filtering twice by the same test is filtering once |
| `Seqs.FilterFilter` | platform/firecamp-platform/src/store/environment.ts:59-62 | filtering by one test and then another is filtering by their conjunction |
| `Seqs.NoneFilterPass` | platform/firecamp-platform/src/store/environment.ts:138 | a filter that no element passes returns `[]` |
| `Seqs.FilterEmptyIff` | platform/firecamp-platform/src/store/environment.ts:60-62 | a filter result is empty exactly when no element passes |
| `Seqs.FilterHeadIsFirst` | platform/firecamp-platform/src/store/environment.ts:80 | the head of a non-empty filter result is the element at the first passing index |
| `Seqs.FilterKeepsDistinctKeys` | platform/firecamp-platform/src/store/workspace.ts:521 | filtering keeps the keys of a list distinct |
| `Seqs.Without` | platform/firecamp-platform/src/store/workspace.ts:382-384 | `filter(x => x.__ref.id != id)` drops every element with the id and keeps every other one, as often as it occurs and in order |
| `Seqs.WithoutAbsentIsNoop` | platform/firecamp-platform/src/store/environment.ts:213 | removing an id that no element has leaves the list unchanged |
| `Seqs.WithoutIdempotent` | platform/firecamp-platform/src/store/workspace.ts:662 | removing an id twice is removing it once |
| `Seqs.WithoutUndoesAppend` | platform/firecamp-platform/src/store/workspace.ts:643 | appending an element with a fresh id and then removing that id restores the list |
| `Seqs.WithoutKeepsDistinctIds` | platform/firecamp-platform/src/store/workspace.ts:521 | removing an id keeps ids distinct |
| `Seqs.AppendFreshKeepsDistinctIds` | platform/firecamp-platform/src/store/workspace.ts:502 | appending an element with a fresh id keeps ids distinct |
| `Environment.Grouped` | platform/firecamp-platform/src/store/environment.ts:59-69 | definition, no contract: the `reduce` that collects each `'C'`/`'P'` environment under its collection key, in list order; its properties are stated by `GroupedIsFilter` and `GroupOfKey` |
| `Environment.IdKeys` | platform/firecamp-platform/src/store/environment.ts:73 | definition, no contract: `Object.keys` of a group keyed by environment id, each id once where it was first inserted; its property is stated by `IdKeysHead` |
| `Environment.FirstOrEmpty` | platform/firecamp-platform/src/store/environment.ts:80 | definition, no contract: `Object.keys(...)[0] \|\| ''`; used by `ActiveEnvs`, whose results `KeyedGroupsYieldActive` and `ActiveEnvsAreIntended` characterise |
| `Environment.FirstInGroup` | platform/firecamp-platform/src/store/environment.ts:79-81 | the intended active environment of a group is the id of the first environment in list order whose type is `'C'` or `'P'` and whose collection key is the group's |
| `Environment.GroupedIsFilter` | platform/firecamp-platform/src/store/environment.ts:61-69 | the `reduce` has a group for a key exactly when some environment has that key, and the group is the filter by that key |
| `Environment.IdKeysHead` | platform/firecamp-platform/src/store/environment.ts:73 | the first key of the id-keyed object of a non-empty group is the id of its first environment |
| `Environment.GroupKeysIff` | platform/firecamp-platform/src/store/environment.ts:60-62 | a key is a group key exactly when some `'C'`/`'P'` environment has it |
| `Environment.GroupOfKey` | platform/firecamp-platform/src/store/environment.ts:59-69 | the group of a key, after the type filter, is the filter of all environments by type and key |
| `Environment.KeyedGroups` | platform/firecamp-platform/src/store/environment.ts:70-76 | definition, no contract: `_cEnvs`, the id-key list of every group; its properties are stated by `KeyedGroupsYieldActive` |
| `Environment.FirstInGroupIsHead` | platform/firecamp-platform/src/store/environment.ts:79-81 | the intended active environment is the head of the group |
| `Environment.KeyedGroupsYieldActive` | platform/firecamp-platform/src/store/environment.ts:57-81 | the keyed groups have exactly the group keys, and the first key of each is the intended active environment |
| `Environment.ActiveEnvsAreIntended` | platform/firecamp-platform/src/store/environment.ts:57-90 | the map the loop fills has one entry per group key, holding the id of the group's first environment; other environment types contribute nothing |
| `Environment.ActiveEnvs` | platform/firecamp-platform/src/store/environment.ts:79-81 | the `for…in` loop records, for every group, its first key or `''` |
| `Environment.WithVariables` | platform/firecamp-platform/src/store/environment.ts:111-122 | only the `variables` of environments with the id change; ids, order, length and every other field and environment stay |
| `Environment.CollectionEnvs` | platform/firecamp-platform/src/store/environment.ts:137-139 | exactly the environments of the collection, each as often as before, in their original order |
| `Environment.Replaced` | platform/firecamp-platform/src/store/environment.ts:183-191 | every environment with the response's id is replaced by the whole response; the others stay, and length and ids are kept |
| `Environment.RemovesTreeItem` | platform/firecamp-platform/src/store/environment.ts:207-212 | the tree provider is told about a delete exactly when the first environment with the id exists and is collection-scoped |
| `Environment.EnvStore.constructor` | platform/firecamp-platform/src/store/environment.ts:9-15 | the initial state: empty maps and list, closed sidebar, no provider; `isProgressing` and `activeTabCollectionEnvs` start absent |
| `Environment.EnvStore.Initialize` | platform/firecamp-platform/src/store/environment.ts:57-90 | `envs` is replaced wholesale, and `activeTabCollectionEnvs` has one entry per collection group holding its first environment's id |
| `Environment.EnvStore.RegisterTdp` | platform/firecamp-platform/src/store/environment.ts:92-96 | the provider is initialised with the current environments and registered |
| `Environment.EnvStore.UnregisterTdp` | platform/firecamp-platform/src/store/environment.ts:99-101 | the provider is dropped |
| `Environment.EnvStore.ToggleEnvSidebar` | platform/firecamp-platform/src/store/environment.ts:103-105 | the sidebar flag is negated, so toggling twice restores it |
| `Environment.EnvStore.ToggleProgressBar` | platform/firecamp-platform/src/store/environment.ts:107-109 | the flag is set to the argument, never negated (`undefined` when there is none) |
| `Environment.EnvStore.SetEnvVariables` | platform/firecamp-platform/src/store/environment.ts:111-122 | `envs` becomes the variables patch of the old list |
| `Environment.EnvStore.SetCollectionActiveEnv` | platform/firecamp-platform/src/store/environment.ts:124-131 | afterwards a lookup of the collection gives the environment, and every other key reads as before |
| `Environment.EnvStore.GetCollectionActiveEnv` | platform/firecamp-platform/src/store/environment.ts:133-135 | the stored environment of the collection, `undefined` when there is none |
| `Environment.EnvStore.GetCollectionEnvs` | platform/firecamp-platform/src/store/environment.ts:137-139 | exactly the collection's environments, each as often as in `envs`, as an ordered subsequence of it |
| `Environment.EnvStore.FetchEnvironment` | platform/firecamp-platform/src/store/environment.ts:142-156 | the fetched environment is returned and not stored; the flag ends `false`, and a failure rejects |
| `Environment.EnvStore.CreateEnvironment` | platform/firecamp-platform/src/store/environment.ts:158-176 | on success the server's environment is appended and the provider is told only when it is collection-scoped; otherwise nothing changes; the flag ends `false`, and a failure rejects |
| `Environment.EnvStore.UpdateEnvironment` | platform/firecamp-platform/src/store/environment.ts:178-198 | on success the environments with the response's id are replaced by the response; the flag ends `false`, and a failure rejects |
| `Environment.EnvStore.DeleteEnvironment` | platform/firecamp-platform/src/store/environment.ts:200-221 | on success every environment with the id is removed, and `removeEnvItem` is called only for an existing collection-scoped one; the flag ends `false`, and a failure rejects |
| `Environment.EnvStore.Dispose` | platform/firecamp-platform/src/store/environment.ts:224 | the initial-state keys are reset; `isProgressing` and `activeTabCollectionEnvs` are not among them and keep their values |
| `Workspace.TargetId` | platform/firecamp-platform/src/store/workspace.ts:379-380 | a delete handler takes an id as it is, or an entity's `__ref.id` |
| `Workspace.Renamed` | platform/firecamp-platform/src/store/workspace.ts:367-377 | only the `name` of entries with the payload's id changes; length, order, other fields and other entries stay |
| `Workspace.RenamedRequests` | platform/firecamp-platform/src/store/workspace.ts:648-658 | only `__meta.name` of requests with the payload's id changes; everything else stays |
| `Workspace.RenamedKeepsIds` | platform/firecamp-platform/src/store/workspace.ts:507-516 | renaming keeps distinct ids distinct |
| `Workspace.RenamedRequestsKeepsIds` | platform/firecamp-platform/src/store/workspace.ts:648-658 | renaming a request keeps distinct request ids distinct |
| `Workspace.RenamedIdempotent` | platform/firecamp-platform/src/store/workspace.ts:510-513 | applying the same rename twice is applying it once |
| `Workspace.PlacementOf` | platform/firecamp-platform/src/store/workspace.ts:485-497 | a truthy `folderId` places the child under that folder, otherwise a truthy `collectionId` places it under that collection, otherwise nowhere |
| `Workspace.PushChild` | platform/firecamp-platform/src/store/workspace.ts:486-490 | every entry with the parent id gets the child id at the end of the chosen order list; everything else stays |
| `Workspace.FoldersWithChild` | platform/firecamp-platform/src/store/workspace.ts:485-490 | without a truthy `folderId` no folder changes |
| `Workspace.CollectionsWithChild` | platform/firecamp-platform/src/store/workspace.ts:491-497 | with a truthy `folderId`, or without a truthy `collectionId`, no collection changes |
| `Workspace.ChildHasOneParent` | platform/firecamp-platform/src/store/workspace.ts:625-637 | a new child is recorded in at most one parent's order list; the folder parent wins, then the collection parent |
| `Workspace.PushChildKeepsIds` | platform/firecamp-platform/src/store/workspace.ts:485-497 | pushing a child id onto an order list keeps distinct container ids distinct |
| `Workspace.WithChildKeepsIds` | platform/firecamp-platform/src/store/workspace.ts:485-497 | recording a new child in its parent keeps the ids of folders and of collections distinct |
| `Workspace.Migrated` | platform/firecamp-platform/src/store/workspace.ts:481 | a folder with a truthy `__meta.type` gets type `'F'`; nothing else changes |
| `Workspace.Projected` | platform/firecamp-platform/src/store/workspace.ts:534-556 | only `url`, `method`, `__meta` and `__ref` of the request are kept |
| `Workspace.WithOrders` | platform/firecamp-platform/src/store/workspace.ts:714-720 | on entries with the id, each supplied order list replaces the old one and an omitted one stays; other entries and fields stay |
| `Workspace.WithNoOrdersIsNoop` | platform/firecamp-platform/src/store/workspace.ts:746-752 | supplying neither list changes nothing |
| `Workspace.WithOrdersIdempotent` | platform/firecamp-platform/src/store/workspace.ts:706-735 | applying the same orders twice is applying them once |
| `Workspace.CollectionCreateThenDelete` | platform/firecamp-platform/src/store/workspace.ts:348-395 | creating a collection with a fresh id and deleting it restores both `collections` and `cOrders` |
| `Workspace.CollectionDeleteIdempotent` | platform/firecamp-platform/src/store/workspace.ts:378-395 | deleting a collection twice is deleting it once, for the list and for `cOrders` |
| `Workspace.CollectionDeleteAbsentIsNoop` | platform/firecamp-platform/src/store/workspace.ts:382-389 | deleting an id that is neither listed nor ordered changes nothing |
| `Workspace.RequestCreateThenDelete` | platform/firecamp-platform/src/store/workspace.ts:621-666 | creating a request with a fresh id and deleting it restores `requests` |
| `Workspace.InitialWorkspace` | platform/firecamp-platform/src/store/workspace.ts:21-28 | definition, no contract: the initial workspace "My Workspace", personal, with no collections and the load-time id; used by `WorkspaceStore.constructor` and `WorkspaceStore.Dispose` |
| `Workspace.Loads` | platform/firecamp-platform/src/store/workspace.ts:168 | definition, no contract: the test `Array.isArray(res.data?.collections)` on a successful fetch; `Fetched` and `WorkspaceStore.FetchExplorer` state what follows from it |
| `Workspace.InitFrom` | platform/firecamp-platform/src/store/workspace.ts:181-186 | definition, no contract: the provider's `init` call with the fetched lists and `workspace.__meta.cOrders`; `WorkspaceStore.FetchExplorer` states when it is logged |
| `Workspace.Fetched` | platform/firecamp-platform/src/store/workspace.ts:166-189 | a response with a `collections` array replaces the workspace and the three lists, with missing lists read as `[]`; any other outcome leaves the explorer as it was |
| `Workspace.CollectionNameValidator` | platform/firecamp-platform/src/store/workspace.ts:268-282 | a name is valid exactly when it has at least 3 characters and passes the special-character test; the message says which rule failed, and a valid name has none |
| `Workspace.WorkspaceStore.constructor` | platform/firecamp-platform/src/store/workspace.ts:21-37 | the initial state: "My Workspace" with the id generated at load time, empty lists, flag `false`, no provider |
| `Workspace.WorkspaceStore.IdsDistinct` | platform/firecamp-platform/src/store/workspace.ts:30-35 | definition, no contract: every collection, folder and request id occurs once in its list; the `on*` handlers preserve it |
| `Workspace.WorkspaceStore.DeleteKeepsIds` | platform/firecamp-platform/src/store/workspace.ts:382-384 | removing an id from any of the three lists keeps their ids distinct |
| `Workspace.WorkspaceStore.Notify` | platform/firecamp-platform/src/store/workspace.ts:350 | a provider call is made only while a provider is registered |
| `Workspace.WorkspaceStore.RegisterTdp` | platform/firecamp-platform/src/store/workspace.ts:126-139 | the provider is initialised with the current lists and `cOrders`, then registered |
| `Workspace.WorkspaceStore.UnregisterTdp` | platform/firecamp-platform/src/store/workspace.ts:141-143 | the provider is dropped |
| `Workspace.WorkspaceStore.ToggleProgressBar` | platform/firecamp-platform/src/store/workspace.ts:145-153 | a boolean argument sets the flag; no argument negates it, so two such calls restore it |
| `Workspace.WorkspaceStore.SetWorkspace` | platform/firecamp-platform/src/store/workspace.ts:155-157 | the workspace is replaced |
| `Workspace.WorkspaceStore.GetWorkspaceId` | platform/firecamp-platform/src/store/workspace.ts:237-240 | the current workspace's id |
| `Workspace.WorkspaceStore.FetchExplorer` | platform/firecamp-platform/src/store/workspace.ts:160-208 | fetches the given workspace, or the current one when the argument is falsy. A response with a `collections` array replaces the explorer, re-initialises the provider and initialises the environment store. Every other outcome changes nothing. The flag ends `false` |
| `Workspace.WorkspaceStore.OpenCollectionTab` | platform/firecamp-platform/src/store/workspace.ts:243-255 | a tab entity exists exactly when a collection has the id, and it carries the name, description and `__ref` of the first such collection |
| `Workspace.WorkspaceStore.OnCreateCollection` | platform/firecamp-platform/src/store/workspace.ts:348-365 | the collection is appended to `collections` and its id to the end of `cOrders`; folders and requests are not touched; when the new id is fresh, distinct ids stay distinct |
| `Workspace.WorkspaceStore.OnUpdateCollection` | platform/firecamp-platform/src/store/workspace.ts:367-377 | `collections` becomes the rename of the old list; distinct ids stay distinct |
| `Workspace.WorkspaceStore.OnDeleteCollection` | platform/firecamp-platform/src/store/workspace.ts:378-395 | the id, given directly or through an entity, leaves `collections` and `cOrders`; child folders and requests are not touched; distinct ids stay distinct |
| `Workspace.WorkspaceStore.CreateCollection` | platform/firecamp-platform/src/store/workspace.ts:294-315 | on success the server's collection is added as by `onCreateCollection`; otherwise nothing changes; the flag ends `false`, and a failure rejects |
| `Workspace.WorkspaceStore.UpdateCollection` | platform/firecamp-platform/src/store/workspace.ts:316-330 | on success the payload's rename is applied; failures are caught and change nothing; the flag ends `false` |
| `Workspace.WorkspaceStore.DeleteCollection` | platform/firecamp-platform/src/store/workspace.ts:331-347 | on success the collection is deleted as by `onDeleteCollection`; failures are caught; the flag ends `false` |
| `Workspace.WorkspaceStore.OpenFolderTab` | platform/firecamp-platform/src/store/workspace.ts:398-410 | a tab entity exists exactly when a folder has the id, and it carries the name, description and `__ref` of the first such folder |
| `Workspace.WorkspaceStore.OnCreateFolder` | platform/firecamp-platform/src/store/workspace.ts:479-506 | the migrated folder is appended to `folders`, and its id is pushed onto the `fOrders` of its parent folder, or else of its parent collection; when the new id is fresh among the folders, distinct ids stay distinct |
| `Workspace.WorkspaceStore.OnUpdateFolder` | platform/firecamp-platform/src/store/workspace.ts:507-516 | `folders` becomes the rename of the old list; distinct ids stay distinct |
| `Workspace.WorkspaceStore.OnDeleteFolder` | platform/firecamp-platform/src/store/workspace.ts:517-524 | the id leaves `folders` only; no parent's `fOrders` changes; distinct ids stay distinct |
| `Workspace.WorkspaceStore.CreateFolder` | platform/firecamp-platform/src/store/workspace.ts:411-440 | on success the locally built folder (fresh id, empty orders, the payload's parents) is recorded as by `onCreateFolder`; the flag ends `false`, and a failure rejects |
| `Workspace.WorkspaceStore.UpdateFolder` | platform/firecamp-platform/src/store/workspace.ts:441-459 | on success the rename is applied; failures are caught; the flag ends `false` |
| `Workspace.WorkspaceStore.DeleteFolder` | platform/firecamp-platform/src/store/workspace.ts:460-478 | on success the folder is removed from `folders`; failures are caught; the flag ends `false` |
| `Workspace.WorkspaceStore.OnNewRequestCreate` | platform/firecamp-platform/src/store/workspace.ts:529-560 | only the request's projection is appended, and its id goes to its parent's `rOrders` by the folder-first rule; the provider gets the full request; when the new id is fresh among the requests, distinct ids stay distinct |
| `Workspace.WorkspaceStore.OnCreateRequest` | platform/firecamp-platform/src/store/workspace.ts:621-647 | the whole request is appended, and its id goes to its parent's `rOrders` by the folder-first rule; when the new id is fresh among the requests, distinct ids stay distinct |
| `Workspace.WorkspaceStore.AttachRequest` | platform/firecamp-platform/src/store/workspace.ts:625-637 | the request id is pushed onto the `rOrders` of the parent folder, or else of the parent collection; distinct ids stay distinct |
| `Workspace.WorkspaceStore.OnUpdateRequest` | platform/firecamp-platform/src/store/workspace.ts:648-658 | `requests` becomes the `__meta.name` rename of the old list; distinct ids stay distinct |
| `Workspace.WorkspaceStore.OnDeleteRequest` | platform/firecamp-platform/src/store/workspace.ts:659-666 | the id leaves `requests` only; no parent's `rOrders` changes; distinct ids stay distinct |
| `Workspace.WorkspaceStore.CreateRequest` | platform/firecamp-platform/src/store/workspace.ts:563-581 | on success the payload, with the current workspace id added to its `__ref`, is recorded as by `onCreateRequest`; failures are caught |
| `Workspace.WorkspaceStore.UpdateRequest` | platform/firecamp-platform/src/store/workspace.ts:582-600 | on success the `__meta.name` rename is applied; failures are caught; the flag ends `false` |
| `Workspace.WorkspaceStore.DeleteRequest` | platform/firecamp-platform/src/store/workspace.ts:601-619 | on success the request is removed; failures are caught; the flag ends `false` |
| `Workspace.WorkspaceStore.ChangeWorkspaceMetaOrders` | platform/firecamp-platform/src/store/workspace.ts:679-703 | `cOrders` is replaced wholesale, and only on success |
| `Workspace.WorkspaceStore.ChangeCollectionMetaOrders` | platform/firecamp-platform/src/store/workspace.ts:706-735 | on success only the supplied lists of the collection with the id are replaced |
| `Workspace.WorkspaceStore.ChangeFolderMetaOrders` | platform/firecamp-platform/src/store/workspace.ts:738-767 | on success only the supplied lists of the folder with the id are replaced |
| `Workspace.WorkspaceStore.MoveFolder` | platform/firecamp-platform/src/store/workspace.ts:770-792 | on success the explorer and the environment store are re-fetched; a failure is caught and changes nothing; the flag ends `false` |
| `Workspace.WorkspaceStore.MoveRequest` | platform/firecamp-platform/src/store/workspace.ts:795-817 | on success the explorer and the environment store are re-fetched; a failure is caught and changes nothing; the flag ends `false` |
| `Workspace.WorkspaceStore.Dispose` | platform/firecamp-platform/src/store/workspace.ts:820-831 | the provider is emptied and kept; the workspace returns to the initial one, with the id generated at load time; the lists empty and the flag clears |
| `Table.ColumnDefOf` | packages/ui-kit/src/components/table/table/Table.tsx:28-40 | the definition's `id` is the name. `size` and `maxSize` are present only when defined. `minSize` falls back from the column to `options.minColumnSize` to 50. Resizing is off unless enabled. The header label is `displayName`, falling back to `name` |
| `Table.ColumnDisplay` | packages/ui-kit/src/components/table/table/Table.tsx:27-54 | exactly one definition per column, in column order |
| `Table.SpliceOut` | packages/ui-kit/src/components/table/table/Table.tsx:78 | `splice(start, 1)` removes and returns the element at `start`, and removes nothing past the end |
| `Table.SpliceIn` | packages/ui-kit/src/components/table/table/Table.tsx:78 | `splice(start, 0, x)` inserts `x` at `start`, or at the end when `start` is past it |
| `Table.Dropped` | packages/ui-kit/src/components/table/table/Table.tsx:77-80 | definition, no contract: `drop`'s two `splice` calls on the rows, taking out the row at `dragId` and inserting it (or `undefined`) at `rowIndex`; its properties are stated by `DropIsPermutation`, `DropPlacesRow`, `DropKeepsOtherRowsInOrder`, `DropOntoItselfIsNoop` and `DropFromPastEndInsertsUndefined` |
| `Table.DropIsPermutation` | packages/ui-kit/src/components/table/table/Table.tsx:77-80 | with `dragId` on a row, `drop` keeps the length and the multiset of rows |
| `Table.DropPlacesRow` | packages/ui-kit/src/components/table/table/Table.tsx:78 | the dragged row lands at `rowIndex`, or last when `rowIndex` is past the end |
| `Table.DropKeepsOtherRowsInOrder` | packages/ui-kit/src/components/table/table/Table.tsx:78 | the other rows keep their relative order |
| `Table.DropOntoItselfIsNoop` | packages/ui-kit/src/components/table/table/Table.tsx:78 | `drop(dragId)` leaves the rows unchanged |
| `Table.DropFromPastEndInsertsUndefined` | packages/ui-kit/src/components/table/table/Table.tsx:78 | with `dragId` past the end nothing is removed, and an `undefined` row is inserted at `rowIndex` |
| `Table.RowTable.constructor` | packages/ui-kit/src/components/table/table/Table.tsx:19-20 | no rows, and `dragId` starts at 0 |
| `Table.RowTable.SetData` | packages/ui-kit/src/components/table/table/Table.tsx:58-61 | the effect copies the `data` prop into `tableData` |
| `Table.RowTable.Drag` | packages/ui-kit/src/components/table/table/Table.tsx:72-74 | only `dragId` is recorded; the rows are not touched |
| `Table.RowTable.Drop` | packages/ui-kit/src/components/table/table/Table.tsx:77-80 | `tableData` becomes the drop of the old rows. With `dragId` on a row it is a permutation of the same length, with the dragged row at its landing index |
| `Prompt.IsJsWhitespace` | packages/firecamp-platform/src/components/prompt/PromptSaveItem.tsx:53 | definition, no contract: the characters `trim` removes, ECMAScript WhiteSpace and LineTerminator; `TrimStart`, `TrimEnd` and `Trim` are stated in its terms |
| `Prompt.TrimStart` | packages/firecamp-platform/src/components/prompt/PromptSaveItem.tsx:53 | the result is the suffix left after removing all leading whitespace (every character `trim` treats as white space or a line terminator) |
| `Prompt.TrimEnd` | packages/firecamp-platform/src/components/prompt/PromptSaveItem.tsx:53 | the result is the prefix left after removing all trailing whitespace |
| `Prompt.Trim` | packages/firecamp-platform/src/components/prompt/PromptSaveItem.tsx:53 | an infix of the input with only whitespace around it, and no whitespace at either of its ends |
| `Prompt.TrimIdempotent` | packages/firecamp-platform/src/components/prompt/PromptSaveItem.tsx:53 | trimming twice is trimming once |
| `Prompt.TrimStartIgnoresPadding` | packages/firecamp-platform/src/components/prompt/PromptSaveItem.tsx:53 | leading whitespace does not change what `TrimStart` leaves |
| `Prompt.TrimStartKeepsTail` | packages/firecamp-platform/src/components/prompt/PromptSaveItem.tsx:53 | once `TrimStart` reaches a non-whitespace character, whatever follows is kept |
| `Prompt.TrimEndIgnoresPadding` | packages/firecamp-platform/src/components/prompt/PromptSaveItem.tsx:53 | trailing whitespace does not change what `TrimEnd` leaves |
| `Prompt.TrimIgnoresPadding` | packages/firecamp-platform/src/components/prompt/PromptSaveItem.tsx:53 | whitespace added on both sides of a value does not change its trim, so padding typed around a name is not submitted |
| `Prompt.Verdict` | packages/firecamp-platform/src/components/prompt/PromptSaveItem.tsx:55-56 | a missing validator counts as valid; otherwise the validator's verdict on the trimmed value |
| `Prompt.Decide` | packages/firecamp-platform/src/components/prompt/PromptSaveItem.tsx:51-87 | the input is invalid exactly when the verdict says so, and then the validator's message is used. A valid input goes to the executor when there is one, and is otherwise resolved directly. The result is the trimmed input with the current `folderId` |
| `Prompt.SubmittedValueIsTrimmed` | packages/firecamp-platform/src/components/prompt/PromptSaveItem.tsx:53-54 | the submitted value has no whitespace at either end |
| `Prompt.InitialState` | packages/firecamp-platform/src/components/prompt/PromptSaveItem.tsx:34-40 | definition, no contract: the state the dialog opens in; `PromptSaveItem.constructor` and `TypedTextIsIgnoredAsWritten` are stated with it |
| `Prompt.ChangeValueAsWritten` | packages/firecamp-platform/src/components/prompt/PromptSaveItem.tsx:47-50 | as written, the typed text goes to a new key `value` and `error` is cleared; `inputValue`, `isOpen`, `isExecuting` and `folderId` are unchanged |
| `Prompt.TypedTextIsIgnoredAsWritten` | packages/firecamp-platform/src/components/prompt/PromptSaveItem.tsx:47-54 | with that handler, typing "report" into an empty prompt and pressing OK submits "" |
| `Prompt.ChangeValue` | packages/firecamp-platform/src/components/prompt/PromptSaveItem.tsx:47-50 | the intended handler: the typed text becomes `inputValue` and `error` is cleared |
| `Prompt.TypedTextIsSubmitted` | packages/firecamp-platform/src/components/prompt/PromptSaveItem.tsx:53-54 | with the intended handler, OK submits the trimmed typed text with the current folder |
| `Prompt.RootOrders` | packages/firecamp-platform/src/components/prompt/PromptSaveItem.tsx:154-156 | the ids of exactly the folders without a truthy `__ref.folderId`, in input order |
| `Prompt.PathSelectorRoots` | packages/firecamp-platform/src/components/prompt/PromptSaveItem.tsx:152-157 | a missing or empty folder list renders nothing; otherwise the tree is rooted at `rootOrders` |
| `Prompt.SelectedFolder` | packages/firecamp-platform/src/components/prompt/PromptSaveItem.tsx:158-161 | the first selected id, and nothing for an absent or empty selection |
| `Prompt.PromptSaveItem.constructor` | packages/firecamp-platform/src/components/prompt/PromptSaveItem.tsx:34-40 | the dialog opens not executing, with the given value, no folder and an empty error |
| `Prompt.PromptSaveItem.Close` | packages/firecamp-platform/src/components/prompt/PromptSaveItem.tsx:41-46 | the dialog closes |
| `Prompt.PromptSaveItem.ChangeInput` | packages/firecamp-platform/src/components/prompt/PromptSaveItem.tsx:47-50 | the state becomes the intended change of the old state |
| `Prompt.PromptSaveItem.ChangeInputAsWritten` | packages/firecamp-platform/src/components/prompt/PromptSaveItem.tsx:47-50 | the handler as written: the state becomes the as-written change of the old state, so `inputValue` keeps its text |
| `Prompt.PromptSaveItem.SelectFolder` | packages/firecamp-platform/src/components/prompt/PromptSaveItem.tsx:116-119 | a selection sets `folderId`; an empty one leaves it |
| `Prompt.PromptSaveItem.ClickOk` | packages/firecamp-platform/src/components/prompt/PromptSaveItem.tsx:51-87 | invalid input: `error` becomes the validator's message and `onError` is called when given; the executor and `onResolve` are not called and `isOpen` is unchanged. Valid input with an executor: `error` is cleared, `isExecuting` is set and the executor gets the result. Valid input without one: `onResolve` gets the result, `error` is cleared and the dialog closes |
| `Prompt.PromptSaveItem.SettleExecution` | packages/firecamp-platform/src/components/prompt/PromptSaveItem.tsx:64-80 | `isExecuting` always clears. On success `onResolve` gets the response and the dialog closes. On failure the response's message, falling back to `e.message`, becomes `error`, `onError` is called when given, and `isOpen` is unchanged |

## Left out

- The REST client is not modelled. Every call is replaced by its outcome, passed in as a parameter, together with the server payload where the store uses it.
- `nanoid()` is not modelled. Generated ids are parameters: the load-time workspace id is given to `WorkspaceStore`'s constructor, and the new folder id to `CreateFolder`.
- The body `createCollection` builds for the REST call (a fresh id plus the workspace id) is not modelled. Only the server's response reaches the store.
- The zustand container, devtools and React hooks are not modelled. Each `set` is one atomic update of the class fields.
- Interleaving of concurrent store calls is not modelled. `moveFolder` and `moveRequest` start the fetch without awaiting it. The model completes that fetch before the mover lowers the flag, which gives the same final state.
- Tree data providers are not modelled beyond the calls made on them: those calls are logged as events. A provider registered as `null` is not modelled.
- Alerts, `console` output, `openSignIn` and `promptInput` are not modelled.
- Tab opening through the platform emitter is not modelled. `OpenCollectionTab` and `OpenFolderTab` return the entity that would be emitted.
- The prompt's delayed `onClose` is not modelled, nor its rendering.
- The pass-through and stub operations `create`, `checkNameAvailability`, `switch`, `update`, `remove`, `createOrg` and `checkOrgNameAvailability` are not modelled. They have no local state.
- `createCollectionPrompt` is left out except for its validator. The `NoSpecialCharacters` regular expression is defined outside this model and is a parameter.
- Workspace.WorkspaceStore.FetchExplorer: the store also calls `envStore.init(environments)` (workspace.ts:196), which the environment store does not define. So every fetch whose response has a `collections` array (workspace.ts:168) ends in a TypeError that is caught and alerted, after the explorer and `initialize` have taken effect. This is a defect of the source, not an abstraction. The model applies the same updates and leaves out the alert, which is why no Findings row is given. `environments` is ignored.
- Environment.EnvStore.Initialize: this is a defect of the source that the model keeps as written. `initialize` writes the active environments to `activeTabCollectionEnvs` (environment.ts:86-89), but `getCollectionActiveEnv` reads `colEnvMap` (environment.ts:133-135), so the environments `initialize` picks are never returned by that getter. Nothing in the environment store reads `activeTabCollectionEnvs` back.
- Workspace.WorkspaceStore.FetchExplorer: a response without `workspace` is not modelled. With no tree provider registered, the source would store `{}` and later handlers would throw. With a provider registered, `workspace.__meta.cOrders`, an argument of `init` (workspace.ts:181-186), throws inside the `set` updater, so nothing is stored and the `.catch` alerts. `Artifacts` always carries a workspace.
- The `preScripts: []` and `postScripts: []` that `createFolder` adds to the folder it builds (workspace.ts:416-417) are not modelled. They reach `folders` and the tree provider, but no store operation reads them, so `Container` has no such fields.
- Payloads that lack `__ref` or `name` are not modelled. There the source throws, or stores `undefined` as the name. Names are strings and references are always present.
- Entity objects that the source mutates in place and that are shared with other holders are modelled as values. This covers the pushes in `onCreateFolder`, `onCreateRequest` and `onNewRequestCreate`, the assignments in `change{Collection,Folder}MetaOrders`, and `folder.__meta.type`. Aliasing and sharing with the tree provider are therefore not captured.
- In the same way, `tableData` is the `data` prop array itself, so `drop` also reorders the parent's array. The model keeps the rows as a sequence field.
- Environment.ActiveEnvsAreIntended: `Object.keys` lists integer-like keys first, in ascending order. The model uses insertion order, which matches the source only for environment ids that are not array indices.
- `null` ids are not modelled: an environment with a `null` collection id groups under `"null"`. Only `undefined` is modelled, as `None`, which groups under `"undefined"`.
- String lengths are counted in characters, not UTF-16 code units. This matters for `CollectionNameValidator` on text outside the Basic Multilingual Plane.
- The literal values of `EEnvironmentScope.Collection` and `EWorkspaceType.Personal` come from the types package, which is not part of this model. Collection scope is taken to be `"C"`, the value the type filter of `initialize` uses. The personal workspace type is a named constant.
- Table rendering, column resizing, the cell renderer, fractional widths and negative `splice` indices are not modelled. Row indices are natural numbers.
- Prompt: an `onResolve` that throws inside the executor's `then` (which would reach the `catch` branch) is not modelled, nor an executor that throws synchronously. `onError(new Error(message))` is logged with its message only.
- PathSelector's tree data provider is not modelled: it is foreign code and only receives `folders` and `rootOrders`.

## Findings

| source | as written | input that shows it | evidently intended | confidence | as-written member | corrected member |
|---|---|---|---|---|---|---|
| packages/firecamp-platform/src/components/prompt/PromptSaveItem.tsx:47-50 | `_onChangeValue` stores the typed text under a new state key `value` and never updates `inputValue`, which the input displays and OK submits | a prompt opened with value `""`; the user types `report` and presses OK; the submitted value is `""` (`TypedTextIsIgnoredAsWritten`) | `inputValue` becomes the typed text, so OK submits its trimmed form (`TypedTextIsSubmitted`); the component class uses this handler | medium, not executed | Prompt.ChangeValueAsWritten | Prompt.ChangeValue |
