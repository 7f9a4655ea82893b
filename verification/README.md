# A Dafny model of the Malevich Python SDK's client-side bookkeeping

The Malevich SDK lets a user describe logic functions, chain them into
flows, and submit them to the Malevich platform as pipelines. This project
models the deterministic part of that client as pure Dafny functions over
immutable data, and proves what the SDK promises about it:

- **Function references** (`FunctionRefs`, `utils.py`). `parse_fn` reads
  `name::<reference>` in four forms, tried in a fixed order. `getid` builds
  prefixed fresh ids.
- **Flows** (`Flows`, `modelling/flow.py`). `startwith`, `add`, `addflow` and
  `upload_collections` work over a flow that holds:
  - the per-group-name counters;
  - the processors of the pipeline under construction;
  - the stored groups of each node.
- **Pipelines** (`Pipelines`, `core_api/pipeline.py`). This module covers:
  - the content-hash identity of a pipeline and its core form;
  - `get` and `upsert` against the platform's pipeline store;
  - `operations.active` and `operations.create`.
- **Operations and runs** (`Operations`, `Runs`; `core_api/operation.py`,
  `core_api/run.py`). This covers `bind_pipeline`, `runs.create`,
  `Run.status`, `RunResults.docs`, and `run`.
  - `run` builds a one-processor pipeline from the groups and keywords.
  - It upserts that pipeline and reuses or creates an operation.
  - It then uploads the data and starts the run.
- **The credential store** (`CredStore`, `usp/credstore.py`). This covers
  adding, reading, removing, clearing and listing records in the in-memory
  record list. Environment overrides take priority.
- **Argument metadata** (`Arguments`, `modelling/arguments.py`). The
  `ArgumentSpecification` defaults and the markers `Input`, `InputGroup`,
  `File` and `RunContext`.
- **Logic functions** (`LogicFunctions`, `modelling/function.py`). This covers:
  - `_check_arguments`;
  - `process_function_arguments`, which classifies parameters into the
    input map;
  - the decorator's validation checks.
- **Scoped overrides** (`Scoped`, `core_api/connection.py` and
  `core_api/credentials.py`). `with_connection` and `with_credentials` save,
  set and restore the global client configuration.

Python objects that the SDK mutates are values here. An operation returns the
new state together with a `Result`, which carries the Python exception class
and its message. The platform, the environment, hashing and fresh uuids are
parameters:

- the pipeline store is a map;
- the platform's answers during a `run` are the fields of a `Remote`;
- SHA-256 over the key-sorted JSON is a function `digest` of the processor
  map;
- `create_doc` answers `docId(i)` for the i-th document;
- the environment is a map.

The SDK has two Group classes with the same constructor: the one in
`modelling/group.py`, and the one in `core_api/run.py` that the package
exports as `malevich_sdk.Group`. `Flow.startwith` accepts only the first and
`run` only the second; each rejects the other's instances with its TypeError
naming `Group`. The model keeps the class of each positional argument
(`Processors.PositionalValue`) and classifies it against the caller's class.

Python dicts whose insertion order is observable are sequences of entries
(`Dicts`). These are `run_kwargs`, and every config: `json.dumps(config)`
keeps the config's key order in the text that is stored in a processor and
hashed into the pipeline id. All other dicts are Dafny maps.

Where the SDK's documentation and its code disagree, the model follows the
code. The cases:

- `File(required=False)` is documented as optional, yet it is required.
- `Input(default="en")` is documented as optional with default `"en"`. It is
  required and its stored default is None.
- The duplicate-node guard of `startwith` and `add` tests the literal key
  `'name'` of the counters, not the node name.
- `Run.status` rejects `completed` and `failed`.

## Model

| member | source | states |
|---|---|---|
| FunctionRefs.ParseFn | src/malevich_sdk/utils.py:35-111 | The parse succeeds exactly when the text has the `name::` prefix and one of the four forms matches the rest. Otherwise it raises the ValueError naming the input. Every successful parse has tag `''` and syncRef set. Its processor id is the non-empty, `:`-free text before `::`. It carries credentials in both user and token or in neither. Its input is the processor id, `::`, the credentials (if any) and the reference, optionally followed by one newline. Any text without `:` fails. |
| FunctionRefs.ResolveRenders | src/malevich_sdk/utils.py:44-109 | Whatever form matched, the text after `::` is `user:token@` or `user:token/` (or nothing) followed by the rebuilt reference, up to a final newline. |
| FunctionRefs.ParseOf | src/malevich_sdk/utils.py:44-111 | Once the `^([^:]+)::` prefix is read, parsing succeeds exactly when some form matches the rest, with the reading of the first form that matches. When no form matches, it raises the ValueError naming the input. |
| FunctionRefs.NoFormFails | src/malevich_sdk/utils.py:111 | `a::x`, which no form reads, raises the ValueError. |
| FunctionRefs.SingleColonFails | src/malevich_sdk/utils.py:111 | A text whose first `:` is not doubled, such as `proc:image:tag`, raises the ValueError. |
| FunctionRefs.PinnedForm | src/malevich_sdk/utils.py:44-53 | `name::$<id>`, with id in `[a-f0-9-]+`, parses to processor `name` and reference `$<id>`, with no user and no token. |
| FunctionRefs.RegistryForm | src/malevich_sdk/utils.py:56-73 | `name::user:pw@registry/path:tag[@sha256:hex]` parses to user and token `user`/`pw` and reference `registry/path:tag[@sha256:hex]`. |
| FunctionRefs.LegacyForm | src/malevich_sdk/utils.py:76-91 | `name::user:pw/image:tag[@digest]` parses to user and token `user`/`pw` and reference `image:tag[@digest]`. |
| FunctionRefs.PlainForm | src/malevich_sdk/utils.py:94-109 | `name::image:tag[@digest]` parses to reference `image:tag[@digest]` with no credentials. |
| FunctionRefs.RegistryBeforeLegacy | src/malevich_sdk/utils.py:56-91 | A form-2 text that also reads as form 3 (password `pw@registry`, image `path`) is parsed by form 2: the first match wins. |
| FunctionRefs.LegacyBeforePlain | src/malevich_sdk/utils.py:76-109 | A form-3 text also reads as form 4 (image `user`), yet the credentials of the form-3 reading are returned. |
| FunctionRefs.LegacyNotRegistry | src/malevich_sdk/utils.py:56 | Form 2 cannot match a form-3 text whose password holds neither `/` nor `@` and whose image and tag hold no `@`. |
| FunctionRefs.PlainNotCredentials | src/malevich_sdk/utils.py:56-76 | A form-4 text whose tag holds no `/` matches neither credential form. |
| FunctionRefs.PinnedRejectsColon | src/malevich_sdk/utils.py:44 | Form 1 never matches a reference holding a `:`. |
| FunctionRefs.MatchToEnd | src/malevich_sdk/utils.py:44 | `[class]+$` matches exactly a non-empty text of the class, optionally followed by one final newline. |
| FunctionRefs.TagDigest | src/malevich_sdk/utils.py:94 | `([^@]+)(?:@(sha256:[a-f0-9]+))?$` yields a non-empty tag without `@`. The tag and digest rebuild the text, up to a final newline after a digest. |
| FunctionRefs.TagDigestOf | src/malevich_sdk/utils.py:94 | A tag followed by a well-formed digest reads back as exactly that tag and digest. |
| FunctionRefs.SplitName | src/malevich_sdk/utils.py:44 | `^([^:]+)::` splits off a non-empty `:`-free processor id. It fails exactly when there is no `:`, the text starts with `:`, or the first `:` is not followed by another. |
| FunctionRefs.SplitNameOf | src/malevich_sdk/utils.py:44 | A `:`-free non-empty name followed by `::` is split back into that name and the rest. |
| FunctionRefs.LazyImagePath | src/malevich_sdk/utils.py:56 | The lazy `(.+?):` ends the image path at the first `:` followed by a valid tag. It never crosses a newline. |
| FunctionRefs.LazyImagePathOf | src/malevich_sdk/utils.py:56 | A `:`-free, newline-free path is exactly what the lazy scan returns. |
| FunctionRefs.MatchRegistry | src/malevich_sdk/utils.py:56 | A form-2 match has a `:`-free user, an `@`-free password and a `/`-free registry, and the pieces rebuild the text. |
| FunctionRefs.MatchLegacy | src/malevich_sdk/utils.py:76 | A form-3 match has a `:`-free user, a `/`-free password and a `:`-free image, and the pieces rebuild the text. |
| FunctionRefs.MatchPlain | src/malevich_sdk/utils.py:94 | A form-4 match has a `:`-free image, and the pieces rebuild the text. |
| FunctionRefs.RefOfTail | src/malevich_sdk/utils.py:97-101 | The rebuilt `image:tag[@digest]` is the matched text, less a final newline after a digest. |
| FunctionRefs.GetId | src/malevich_sdk/utils.py:32-33 | `getid(p)` begins with `p + "_"`, followed by 32 lower-case hex digits. |
| FunctionRefs.GetIdInjective | src/malevich_sdk/utils.py:32-33 | Distinct uuids give distinct ids under the same prefix. |
| Processors.ResolveFunction | src/malevich_sdk/modelling/flow.py:52 | A FunctionRef is taken as given. A text goes through `parse_fn`, and its error is the parser's. |
| Processors.Leading | src/malevich_sdk/modelling/flow.py:58-63 | The number of positional arguments before the first non-Group one. All of them are groups. |
| Flows.CollectionNameInjective | src/malevich_sdk/modelling/flow.py:65 | `<group>_<n>` determines both the group name and the ordinal. |
| Processors.Classify | src/malevich_sdk/core_api/run.py:155-160 | A positional argument passes a caller's `isinstance` test iff it is an instance of that caller's own Group class, and then carries its name and data. An instance of the other Group class is rejected under the type name `Group`. |
| Processors.ClassifiedLeading | src/malevich_sdk/modelling/flow.py:58-63 | The group loop gets through all arguments iff each is an instance of the caller's class. It stops at the first argument that is not, and names `Group` when that argument is of the other Group class. |
| Flows.StartWithForeignGroup | src/malevich_sdk/modelling/flow.py:58-63 | `startwith` succeeds only when every positional argument is a modelling/group.py Group. A `malevich_sdk.Group` (core_api/run.py's class) preceded only by accepted groups raises "Got Group instead". |
| Flows.NumberOutcome | src/malevich_sdk/modelling/flow.py:58-63 | The group loop fails exactly at the first non-Group argument, with the TypeError naming its type. |
| Flows.NumberCounts | src/malevich_sdk/modelling/flow.py:64 | Every group before the first non-Group argument bumps its name's counter by one. A name gets a counter once counted. |
| Flows.NumberOrdinals | src/malevich_sdk/modelling/flow.py:64-66 | The i-th group is numbered with its name's counter before the call plus its occurrences up to and including i. |
| Flows.NodeGroupsShape | src/malevich_sdk/modelling/flow.py:58-85 | The node's groups are the positional groups, each named `<name>_<n>` with n its running count. Non-empty data adds a last group `__input__<n>` carrying the data, where n is the `__input__` counter. |
| Flows.NodeGroupsCounts | src/malevich_sdk/modelling/flow.py:64-77 | After a successful loop each counter went up by its name's occurrences. Data adds the key `__input__` without bumping it. |
| Flows.StartWith | src/malevich_sdk/modelling/flow.py:39-110 | A function that does not parse fails with the parser's error and changes nothing. The literal key `'name'` among the counters fails with the "already exists" ValueError. A success returns `FlowRef(name)`. |
| Flows.StartWithOutcome | src/malevich_sdk/modelling/flow.py:52-66 | `startwith` succeeds iff the function parses, `'name'` is not a counter and every positional argument is a Group. On the TypeError the groups before the bad argument stay counted, and processors and stored groups are unchanged. |
| Flows.StartWithCounters | src/malevich_sdk/modelling/flow.py:64-77 | A successful `startwith` bumps each name's counter by its occurrences. Only data adds `__input__` without counting it. |
| Flows.StartWithNode | src/malevich_sdk/modelling/flow.py:91-109 | The node's processor runs the resolved function with `config or {}` and the given settings. Its arguments are exactly the group names, plus `__input__` for non-empty data. No other node changes. |
| Flows.StartWithCollections | src/malevich_sdk/modelling/flow.py:64-85 | Each positional group name reads `<name>_<n>`, n being its counter after the call, so the last group of a repeated name wins. Data reads `__input__<n>`. |
| Flows.StartWithStores | src/malevich_sdk/modelling/flow.py:87-88 | The node's groups are stored under the node name, each with the collection the processor reads. Earlier groups of that node stay unless renamed over, and other nodes keep theirs. |
| Flows.StartWithCountersGrow | src/malevich_sdk/modelling/flow.py:64 | No `startwith`, successful or not, lowers a counter. |
| Flows.CollectionsNeverRepeat | src/malevich_sdk/modelling/flow.py:64-66 | Two `startwith` calls on a flow whose counters did not go down bind a group name to different collections. |
| Flows.InputCollectionOf | src/malevich_sdk/modelling/flow.py:76-85 | Without a positional `__input__` group, data reads `__input__<n>` for the current counter n and leaves that counter as it was. |
| Flows.InputCollectionRepeats | src/malevich_sdk/modelling/flow.py:76-80 | Two nodes started with data read the same collection `__input__<n>`: the data group never bumps its counter. |
| Flows.NameGroupLocksFlow | src/malevich_sdk/modelling/flow.py:53-54 | Once a group called `name` was counted, every later `startwith` and `add` fails with "already exists", whatever node name is given. |
| Flows.Locked | src/malevich_sdk/modelling/flow.py:124-125 | With the key `'name'` among the counters, `add` and `startwith` refuse every node name and change nothing. |
| Flows.RepeatedNameReplaces | src/malevich_sdk/modelling/flow.py:109 | Reusing a node name is not refused. The new processor takes the old one's place, and the set of node names is unchanged. |
| Flows.Add | src/malevich_sdk/modelling/flow.py:112-141 | `add` succeeds iff the function parses and `'name'` is not a counter. It then puts under the node name a processor with the resolved function, `config or {}` and no arguments. Counters, stored groups and other nodes are unchanged. |
| Flows.Touch | src/malevich_sdk/modelling/flow.py:161 | Reading `groups[id]` of the defaultdict adds an empty group dict for a missing node, and changes nothing else. |
| Flows.AddFlow | src/malevich_sdk/modelling/flow.py:143-173 | A non-FlowRef `from_` or `in_` raises the TypeError naming its type. A group or argument already named `to` raises ValueError, and a missing target node raises KeyError. Otherwise only the target's argument `to` is added, reading the output of `from_`. |
| Flows.AddFlowOnce | src/malevich_sdk/modelling/flow.py:166-169 | A second `addflow` into the same argument fails with the "already an argument" ValueError and changes nothing. |
| Flows.TouchKeepsGroups | src/malevich_sdk/modelling/flow.py:161-193 | The empty dict the lookup may add holds no group, so the upload visits the same groups. |
| Flows.UploadCollections | src/malevich_sdk/modelling/flow.py:189-198 | Exactly the collection names of the visited groups are mapped. |
| Flows.UploadCoversStored | src/malevich_sdk/modelling/flow.py:192-197 | Every stored group's collection name is uploaded. |
| Flows.UploadLastWins | src/malevich_sdk/modelling/flow.py:195-197 | A collection name maps to `'#'` plus the id of the document made for the last group visited with that name. |
| Documents.Collect | src/malevich_sdk/core_api/run.py:210-216 | Every name is mapped, and only those. A name maps to `'#'` plus the id of the document created at its last occurrence. |
| Dicts.Put | src/malevich_sdk/core_api/run.py:161 | Writing a key updates it in place if present and appends it otherwise. Every other key reads as before. |
| Dicts.PutValid | src/malevich_sdk/core_api/run.py:161 | Writing keeps the keys distinct. |
| Pipelines.NewPipeline | src/malevich_sdk/core_api/pipeline.py:64-67 | The id is the given id when non-empty, and the digest of the processors otherwise. |
| Pipelines.HashIgnoresIdentity | src/malevich_sdk/core_api/pipeline.py:55-62 | The hash and the results depend only on the processor map, not on the id or the result map given. |
| Pipelines.AsCore | src/malevich_sdk/core_api/pipeline.py:69-78 | The core pipeline has the pipeline's id and processors, and one result per processor key named `<hash>_<key>`. |
| Pipelines.ResultNameInjective | src/malevich_sdk/core_api/pipeline.py:75 | Different processor keys get different result names. |
| Pipelines.GetPipeline | src/malevich_sdk/core_api/pipeline.py:84-92 | `get` succeeds iff the id is stored, and returns the stored processors, results and id. Any failure is PipelineNotFoundError. |
| Pipelines.Upsert | src/malevich_sdk/core_api/pipeline.py:94-103 | The result is the pipeline stored under the digest. The store changes only on a miss, by creating that one pipeline. |
| Pipelines.UpsertOnce | src/malevich_sdk/core_api/pipeline.py:98-103 | A second upsert of the same processors creates nothing and returns the same pipeline. The store gains at most the one key. |
| Pipelines.UpsertRoundTrip | src/malevich_sdk/core_api/pipeline.py:98-103 | A pipeline created by upsert reads back with the digest as its id and the given processors. Its core form is exactly the stored record. |
| Pipelines.Active | src/malevich_sdk/core_api/pipeline.py:36-39 | One unbound operation per listed id, in order. |
| Pipelines.Create | src/malevich_sdk/core_api/pipeline.py:42-48 | An empty cfg is created under a `cfg_` id, and the pipeline is prepared with it. The result is the prepared operation, unbound. |
| Operations.BindPipeline | src/malevich_sdk/core_api/operation.py:39-48 | Binding succeeds iff verification is off or the platform reports the same pipeline. Success sets the pipeline id. Failure is the "not associated" ValueError and leaves the operation as it was. |
| Operations.BindIdempotent | src/malevich_sdk/core_api/operation.py:39-48 | Binding twice to the same pipeline succeeds and changes nothing the second time. |
| Operations.RunsCreate | src/malevich_sdk/core_api/operation.py:15-29 | A cfg with the given collections (or none) and the single extension key `$__main__` holding the config is created. The operation is then started with it. The run has a `run_` id, the operation's id and its pipeline id. |
| Operations.RunsCreateFresh | src/malevich_sdk/core_api/operation.py:20-29 | Distinct run uuids give distinct run ids. |
| Runs.Status | src/malevich_sdk/core_api/run.py:75-82 | Only `in_progress`, `running` and `waiting` are accepted, all as `in_progress`. Every other text, `completed` and `failed` included, raises the ValueError naming it. |
| Runs.Docs | src/malevich_sdk/core_api/run.py:42-57 | There are three cases: <br>1. No pipeline id raises ValueError. <br>2. A missing pipeline raises PipelineNotFoundError. <br>3. Otherwise, no `__main__` processor gives `[]`; an empty collection list is an IndexError; otherwise the result is the first collection of the `__main__` result named after the stored processors' hash. |
| Runs.PutGroups | src/malevich_sdk/core_api/run.py:155-161 | The first non-Group argument raises the TypeError. Otherwise each group name reads the data of its last group, and other keys are unchanged. |
| Runs.RunKwargs | src/malevich_sdk/core_api/run.py:153-166 | `run_kwargs` has distinct keys. Each group name maps to its last group's data, and `__input__` maps to non-empty keywords, overriding a group of that name. |
| Runs.MainProcessor | src/malevich_sdk/core_api/run.py:170-184 | The `__main__` processor has one argument per `run_kwargs` key, reading the collection named like the key, with `config or {}`. |
| Runs.CollectionNameMap | src/malevich_sdk/core_api/run.py:202-207 | Exactly the `__main__` arguments naming a non-empty collection are mapped, each to that collection. |
| Runs.Dispatch | src/malevich_sdk/core_api/run.py:177-190 | The pipeline is upserted. The first active operation is taken, or one is created with an empty cfg. The operation is bound with verification, and it fails with the binding's error. |
| Runs.Submit | src/malevich_sdk/core_api/run.py:209-218 | One document is created per `run_kwargs` entry, in order. The run is then created with the collections keyed by the pipeline-reported name, falling back to the group name. |
| Runs.RunFunction | src/malevich_sdk/core_api/run.py:111-220 | A function that does not parse, or a positional non-Group, fails before any request is made. A success implies both checks passed. |
| Runs.RunRequestsStart | src/malevich_sdk/core_api/run.py:187-218 | The requests of a `run` begin with those of obtaining the operation. No document is uploaded before the operation is chosen or created. |
| Runs.RunForeignGroup | src/malevich_sdk/core_api/run.py:155-160 | `run` submits only when every positional argument is an instance of core_api/run.py's Group. A modelling/group.py Group preceded only by accepted groups raises "Got Group instead" before any request. |
| Runs.RunBindsOperation | src/malevich_sdk/core_api/run.py:177-194 | `run` upserts its `__main__` pipeline. A failed verification of the chosen operation ends it with the "not associated" ValueError. After a successful binding, a failure of the second `get_run_main_pipeline_cfg` propagates as that call's error. |
| Runs.Prepared | src/malevich_sdk/core_api/run.py:192-197 | The prepared pipeline is the one the second `get_run_main_pipeline_cfg` names, read back with `Pipeline.get`. If that call fails, its error propagates unchanged. |
| Runs.RunUsesOperation | src/malevich_sdk/core_api/run.py:187-218 | A submitted run belongs to the chosen operation and to the upserted pipeline. |
| Runs.RunCreatesOperation | src/malevich_sdk/core_api/run.py:187-189 | With no active operation, the first requests are the cfg creation and the prepare of `operations.create`. |
| Runs.TargetsAreNames | src/malevich_sdk/core_api/run.py:202-213 | Against its own `__main__` processor, every group uploads to the collection named like the group. |
| Runs.ReorderedConfig | src/malevich_sdk/core_api/run.py:177-184 | Configs with the same entries in another order give different `__main__` processors. Under a digest that separates them, the second `run` creates a second pipeline instead of reusing the first. |
| Runs.RunFreshCollections | src/malevich_sdk/core_api/run.py:170-218 | When `run` created the pipeline and the platform answers the second pipeline lookup as it answered the binding's, the cfg it submits maps every `run_kwargs` key to the document of its data, and `$__main__` to the config. |
| Runs.RunThenDocs | src/malevich_sdk/core_api/run.py:42-57 | The documents of a run that `run` submitted on a pipeline it created are read from the `__main__` result named after the hash of the submitted processors. |
| CredStore.AddCore | src/malevich_sdk/usp/credstore.py:85-113 | The new core record is appended last. Without `replace` nothing else changes. With `replace` exactly the core records are removed, and every other record, image or of any other type, keeps its place in order. |
| CredStore.AddImage | src/malevich_sdk/usp/credstore.py:115-144 | The new image record is appended last. Without `replace` the list grows by one. With `replace` only the image records of exactly that ref are removed. |
| CredStore.GetCore | src/malevich_sdk/usp/credstore.py:146-177 | Non-empty MALEVICH_USER and MALEVICH_PASSWORD win, with the host from MALEVICH_HOST or the default, and the username is ignored. Otherwise the result is read from the first stored core record whose user is exactly that username, with a missing host defaulted. It is None if there is no such record. |
| CredStore.GetImage | src/malevich_sdk/usp/credstore.py:179-212 | Non-empty MALEVICH_IMAGE_USER and MALEVICH_IMAGE_TOKEN win, for whatever ref is asked. Otherwise the result is read from the first image record whose ref is exactly equal, with no prefix matching, and is None if there is none. |
| CredStore.GetAllImage | src/malevich_sdk/usp/credstore.py:214-228 | The image records, in stored order. |
| CredStore.RemoveCore | src/malevich_sdk/usp/credstore.py:230-244 | The answer is true iff a core record existed. Afterwards none remains and the others keep their order. |
| CredStore.RemoveImage | src/malevich_sdk/usp/credstore.py:246-264 | The answer is true iff an image record of that ref existed. Afterwards none remains and the others keep their order. |
| CredStore.SummaryOf | src/malevich_sdk/usp/credstore.py:279-291 | A core summary has type, user and host. An image summary has type, ref and user. Neither has a password or a token. |
| CredStore.ListAll | src/malevich_sdk/usp/credstore.py:271-292 | One summary per core or image record, in order. Records of other types are dropped, and no secret is listed. |
| CredStore.ClearAll | src/malevich_sdk/usp/credstore.py:266-269 | The store is emptied. |
| CredStore.ClearAllForgets | src/malevich_sdk/usp/credstore.py:266-269 | After `clear_all` only the environment can answer a lookup, and nothing is listed. |
| CredStore.AddCoreThenGet | src/malevich_sdk/usp/credstore.py:105-111 | Without an environment override, the core record just added with `replace` is the one read back. |
| CredStore.AddCoreKeepsOlder | src/malevich_sdk/usp/credstore.py:169-175 | Without `replace`, an older core record of the same user shadows the one just added. |
| CredStore.AddImageThenGet | src/malevich_sdk/usp/credstore.py:135-142 | Without an environment override, the image record just added with `replace` is the one read back for its ref. |
| Arguments.Validate | src/malevich_sdk/modelling/arguments.py:27-64 | A given field keeps its value. A missing one takes the class default: default None, required, group `$default`, no file mode. |
| Arguments.SpecificationDefaults | src/malevich_sdk/modelling/arguments.py:33-59 | A specification from no keywords is default None, required, group `$default`, no title, description or file mode. |
| Arguments.Input | src/malevich_sdk/modelling/arguments.py:215-225 | `Input` is required iff no positional default is given. Its stored default is None when required and the value otherwise. The group is the `group` argument when non-empty, and `$default` otherwise. |
| Arguments.KeywordDefaultIgnored | src/malevich_sdk/modelling/arguments.py:215-224 | `default` and `required` keywords are overwritten. `Input(default="en")` is still required, with default None. |
| Arguments.InputGroup | src/malevich_sdk/modelling/arguments.py:353-361 | `InputGroup` follows the same required/default rule. It returns a grouped marker whose group is the given one or `$default`. |
| Arguments.File | src/malevich_sdk/modelling/arguments.py:472-473 | `File(type)` sets the file mode to `type` and is always required, with default None, whatever keywords are given. |
| Arguments.MarkersNeverStoreSentinel | src/malevich_sdk/modelling/arguments.py:219-357 | No marker ever stores the no-default sentinel. |
| Arguments.RunContext | src/malevich_sdk/modelling/arguments.py:497-509 | The context marker stores the given model, `Config` by default. |
| LogicFunctions.CheckArguments | src/malevich_sdk/modelling/function.py:73-83 | The check passes iff every parameter is positional-or-keyword or keyword-only. Otherwise the first other parameter raises NotImplementedError, "Variadic" for `*args`/`**kwargs` and "Positional-only" otherwise. |
| LogicFunctions.AddField | src/malevich_sdk/modelling/function.py:192-200 | The field is written into the default key's dict, created if missing, and its kind becomes `doc`. Other fields and keys are unchanged. Writing into a group tuple under that key raises TypeError. |
| LogicFunctions.Step | src/malevich_sdk/modelling/function.py:166-219 | One parameter is handled as follows: <br>- `self`/`cls` are skipped. <br>- A group marker raises on a file mode or a non-model annotation, and is otherwise entered under its own name with kind `doc` and its group set to its name. <br>- A context marker sets the context. <br>- Input markers and plain parameters become fields of the default key. |
| LogicFunctions.Process | src/malevich_sdk/modelling/function.py:135-221 | The kinds are recorded for exactly the keys of the input map, all `doc`. |
| LogicFunctions.FoldKeepsKinds | src/malevich_sdk/modelling/function.py:186-194 | Every step keeps the kinds in line with the input map. |
| LogicFunctions.SelfAndClsIgnored | src/malevich_sdk/modelling/function.py:167-168 | The analysis is that of the parameter list without `self` and `cls`. |
| LogicFunctions.KeysFromGroups | src/malevich_sdk/modelling/function.py:171-200 | Every input-map key is the default key or the name of a group parameter, so `self` and `cls` never appear. |
| LogicFunctions.GroupParamEntered | src/malevich_sdk/modelling/function.py:171-187 | A group parameter of a successful analysis is entered under its own name with its annotation, kind `doc` and group set to its name. Its default is required iff the sentinel. Its file mode is unset and its annotation a model. |
| LogicFunctions.GroupParamRejected | src/malevich_sdk/modelling/function.py:178-182 | A group parameter with a file mode or a non-model annotation makes the analysis fail. |
| LogicFunctions.FieldEntered | src/malevich_sdk/modelling/function.py:189-219 | When parameter names are distinct and none is the default key, an Input or plain parameter is a field of the default key, with its annotation, and the default key's kind is `doc`. It is required iff its default is the sentinel or missing. |
| LogicFunctions.ContextDetected | src/malevich_sdk/modelling/function.py:203-206 | `has_context` holds iff some parameter has a `RunContext` default. The last such parameter gives the model. |
| LogicFunctions.FirstUnannotated | src/malevich_sdk/modelling/function.py:373-384 | Finds the first parameter that is not `self`/`cls`, has no annotation and has no `RunContext` default. |
| LogicFunctions.Decorate | src/malevich_sdk/modelling/function.py:367-433 | The checks run in order: return annotation, parameter annotations, kinds, class method, instance method. The decorator succeeds iff all pass and the analysis under `__input__` succeeds, and then returns that analysis. |
| Scoped.Normalize | src/malevich_sdk/core_api/connection.py:10-11 | The URL ends with `/`. It is unchanged if it already did, and extended by one `/` otherwise. |
| Scoped.NormalizeIdempotent | src/malevich_sdk/core_api/connection.py:10-11 | Normalising twice is normalising once. |
| Scoped.WithConnection | src/malevich_sdk/core_api/connection.py:10-18 | The body sees the configuration with the host set to the normalised URL. Its outcome, returned or raised, is passed on, and afterwards the host is put back while the body's other changes stay. |
| Scoped.ConnectionRestored | src/malevich_sdk/core_api/connection.py:13-18 | Inside the block the host is the normalised URL and nothing else differs. On any exit, returned or raised, the host is the one before. |
| Scoped.ConnectionRoundTrip | src/malevich_sdk/core_api/connection.py:13-18 | A body that leaves the configuration alone leaves exactly the configuration before the block. |
| Scoped.WithCredentials | src/malevich_sdk/core_api/credentials.py:6-17 | The body sees the credentials set to `auth` and is given `auth` itself. Afterwards both fields are restored. |
| Scoped.CredentialsRestored | src/malevich_sdk/core_api/credentials.py:10-17 | Inside the block user and password are `auth` and nothing else differs. On any exit both are restored. |
| Scoped.CredentialsRoundTrip | src/malevich_sdk/core_api/credentials.py:10-17 | A body that leaves the configuration alone leaves exactly the configuration before the block. |

## Left out

- Remote platform calls are modelled as answers passed in, not as behaviour of the platform. This covers `create_doc`, `get_task_runs`, `pipeline_prepare`, `get_run_main_pipeline_cfg`, `get_run_status`, `get_collections_by_group_name` and `task_run`. Each call has its own answer, and answers to the same call may differ: `run` asks `get_run_main_pipeline_cfg` twice, and `Remote` holds the binding's answer and the later one separately.
- Runs.RunFreshCollections: assumes the second `get_run_main_pipeline_cfg` of a run agrees with the binding's answer (`Runs.SameAnswer`). If it names another stored pipeline, the SDK reads that pipeline's collection names without checking them.
- `create_pipeline` is assumed to succeed. A network failure inside `get` is modelled only as absence from the store.
- The log readers, `PipelineCursor` and `Task` (core_api/tasks.py) are network iteration.
- SHA-256, JSON serialisation and `uuid4` are not computed. The digest is a function of the processor map, and uuids are given 32-hex-digit texts. `Pipeline.hash` dumps with sorted keys, so the order of processor keys and argument keys cannot matter, and a map models exactly that. A config's key order does matter, because the config is already JSON text inside the processor; it is kept as ordered entries.
- Group data are maps from key to text, and configs are ordered entries of key and text. JSON values other than dicts of scalars are not modelled.
- `Flow.build` is not modelled. It calls `Pipeline.from_core_pipeline`, and core_api/pipeline.py does not define it.
- `build_local_collections` is not modelled, because its storage belongs to a foreign runner.
- Credential-file loading and saving and file permissions are not modelled. The record list starts as given. `os.getenv` reads the environment map passed in.
- The CLI (cli/commands), usp/uvenv.py and modelling/file.py are not part of this model. The CLI's call of `get_core_credentials()` at cli/commands/creds.py:167 omits the required username and would raise.
- Reflection is replaced by an abstract parameter descriptor: name, kind, annotation and default. `issubclass_safe(annotation, BaseModel)` is the descriptor's model flag.
- The decorator's wrapper, tags, output model, `processor()` registration and input unwrapping are not modelled. They are schema generation and validation by foreign libraries.
- A keyword that pydantic would reject, such as an invalid `file_mode` text, is not representable. File modes are limited to the three literals.
- `ArgumentSpecification` objects built directly, rather than through the markers, are not modelled.
- Runs.Docs: the branch for an empty `__main__` result list exists in the model but is unreachable, because `as_core_pipeline` always gives one result per processor.
- LogicFunctions.Step: on the group-parameter error path the source has already set `spec.group` to the parameter name before raising. The model discards that state with the error.
- Arguments.Input: pydantic's validation of `title`, `description` and extra keywords is not modelled. They are carried over as given.
- LogicFunctions.Decorate: the instance-method error is stated only through the success condition, not with its message.
