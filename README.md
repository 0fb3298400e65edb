# overlay-gpt-flask in Dafny

A verified model of the core of overlay-gpt-flask. This Flask/Socket.IO backend
generates office-document content with GPT. It keeps "programs" (uploaded
files, identified by `fileId`) in a similarity store, so that related
programs can be suggested.

The model covers:

- **The bounded similarity store** (`databases/vector_database.py`).
  - A dict from int id to `{text, title, metadata}`, kept in dict insertion order, next to an append-only vector index.
  - Storing into a full store first evicts the smallest id and rebuilds the index in ascending id order.
  - Deleting never touches the index.
  - A search maps FAISS positions back to ids through the dict's key order.
- **The older unbounded store** (`vector_database.py`). Its search reads each FAISS position as a dict key.
- **Corrected versions of both stores' searches.** Each index position remembers the id whose vector it holds (module `Slots`: an id's newest slot), and a search reports an id only through its newest slot.
- **The pickle-backed metadata map** (`db/model.py`).
- **The program service** (`services/vector_db_service.py`). It deletes and then stores, with the description `"<type> <context>"`.
- **The socket command handler** (`services/command_handler.py`): command dispatch, strategy choice and the "top workflows" request.
- **The strategy factory** (`prompts/prompt_factory.py`).
- **The decorator registry and `handle_prompt`** (`registry.py`, `prompt_service.py`).
- **The four small prompt templates** (`prompts/*.py`).
- **The pure parts of the LLM strategies**:
  - brace escaping of the program context;
  - example numbering;
  - the file-type → markup decision tables;
  - the template choice.
- **Text extraction from Word and PowerPoint documents**, plus the counts in their summaries (`services/word_service.py`, `services/powerpoint_service.py`).
- **Configuration precedence** (`config_loader.py`).

External effects are parameters:

- **Title generation and embedding.** The GPT title is a `title` argument. An embedding is the injective constructor `Embedding(text)`.
- **Nearest-neighbour search.** FAISS's answer is a sequence of positions `labels`, where -1 means "no result".
- **Exceptions from libraries.** A failing library call is a `failed` flag.
- **Object addresses and model output.** The address in an object's `repr` is an `address` string. The LLM's answer is a `generated` result.
- **Environment and files.** The process environment is a map. Each candidate config file is `Missing`, `Unreadable` or `Loaded(settings)`.

Python values carried in messages and metadata are the datatype `Values.Value`: None, bool, int, str, list and dict. Python's truthiness, `dict.get`, the `True == 1` key equality and the TypeError raised by unhashable keys are written out where the code depends on them.

Two behaviours of the bounded store are modelled as the code does them:

- **Eviction re-embeds text, not titles.** On store, the vector is the embedding of the generated title (`databases/vector_database.py:178-184`). The index rebuilt after an eviction embeds each record's text instead (`databases/vector_database.py:150-154`). The model keeps both; the corrected store below accepts either as a record's own vector.
- **Index order and key order drift apart.** The rebuilt index is in ascending id order. The search maps positions through insertion order (`databases/vector_database.py:255-259`). After an eviction the two can disagree: `BoundedStore.RebuildOrderDiffersFromKeyOrder` exhibits a position that is reported under another record's id. `delete_vector` leaves the deleted record's vector in the index (`BoundedStore.DeleteLeavesIndex`), which shifts every later position against the key list in the same way. This is a defect, listed under "## Findings"; the corrected store (`BoundedStore.Tracked`) records the id of every index position.

## Model

| member | source | states |
|---|---|---|
| Values.GetOr | databases/vector_database.py:266-267 | `d.get(key, default)`: the stored value when the key is present, the default otherwise |
| Strings.Strip | services/word_service.py:200 | the result has no leading or trailing whitespace and is no longer than the input |
| Strings.StripEmptyIffBlank | services/word_service.py:200-201 | `s.strip()` is empty exactly when every character of `s` is whitespace |
| Strings.StripIdempotent | services/powerpoint_service.py:196 | stripping twice is stripping once |
| Strings.Lower | prompts/strategies/freestyle_prompt.py:57 | `str.lower` on ASCII: same length, each character lowered in place |
| Strings.LowerIdempotent | prompts/strategies/freestyle_prompt.py:57 | lowering twice is lowering once |
| Strings.JoinLength | services/word_service.py:219 | `sep.join(parts)` has the parts' total length plus one separator between each pair |
| Strings.JoinSnoc | prompts/strategies/freestyle_prompt.py:247 | joining one more part appends the separator and that part |
| Strings.Decimal | prompts/strategies/freestyle_prompt.py:247 | `str(n)` is a non-empty string of decimal digits |
| Strings.DecimalRoundTrip | prompts/strategies/freestyle_prompt.py:247 | reading the digits of `str(n)` gives back `n` |
| Strings.DecimalInjective | prompts/strategies/freestyle_prompt.py:247 | different numbers print differently, so example numbers are distinct |
| Strings.ParseIntDecimal | config_loader.py:73 | `int(str(n)) == n` for every non-negative `n` |
| BoundedStore.Smallest | databases/vector_database.py:139 | `min(keys, key=int)`: an element of the keys no greater than any key |
| BoundedStore.Without | databases/vector_database.py:142 | removing a key from the key order never lengthens it, and shortens it when the key was there |
| BoundedStore.WithoutMembers | databases/vector_database.py:142 | removing a key keeps exactly the other keys, and changes nothing for an absent key |
| BoundedStore.WithoutDistinct | databases/vector_database.py:142 | removing a key from a duplicate-free key list leaves it duplicate-free and one shorter |
| BoundedStore.SortAscendingMembers | databases/vector_database.py:150 | `sorted(keys)` has exactly the keys |
| BoundedStore.SortAscendingIncreasing | databases/vector_database.py:150 | `sorted` of distinct keys is strictly increasing and as long as the keys |
| BoundedStore.OrderLength | databases/vector_database.py:255 | `list(metadata_store.keys())` has one entry per record |
| BoundedStore.Reembed | databases/vector_database.py:151-154 | the rebuilt vectors are, position by position, the embeddings of the listed records' texts |
| BoundedStore.Evict | databases/vector_database.py:135-136 | eviction on an empty store changes nothing |
| BoundedStore.EvictWellFormed | databases/vector_database.py:131-160 | after eviction the key order still lists each record once, and a non-empty store's index has one vector per record |
| BoundedStore.EvictRemovesSmallest | databases/vector_database.py:139-142 | eviction removes exactly one key, the smallest, and keeps every other record unchanged |
| BoundedStore.EvictRebuildsIndex | databases/vector_database.py:145-157 | the rebuilt index holds one vector per remaining id, in strictly ascending id order, each the embedding of that record's text |
| BoundedStore.ReembedAll | databases/vector_database.py:151-154 | the rebuild loop produces exactly the re-embedded vectors of the ids, in order |
| BoundedStore.StoreWellFormed | databases/vector_database.py:164-191 | storing keeps the key order and the records in step |
| BoundedStore.StoreSetsRecord | databases/vector_database.py:178-191 | after `store_vector` the id maps to `{text, title, metadata}`, overwriting, and the last vector is the title's embedding |
| BoundedStore.StoreBelowCapacity | databases/vector_database.py:174-191 | below capacity, only `id` changes: others keep their records, the index gains one vector, and a present id keeps its dict position while a new one goes last |
| BoundedStore.StoreFreshIdIsNewest | databases/vector_database.py:174-191 | a newly stored id is the last key, whether or not something was evicted |
| BoundedStore.StoreCapacity | databases/vector_database.py:174-187 | with `max_vectors >= 1`, a store within capacity stays within capacity |
| BoundedStore.StoreAtCapacityOverwriteShrinks | databases/vector_database.py:174-187 | overwriting a present id in a full store still evicts the smallest other id, leaving one record fewer than the capacity |
| BoundedStore.StoreKeepsIndexCover | databases/vector_database.py:164-191 | an index at least as long as the key list stays so after a store |
| BoundedStore.Get | databases/vector_database.py:206-209 | `get_vector` returns the stored record for a present id and raises KeyError(id) otherwise |
| BoundedStore.DeleteErrors | databases/vector_database.py:218-219 | `delete_vector` raises KeyError(id) exactly for an absent id |
| BoundedStore.DeleteLeavesIndex | databases/vector_database.py:218-223 | a delete removes only that key and leaves the index as it was, so a matched index becomes one vector longer than the store |
| BoundedStore.DeleteWellFormed | databases/vector_database.py:221 | deleting keeps the key order and the records in step |
| BoundedStore.HitAt | databases/vector_database.py:259-268 | the result for a position names a current key |
| BoundedStore.KeptBounds | databases/vector_database.py:257-258 | the kept positions are at most as many as returned, each is neither -1 nor past the key count, and each was returned |
| BoundedStore.HitsFollowKept | databases/vector_database.py:255-269 | each result is the record at that position of the dict's key order, with text, title and metadata copied, and `fileId`/`volumeId` read from the metadata, `None` when missing |
| BoundedStore.SearchEmptyStore | databases/vector_database.py:237-238 | an empty store answers every search with `[]` |
| BoundedStore.SearchBounded | databases/vector_database.py:248-259 | when FAISS returns `min(k, len)` positions, at most `min(k, len)` results come back and each id is a store key |
| BoundedStore.RebuildOrderDiffersFromKeyOrder | databases/vector_database.py:150-259 | after ids 9, 5, 7 and then 1 are stored with capacity 3, the keys are [9, 7, 1] and the index starts with 7's vector, yet position 0 is reported as id 9 |
| BoundedStore.TrackedEvict | databases/vector_database.py:131-161 | corrected eviction: the same new state as `_remove_oldest_vector`, with the rebuilt index's ids listed |
| BoundedStore.TrackedStore | databases/vector_database.py:164-194 | corrected store: the same new state as `store_vector`, with the new vector's id recorded |
| BoundedStore.TrackedDelete | databases/vector_database.py:211-223 | corrected delete: the same outcome as `delete_vector`, KeyError exactly for an absent id |
| BoundedStore.TrackedHits | databases/vector_database.py:255-269 | corrected results loop: each result is a current record, found through its id's newest slot among the returned positions |
| BoundedStore.TrackedSearch | databases/vector_database.py:225-273 | corrected search: `[]` on an empty store or a failure, otherwise only results of the corrected loop |
| BoundedStore.TrackedEvictValid | databases/vector_database.py:131-161 | eviction keeps the slots aligned; after a rebuild every slot is its id's newest and holds that record's text embedding |
| BoundedStore.TrackedStoreValid | databases/vector_database.py:164-194 | storing keeps the slots aligned; the new slot is the id's newest and holds the title's embedding |
| BoundedStore.TrackedDeleteValid | databases/vector_database.py:211-223 | deleting keeps the slots aligned |
| BoundedStore.TrackedHitsAligned | databases/vector_database.py:255-269 | in an aligned store every result is a current record found through a position holding that record's own vector |
| BoundedStore.TrackedRebuildFirst | databases/vector_database.py:150-259 | after a store that evicts, position 0 is reported as the smallest remaining id, whose text the rebuilt index embeds first |
| BoundedStore.VectorDatabase.constructor | databases/vector_database.py:19-47 | a fresh database has an empty store, empty key order and empty index |
| BoundedStore.VectorDatabase.RemoveOldestVector | databases/vector_database.py:131-160 | the object's new state is the eviction of its old state |
| BoundedStore.VectorDatabase.StoreVector | databases/vector_database.py:164-194 | the object's new state is the store of its old state |
| BoundedStore.VectorDatabase.GetVector | databases/vector_database.py:196-209 | returns the record or KeyError and changes nothing |
| BoundedStore.VectorDatabase.DeleteVector | databases/vector_database.py:211-223 | KeyError with no change for an absent id; otherwise the new state is the delete of the old |
| BoundedStore.VectorDatabase.SearchSimilar | databases/vector_database.py:225-275 | the result loop yields the search function's results, no more than FAISS returned, each for a current key |
| UnboundedStore.Get | vector_database.py:61-74 | the stored entry for a present id, KeyError(id) otherwise |
| UnboundedStore.StoreThenGet | vector_database.py:40-59 | after `store_vector` the id reads back as `{text, metadata}` and every other id reads as before |
| UnboundedStore.StoreAppends | vector_database.py:50-55 | each store appends exactly one vector, the text's embedding, and keeps the earlier ones; there is no capacity bound |
| UnboundedStore.DeleteThenGet | vector_database.py:76-86 | after deleting a present id it reads as KeyError, and the index is unchanged |
| UnboundedStore.LookupOkIff | vector_database.py:107-111 | the search succeeds exactly when every position other than -1 is also a dict key, and then returns those keys' entries in FAISS's order |
| UnboundedStore.FoundMembers | vector_database.py:103-108 | at most `k` positions are used, none of them -1, each one FAISS returned |
| UnboundedStore.LookupStaysErr | vector_database.py:109 | once a position raises KeyError, the whole search raises that error |
| UnboundedStore.PositionIsNotId | vector_database.py:107-109 | one vector stored under id 7 is at position 0, and reading position 0 as a key raises KeyError(0) |
| UnboundedStore.AlignedStore | vector_database.py:50-59 | corrected store: keeps the invariant that every stored id's newest slot holds the embedding of its current text |
| UnboundedStore.AlignedDelete | vector_database.py:76-86 | corrected delete: KeyError exactly for an absent id, otherwise only that entry goes and the invariant is kept |
| UnboundedStore.AlignedLookup | vector_database.py:107-111 | corrected lookup: at most one result per position, each a current id with its current entry, found through that id's newest slot |
| UnboundedStore.AlignedSearch | vector_database.py:88-113 | the corrected search fails only when the embedding or FAISS fails |
| UnboundedStore.AlignedSlotsEmbedText | vector_database.py:50-59 | after a store the new slot is the id's newest, embeds its text and resolves to the new entry, and every older slot of that id is retired |
| UnboundedStore.AlignedHitsMatch | vector_database.py:104-111 | every reported id is found through a slot whose vector embeds the reported entry's text |
| UnboundedStore.AlignedLookupDistinct | vector_database.py:104-111 | distinct FAISS positions give distinct ids, so a re-stored id is reported at most once |
| UnboundedStore.AlignedRestoreReportsOnce | vector_database.py:50-59 | storing id 7 with "a" then "b" leaves two vectors, and positions 0 and 1 report only (7, "b") |
| UnboundedStore.VectorDatabase.constructor | vector_database.py:10-21 | a fresh database has an empty store and an empty index |
| UnboundedStore.VectorDatabase.StoreVector | vector_database.py:40-59 | the new state is the store of the old |
| UnboundedStore.VectorDatabase.GetVector | vector_database.py:61-74 | the entry or KeyError, no change |
| UnboundedStore.VectorDatabase.DeleteVector | vector_database.py:76-86 | KeyError with no change for an absent id; otherwise the new state is the delete of the old |
| UnboundedStore.VectorDatabase.SearchSimilar | vector_database.py:88-113 | the results loop equals the search function: -1 skipped, each other position read as a key, KeyError propagated |
| MetadataStore.MetadataDB.constructor | db/model.py:5-11 | the store is the loaded map when a pickle exists, empty otherwise |
| MetadataStore.MetadataDB.Persist | db/model.py:33-35 | persisting snapshots the store and changes nothing else |
| MetadataStore.MetadataDB.Save | db/model.py:13-18 | `save` sets `id -> {text, metadata}`, overwriting, and leaves other keys untouched |
| MetadataStore.MetadataDB.Get | db/model.py:20-23 | the entry for a present id, KeyError(id) otherwise |
| MetadataStore.MetadataDB.Delete | db/model.py:25-28 | removes only that key; an absent id changes nothing at all (no persist), so two deletes equal one |
| MetadataStore.MetadataDB.All | db/model.py:30-31 | returns the whole store |
| MetadataStore.SaveGetDelete | db/model.py:13-28 | save, get, delete of one id leaves the store as before minus that id |
| ProgramService.ProgramText | services/vector_db_service.py:43 | the stored text is the file type, one space, then the context |
| ProgramService.ProgramMetadata | services/vector_db_service.py:49-54 | the metadata has exactly the keys type, context, fileId and volumeId, with the given values |
| ProgramService.ProgramInfo | services/vector_db_service.py:74-78 | the record's metadata for a stored id, KeyError(id) otherwise |
| ProgramService.StoreProgramReadsBack | services/vector_db_service.py:35-75 | after `store_program_info` the program reads back with exactly that metadata, and its id is the newest key |
| ProgramService.StoreProgramWellFormed | services/vector_db_service.py:35-55 | delete-then-store keeps the store's key order and records in step |
| ProgramService.ReplaceKeepsOthers | services/vector_db_service.py:35-55 | below capacity, replacing a program keeps every other program and moves the id to the end of the key order |
| ProgramService.ReplaceAtCapacityEvictsNothing | services/vector_db_service.py:35-55 | replacing a present program in a full store evicts nothing else |
| ProgramService.VectorDBService.constructor | services/vector_db_service.py:9-20 | the service starts with a fresh, empty bounded store |
| ProgramService.VectorDBService.StoreProgramInfo | services/vector_db_service.py:22-61 | the new store is the old store with the old record (if any) deleted and the program stored |
| ProgramService.VectorDBService.GetProgramInfo | services/vector_db_service.py:63-78 | returns the program's metadata or propagates KeyError |
| ProgramService.VectorDBService.DeleteProgramInfo | services/vector_db_service.py:80-92 | propagates KeyError for an unknown id with no change; otherwise the store's delete |
| ProgramService.VectorDBService.SearchSimilarPrograms | services/vector_db_service.py:94-111 | returns the store's search results unchanged |
| CommandHandling.Dispatch | services/command_handler.py:29-40 | only the two known command strings are dispatched; an unhashable command raises |
| CommandHandling.UnsupportedResponse | services/command_handler.py:41-46 | an unknown command gets `response_for_<command>` with status error |
| CommandHandling.ExceptionResponse | services/command_handler.py:48-53 | an exception gives a message and status error, with no command |
| CommandHandling.UnknownCommandEchoed | services/command_handler.py:38-46 | any other command string is unsupported and echoed after `response_for_` |
| CommandHandling.Content | services/command_handler.py:58-65 | the content dict has exactly the six request keys, each `message.get(key)` |
| CommandHandling.StrategyName | services/command_handler.py:68-76 | a truthy target_program selects convert_prompt; otherwise the request-type table with default freestyle; the name is always registered; only an unhashable request_type raises |
| CommandHandling.RequestTypeTable | services/command_handler.py:71-76 | request types 1/2/3/4 select freestyle/generate_text/explain/summary, and any other hashable value selects freestyle |
| CommandHandling.ObjectRepr | services/command_handler.py:82 | the default `repr` of a strategy object starts with `<` |
| CommandHandling.StrategyError | services/command_handler.py:86-92 | a strategy failure answers `response_single_generated_response` with status error |
| CommandHandling.HandleResponse | services/command_handler.py:55-92 | the answer is a success exactly when the strategy resolves and generates, and otherwise the strategy-error response |
| CommandHandling.DefaultTableAlwaysResolves | services/command_handler.py:68-85 | with the default strategy table, success depends only on generation succeeding |
| CommandHandling.SuccessCommandIsObjectRepr | services/command_handler.py:81-85 | the success command interpolates the strategy object's repr, never the strategy name |
| CommandHandling.Field | services/command_handler.py:106-108 | `current_program[key]` succeeds exactly on a dict holding the key |
| CommandHandling.TopError | services/command_handler.py:131-137 | the top-workflows error response has command `response_top_workflows`, status error and no id list |
| CommandHandling.TopWorkflowsAsWritten | services/command_handler.py:94-137 | the handler as written always answers with the top-workflows error |
| CommandHandling.TopWorkflowsNeverSucceeds | services/command_handler.py:111-115 | even a complete, well-typed request gets the error, because the store call's keywords are not parameters of `store_program_info` |
| CommandHandling.Fields | services/command_handler.py:106-108 | the corrected field read: fileId, fileType and context from current_program, volumeId defaulting to None |
| CommandHandling.HitIds | services/command_handler.py:124 | the id list has one entry per search result, in result order |
| CommandHandling.TopWorkflowsFixed | services/command_handler.py:106-130 | the corrected handler keeps the store well formed, reports bad input as the error response, and otherwise answers success with the id list |
| CommandHandling.TopWorkflowsFixedReports | services/command_handler.py:111-130 | after the corrected handler the program reads back with its metadata, and the reported ids are current keys when FAISS returns at most `min(5, len)` positions |
| CommandHandling.CommandHandler.constructor | services/command_handler.py:13-16 | the handler holds the given service and factory |
| CommandHandling.CommandHandler.HandleResponseWith | services/command_handler.py:55-92 | equals the response function over the factory's current table |
| CommandHandling.CommandHandler.HandleTopWorkflows | services/command_handler.py:94-137 | the new store and the answer are those of the corrected handler |
| CommandHandling.CommandHandler.HandleCommand | services/command_handler.py:18-53 | each route gets its response; the top-workflows route answers with the as-written handler's error, and no route changes the store (the method modifies nothing) |
| CommandHandling.CommandHandler.HandleCommandFixed | services/command_handler.py:18-53 | the same dispatch with the corrected top-workflows handler: only that route changes the store, as `TopWorkflowsFixed` specifies |
| StrategyFactory.QualifiedName | prompts/prompt_factory.py:1-7 | each strategy class lives in the strategies package |
| StrategyFactory.Lookup | prompts/prompt_factory.py:24-27 | a registered name gives its class; any other raises `ValueError("Unknown prompt strategy: <name>")` |
| StrategyFactory.DefaultNames | prompts/prompt_factory.py:14-19 | after construction exactly explain, freestyle, generate_text, summary and convert_prompt are registered |
| StrategyFactory.Strategy.constructor | prompts/prompt_factory.py:27 | an instance records its class |
| StrategyFactory.PromptFactory.constructor | prompts/prompt_factory.py:10-19 | the table after construction is the default table |
| StrategyFactory.PromptFactory.RegisterStrategy | prompts/prompt_factory.py:21-22 | maps the name to the class, replacing any previous entry and nothing else |
| StrategyFactory.PromptFactory.GetStrategy | prompts/prompt_factory.py:24-27 | a fresh instance of the registered class, or ValueError with the table unchanged |
| StrategyFactory.RegisterOverwritesOnlyName | prompts/prompt_factory.py:21-22 | after registering, the name resolves to the new class and every other name as before |
| PromptRegistry.Instantiate | registry.py:9 | each class is instantiated with its constructor's defaults |
| PromptRegistry.Generate | prompt_service.py:7 | registered prompts generate text, except strategy objects, which are delegated |
| PromptRegistry.HandlePrompt | prompt_service.py:3-7 | an unregistered type gives "Unsupported prompt type"; a registered one its prompt's output |
| PromptRegistry.Registry.constructor | registry.py:5 | the registry starts empty |
| PromptRegistry.Registry.RegisterPrompt | registry.py:7-11 | the decorator returns the class unchanged and maps the name to an instance created then |
| PromptRegistry.Registry.Handle | prompt_service.py:3-7 | lookup only: the answer is `HandlePrompt` over the current registry, and the registry is not modified |
| PromptRegistry.QuestionHandled | prompt_service.py:4-7 | with "question" registered, the answer is "Create a question about: " + text |
| PromptRegistry.EmptyRegistryUnsupported | prompt_service.py:4-6 | the empty registry answers every type as unsupported |
| PromptRegistry.SecondRegistrationWins | registry.py:9 | a second registration of a name replaces the first and leaves other names alone |
| PromptRegistry.RegisterSummaries | prompts/strategies/summary_prompt.py:15 | whichever "summary" registration runs last is the one kept |
| SimplePrompts.OrDefault | prompts/freestyle_prompt.py:8-18 | `x or default`: a missing or empty value is replaced by the default |
| SimplePrompts.ExamplePart | prompts/freestyle_prompt.py:22 | the example part is empty iff the example is missing or empty, and is otherwise the example lead followed by the example |
| SimplePrompts.LayoutParts | prompts/freestyle_prompt.py:23-27 | the output is prefix, a blank line, the text, the example part, a blank line and the suffix, in that order |
| SimplePrompts.LayoutInjective | prompts/freestyle_prompt.py:23-27 | with the other parts fixed, different texts give different prompts |
| SimplePrompts.NewFreestyle | prompts/freestyle_prompt.py:7-19 | a missing or empty prefix or suffix becomes the default; given ones are kept |
| SimplePrompts.FreestyleGenerate | prompts/freestyle_prompt.py:21-27 | the prompt starts with the prefix, ends with the suffix and holds the text after the first blank line |
| SimplePrompts.FreestyleWithoutExample | prompts/freestyle_prompt.py:22-27 | without an example the prompt is just prefix, text and suffix with blank lines |
| SimplePrompts.GenerateDefaultPrefix | prompts/generate_text_prompt.py:15-24 | the default prefix embeds the tone at a fixed place |
| SimplePrompts.DefaultPrefixDeterminesTone | prompts/generate_text_prompt.py:15-24 | different tones give different default prefixes |
| SimplePrompts.NewGenerateText | prompts/generate_text_prompt.py:7-26 | tone defaults to "전문문적", the prefix defaults to the tone's default prefix, the suffix to "작성된 텍스트: " |
| SimplePrompts.ExplicitPrefixIgnoresTone | prompts/generate_text_prompt.py:15-24 | with an explicit prefix the tone does not change the prompt |
| SimplePrompts.DefaultPrefixCarriesTone | prompts/generate_text_prompt.py:14-34 | without a prefix the prompt carries the tone |
| SimplePrompts.GenerateTextGenerate | prompts/generate_text_prompt.py:28-34 | the prompt starts with the prefix, ends with the suffix and holds the text after the first blank line |
| SimplePrompts.Unprefix | prompts/question_prompt.py:9 | removes a literal prefix exactly when it is there |
| SimplePrompts.Question | prompts/question_prompt.py:9 | starts with "Create a question about: " and is that long plus the text |
| SimplePrompts.Summary | prompts/summary_prompt.py:8 | starts with "Summarize this: " and is that long plus the text |
| SimplePrompts.QuestionRoundTrip | prompts/question_prompt.py:9 | stripping the literal recovers the text, so the prompt is injective |
| SimplePrompts.SummaryRoundTrip | prompts/summary_prompt.py:8 | stripping the literal recovers the text, so the prompt is injective |
| FreestyleTextStrategy.Escape | prompts/strategies/freestyle_text_prompt.py:50 | same length, no brace left, every non-brace character in place, `{` to `[` and `}` to `]` |
| FreestyleTextStrategy.EscapeIdempotent | prompts/strategies/freestyle_text_prompt.py:50 | escaping is idempotent |
| FreestyleTextStrategy.ReplaceOneChar | prompts/strategies/freestyle_text_prompt.py:50 | replacing a one-character pattern swaps that character everywhere |
| FreestyleTextStrategy.ReplacePairEscaped | prompts/strategies/freestyle_text_prompt.py:50 | the double-brace replacements are invisible once everything is escaped |
| FreestyleTextStrategy.ChainedEscapeIsEscape | prompts/strategies/freestyle_text_prompt.py:50 | the four chained `replace` calls equal the brace escape |
| FreestyleTextStrategy.EscapedContextIsBraceFree | prompts/strategies/freestyle_text_prompt.py:50 | the escaped context has no brace, and escaping it again changes nothing |
| FreestyleTextStrategy.ProgramDict.constructor | prompts/strategies/freestyle_text_prompt.py:45 | the caller's dict holds the given fields |
| FreestyleTextStrategy.EscapeContext | prompts/strategies/freestyle_text_prompt.py:49-50 | a str context is escaped in the caller's dict; without a context nothing changes; a non-str context raises AttributeError |
| StrategyTemplates.ExampleEntry | prompts/strategies/freestyle_prompt.py:247 | entry i reads "예시 ", the number i+1, ":\n", then the example |
| StrategyTemplates.Entries | prompts/strategies/freestyle_text_prompt.py:59 | one entry per example, numbered by position |
| StrategyTemplates.ExamplesNumbered | prompts/strategies/generate_text_prompt.py:95 | one example gives entry 1; another example appends a blank line and the next numbered entry |
| StrategyTemplates.FileTypeOf | prompts/strategies/freestyle_prompt.py:57 | no program gives ""; a program's fileType is lowered; a non-str fileType or a non-dict program raises AttributeError |
| StrategyTemplates.FileTypeCaseInsensitive | prompts/strategies/generate_text_prompt.py:57 | file types that differ only in case choose the same |
| StrategyTemplates.FreestyleMarkup | prompts/strategies/freestyle_prompt.py:58-82 | word and excel get HTML table rules, hwp XML with HWPML rules, ppt HTML with PPT rules, anything else HTML with no rules |
| StrategyTemplates.GenerateTextMarkup | prompts/strategies/generate_text_prompt.py:58-89 | as the freestyle table, except that ppt gets XML with PresentationML rules |
| StrategyTemplates.TablesDifferOnlyOnPpt | prompts/strategies/generate_text_prompt.py:80-89 | the two tables agree on every file type but "ppt" |
| StrategyTemplates.ChooseTemplate | prompts/strategies/freestyle_prompt.py:244-293 | the examples template exactly when a program is present and examples are non-empty, the generic one exactly without a program |
| StrategyTemplates.FreestylePlan | prompts/strategies/freestyle_prompt.py:57-293 | without a program: HTML, no rules, generic template; otherwise the table and the template choice, failing exactly when reading the file type fails |
| StrategyTemplates.GenerateTextPlan | prompts/strategies/generate_text_prompt.py:57-141 | as the freestyle plan, with the text-generation table |
| StrategyTemplates.PptPlansDiffer | prompts/strategies/generate_text_prompt.py:80-89 | for a "PPT" program the freestyle strategy plans HTML and the text-generation strategy plans PresentationML |
| WordContent.ParagraphTexts | services/word_service.py:199 | one text per paragraph, in order |
| WordContent.Content | services/word_service.py:192-223 | no document or a library failure gives None |
| WordContent.StrippedBound | services/word_service.py:199-202 | no more kept paragraphs than paragraphs |
| WordContent.StrippedSound | services/word_service.py:199-202 | every kept text is non-empty, already stripped, and some paragraph's stripped text |
| WordContent.StrippedComplete | services/word_service.py:199-202 | every paragraph whose stripped text is non-empty is kept |
| WordContent.StrippedExactly | services/word_service.py:199-202 | the kept texts are exactly the non-empty stripped paragraph texts |
| WordContent.StrippedEmptyIffBlank | services/word_service.py:199-202 | nothing is kept exactly when every paragraph is blank |
| WordContent.BlankRowsVanish | services/word_service.py:207-214 | rows of blank cells produce no line |
| WordContent.RowLinesBounded | services/word_service.py:207-214 | at most one line per row, and no empty line |
| WordContent.BlankTablesVanish | services/word_service.py:215-216 | tables of blank cells produce no block |
| WordContent.BlankDocumentIsEmpty | services/word_service.py:196-219 | a document of blank paragraphs and cells yields "" |
| WordContent.StripAll | services/word_service.py:199-202 | the paragraph loop keeps exactly the specified texts |
| WordContent.TableLines | services/word_service.py:207-214 | the row loop yields exactly the specified lines |
| WordContent.ExtractContent | services/word_service.py:181-223 | the nested loops compute the content function: paragraph blocks, then table blocks, joined by a blank line |
| WordContent.DocxSummary | services/word_service.py:48-90 | the counts equal the paragraph and table counts, with one entry per paragraph holding one run entry per run, and one entry per table |
| SlideContent.Content | services/powerpoint_service.py:177-215 | no presentation or a library failure gives None |
| SlideContent.FlagIrrelevant | services/powerpoint_service.py:184-204 | for slides of the deck, the global notes flag gives the same blocks as always looking at each slide's notes |
| SlideContent.NotesFlagNeverMatters | services/powerpoint_service.py:184-204 | the `has_notes` flag never changes the content |
| SlideContent.TitleTwice | services/powerpoint_service.py:190-198 | a slide whose title is its only text shape lists the title twice |
| SlideContent.EmptyTitleKeepsSlide | services/powerpoint_service.py:190-207 | an empty title is still appended, so that slide is not omitted |
| SlideContent.SlideBlocksBounded | services/powerpoint_service.py:206-207 | at most one block per slide |
| SlideContent.HasNotes | services/powerpoint_service.py:184 | the scan is true exactly when some slide has a notes page |
| SlideContent.CollectShapes | services/powerpoint_service.py:194-198 | the shape loop yields the stripped non-empty texts of text-frame shapes, in order |
| SlideContent.CollectSlide | services/powerpoint_service.py:187-204 | the slide loop yields title, shape texts and notes line, as specified |
| SlideContent.ExtractContent | services/powerpoint_service.py:177-215 | the loops compute the content function: slides with text joined by "\n" inside and a blank line between |
| SlideContent.ShapesInfo | services/powerpoint_service.py:63-89 | one entry per shape, holding the paragraph texts exactly when it has a text frame |
| SlideContent.PptxSummary | services/powerpoint_service.py:55-89 | `slide_count` is the slide count and each slide's `shapes_count` its shape count, with one entry per shape |
| Config.FirstLoaded | config_loader.py:26-33 | the first candidate file that loads is used and none before it loaded; nothing is used when none loads |
| Config.FirstLoadedAt | config_loader.py:26-33 | a file that loads after only failures before it is the one used |
| Config.LaterPathsIgnored | config_loader.py:26-33 | files after the first loadable one make no difference |
| Config.GetEnv | config_loader.py:54 | `os.getenv`: the variable's value or None |
| Config.WithEnvKey | config_loader.py:54-56 | a non-empty `OPENAI_API_KEY` overwrites the config's key; otherwise the config is unchanged |
| Config.ConfigLoader.constructor | config_loader.py:10-12 | the loader's settings are those loaded from an empty config |
| Config.ConfigLoader.LoadConfig | config_loader.py:14-56 | the path loop with `break` and the key override yield the specified settings; nothing loaded keeps the current ones |
| Config.NothingLoadedKeepsCurrent | config_loader.py:25-56 | with no loadable file only the environment key can change the settings |
| Config.ApiKey | config_loader.py:69 | the config key when truthy, else the environment variable |
| Config.EnvKeyWins | config_loader.py:54-69 | a non-empty `OPENAI_API_KEY` is the key reported, whatever the file says |
| Config.FileKeyWithoutEnv | config_loader.py:69 | without the variable, the key is the file's when truthy, else None |
| Config.IntOf | config_loader.py:73 | `int` of a config value: ints as they are, no value for None, lists or dicts |
| Config.FlaskPort | config_loader.py:73 | `FLASK_PORT` when set, even to "", else the file's `flask_port`, else 5001, through `int` |
| Config.EnvPortWins | config_loader.py:73 | a decimal `FLASK_PORT` is the port, whatever the file says |
| Config.FlaskEnv | config_loader.py:77 | `FLASK_ENV`, else the file's `flask_env`, else "production" |
| Config.AppVersion | config_loader.py:81 | the file's `app_version`, else "1.0.0" |
| Config.KeyValid | config_loader.py:85-86 | a str key passes iff it is longer than 20 characters and starts with "sk-"; a falsy key fails |
| Config.KeyValidIff | config_loader.py:85-86 | the check is true exactly for str keys longer than 20 characters that start with "sk-" |
| Config.Defaults | config_loader.py:69-86 | with nothing configured: port 5001, "production", "1.0.0", no key, and the key check fails |

## Left out

- Embedding models, the GPT title call, FAISS distances and the `1/(1+d)` similarity scores are parameters or left out; scores are not part of the results.
- The LLM chains, `ChatPromptTemplate` construction and the chat memory of every strategy are not modelled. prompts/strategies/convert_prompt.py, summary_prompt.py, word_style_prompt.py, ppt_style_prompt.py and memory_manager.py are not part of this model beyond the summary registration.
- Rules: the markup instruction texts are represented by tags (`HtmlTableRules`, `HwpXmlRules`, …), not by the Korean instruction strings.
- Disk persistence (`faiss.write_index`, `json.dump`, `pickle.dump`) is a no-op. MetadataDB keeps a ghost snapshot of what was last written. Reloading is a constructor argument. A JSON reload turns int keys into strings, so int lookups after a restart miss; that is not modelled.
- db/model.py uses `Dict` and `Any` without importing them, so the module fails at import; the model gives the intended map behaviour.
- MetadataStore.MetadataDB.All: returns the store's value, not the live dict, so aliasing through the returned map is not modelled.
- prompts/strategies/explain_prompt.py is not part of this model (the factory registers `explain`, but the file is absent).
- `load_prompts` (dynamic module import), app.py, embedding/embedder.py, the Excel service, base classes and the test client are not modelled. The import order that decides which "summary" registration wins is a parameter of `PromptRegistry.RegisterSummaries`.
- `str.lower` is modelled on ASCII letters only; the file types compared against are ASCII.
- `int()` of a str accepts surrounding whitespace, a sign and decimal digits; underscores and non-ASCII digits are not modelled.
- Strategy examples are modelled as a list of strings.
- Styles, core properties, layouts and run formatting in the Word and PowerPoint summaries are not modelled; only the counts and per-entry texts are.
- Exceptions raised inside libraries (python-docx, python-pptx, FAISS, OpenAI) are a `failed` flag; `str(e)` in error messages is a short description of the fault.
- Config: `.env` loading is folded into the environment map, and the log messages of step 4 are not modelled. A config file whose top level is not a JSON object is not modelled. `create_sample_config` writes a file and is left out.
- CommandHandling.TopWorkflowsFixed: the corrected handler accepts only an int `fileId` and str `fileType`/`context`. Other types are reported as the error response rather than passed on.
- CommandHandling.HandleResponse: the strategy's `generate_prompt` is the `generated` parameter, not a call into the strategy.
- Python floats are not a `Values.Value` kind: a message or config value such as `fileId: 1.0` or `request_type: 2.0` is not modelled.
- BoundedStore.SearchBounded: the bound assumes FAISS returns at most `min(k, len)` positions, which FAISS guarantees but the code does not check.

## Findings

| source | as written | input that shows it | evidently intended | confidence | as-written member | corrected member |
|---|---|---|---|---|---|---|
| vector_database.py:107-109 | each FAISS position is used as a `metadata_store` key | store id 7 and search with FAISS answering position 0: KeyError(0) is raised out of `search_similar` | map each position to the id whose vector sits there | high, not executed | UnboundedStore.PositionIsNotId | UnboundedStore.AlignedSlotsEmbedText |
| databases/vector_database.py:255-259 | positions of the rebuilt (ascending-id) index are mapped to ids through the dict's insertion order, and `delete_vector` leaves the deleted record's vector in the index | store ids 9, 5, 7 with capacity 3, then id 1: position 0 holds 7's vector but is reported as id 9 | map each position to the id whose vector sits there | high, not executed | BoundedStore.RebuildOrderDiffersFromKeyOrder | BoundedStore.TrackedRebuildFirst |
| services/command_handler.py:111-115 | `store_program_info` is called with keywords `program_id`, `program_type`, `program_context`, which services/vector_db_service.py:22 does not accept; the TypeError is caught and every request gets the error response | any `request_top_workflows` message, even with a complete `current_program` | call with `file_id`, `file_type`, `context`, `volume_id` and report the similar ids | high, not executed | CommandHandling.TopWorkflowsNeverSucceeds | CommandHandling.TopWorkflowsFixedReports |
