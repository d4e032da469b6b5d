# omero-es indexing core, modelled in Dafny

This project models the core of omero-es, which copies OMERO data into Elasticsearch. The core covers four things:

- **Document building** (`omero_es/document.py`). Before a project, plate, image or well is handed to its encoder, passes over the OMERO object graph unload the details of the objects around it. Datasets and wells come from the in-memory relationships or, once those turn out to be unloaded, from an offset/limit paging loop. A count gate skips empty datasets. One image document is built per (image, dataset link), and one well document per well.
- **Indexing drivers** (`omero_es/index.py`). The bulk actions are built from the child documents. The per-project and per-plate drivers either print the documents (a dry run) or send one upsert of the parent followed by one bulk call for its children. `main` has an option loop, a usage check, and a session block that runs the projects, then the screens, and always closes the session.
- **Annotation encoders** (`omero_es/encoders/*.py`). The package overrides the marshalling library's annotation encoders. The boolean, long, double, text, term, timestamp and map overrides each add one key to a layer of the library's encoding. The comment and tag overrides only call the text override. The XML override skips the text override and adds no key. Importing an override's module writes the global encoder table.
- **Search filter** (`omero_es/server/search/__init__.py`). The security filter of the search server is built from the user id, and the result offset is computed from the page number.

How each part is represented:

- **The OMERO object graph** is a class `ObjectGraph.ModelObject`. Its relationships are each unloaded, loaded-empty or loaded-populated, and only its `detailsLoaded` field changes.
- **The pruning passes** (`Pruning`) are methods that state exactly which objects lose their details. They also state which exception is raised, and how far a pass got when it raised.
- **Outside services are parameters:**
  - the query service is the functions `lookup`, `countsOf`, `fetchImages`, `fetchWells` and `platesOf`. `fetchImages` pages the images query by dataset id and `fetchWells` pages the wells query by plate id. They are separate functions because datasets and plates are numbered apart, so a dataset and a plate can share an id;
  - the encoders are `encode` and `lib`. `encode` also receives the set of pruned objects that still have their details when it is called, so a contract can say that encoding comes after pruning;
  - Elasticsearch, standard output and the session are an ordered trace of events (`Indexer.Trace`).
- **The objects are typed.** The drivers require that every object the query service hands out refers, through the relationships the passes follow, to objects of the classes OMERO gives them (`World.Typed`), and that the images query pages hold only images and the wells query pages only wells (`World.Serves`). From this it follows that no pass unloads a project or a plate: the drivers may change only the objects of the world that are neither (`World.Parts`).
- **Generators are modelled eagerly.** A generator becomes a method that returns what it would have yielded. If an exception ends it, the method also returns that exception.

Two behaviours of the code are easy to miss:

- **Errors are not isolated.** `index_projects` and `index_screens` catch no exception, so the first exception ends the run, after the session is closed, with exit status 1 (`Indexer.FailsAtEnd`, `Cli.IndexInSession`).
- **An unset map value gives no document.** When a map annotation's value is unset, `map_annotation.py` returns None for the whole document, rather than a document without the `MapValue` field (`Encoders.EncodeMap`).

## Model

| member | source | states |
|---|---|---|
| Numerals.ShowNatDigits | omero_es/index.py:129 | `%d` of a natural number is a non-empty string of digits whose value is that number |
| Numerals.ParseShowInt | omero_es/index.py:127-129 | reading back the `%d` rendering of any integer, as `int()`/`long()` do, gives that integer |
| Numerals.ShowIntInjective | omero_es/index.py:129 | distinct integers have distinct `%d` renderings |
| Numerals.ShowIntNoUnderscore | omero_es/index.py:129 | a `%d` rendering never contains `_`, so the composite id separator is unambiguous |
| ObjectGraph.ModelObject.UnloadDetails | omero_es/document.py:113 | `unloadDetails()` leaves the object's details unloaded |
| ObjectGraph.Children | omero_es/document.py:152-153 | the link children, one per link, in link order |
| ObjectGraph.Parents | omero_es/document.py:248-249 | the link parents, one per link, in link order |
| Pruning.ContainerOutcome | omero_es/document.py:147-149 | the failure of project/plate pruning is AttributeError without details, owner or group, then UnloadedEntityException for an unloaded experimenter map; a failing pass unloads only owner/group objects |
| Pruning.SamplesRun | omero_es/document.py:306-318 | the well-sample loop unloads only objects of its samples |
| Pruning.UnloadChildren | omero_es/document.py:149-150 | every link child ends with its details unloaded |
| Pruning.UnloadAnnotationDetails | omero_es/document.py:110-113 | every child of the object's annotation links ends unloaded, and nothing else is touched |
| Pruning.UnloadEachWithAnnotations | omero_es/document.py:152-155 | each listed object and each of its annotations ends unloaded |
| Pruning.EncodeImage | omero_es/document.py:124-136 | all image targets (primary pixels, channels with their annotations, image annotations) end unloaded, and the result is the encoder applied to the image when none of those targets still has its details |
| Pruning.UnloadOwnerAndGroup | omero_es/document.py:147-150 | exactly the objects the container outcome names lose their details, every other one keeps them, and the failure is the one the outcome predicts |
| Pruning.EncodeProject | omero_es/document.py:146-160 | exactly the predicted objects are unloaded; it raises exactly when the container outcome fails, with that failure; otherwise it returns the encoder applied to the project when none of its targets still has its details |
| Pruning.EncodePlate | omero_es/document.py:242-256 | the same for a plate: predicted unloading, predicted failure, otherwise the encoder applied to the plate after every target has lost its details |
| Pruning.SamplesRunStep | omero_es/document.py:306-318 | one more sample, while none has failed, adds its targets and fails exactly when that sample does |
| Pruning.SamplesRunSticky | omero_es/document.py:306-318 | once a sample has failed, later samples change nothing |
| Pruning.SamplesRunComplete | omero_es/document.py:306-318 | a run with no failure unloads the targets of every sample |
| Pruning.PruneWellSample | omero_es/document.py:307-318 | every target of the sample ends unloaded, and it raises IndexError exactly when the sample's loaded image has a loaded but empty pixels list |
| Pruning.EncodeWell | omero_es/document.py:303-323 | exactly the objects of the well outcome are unloaded; it raises exactly when that outcome fails; otherwise it returns the encoder applied to the well after every target has lost its details |
| Pruning.WellOutcomeWithin | omero_es/document.py:303-319 | the well pass unloads only objects among the well's targets |
| Pruning.AnnotationTargetsSpec | omero_es/document.py:110-113 | an object is unloaded by the annotation pass iff the annotation links are loaded and it is the child of one of them |
| Pruning.AnnotationTargetsKind | omero_es/document.py:110-113 | the annotation pass unloads only annotations |
| Pruning.EachWithAnnotationsKinds | omero_es/document.py:152-155 | pruning a list of containers with their annotations touches only those containers and annotations |
| Pruning.ImageTargetsKinds | omero_es/document.py:124-132 | the image's own details are never unloaded; pixels only when the pixels are loaded and non-empty; channels only when, in addition, the channels are loaded and non-empty |
| Pruning.OwnerGroupTargetsKinds | omero_es/document.py:147-150 | the owner/group step touches only experimenters and groups |
| Pruning.ProjectTargetsKinds | omero_es/document.py:146-156 | the project's own details are kept; a dataset is unloaded only when the dataset links are loaded and non-empty, and then every linked dataset is |
| Pruning.PlateTargetsKinds | omero_es/document.py:242-252 | the plate's own details are kept; a screen is unloaded only when the screen links are loaded and non-empty, and then every linking screen is |
| Pruning.SamplesRunFails | omero_es/document.py:306-318 | the sample loop raises iff some sample has a loaded image with a loaded but empty pixels list |
| Pruning.SamplesRunFirstFailure | omero_es/document.py:306-318 | when sample k is the first to fail, exactly the targets of samples 0..k are unloaded |
| Pruning.WellOutcomeSpec | omero_es/document.py:303-319 | `encode_well` raises iff the samples are loaded and one fails; otherwise the well itself and its annotations are unloaded |
| Paging.Pages | omero_es/document.py:197-215 | page k is the page at offset k*100; every page but the last is full and the last is not; at least one page is fetched |
| Paging.FetchPages | omero_es/document.py:197-215 | the loop requests offsets 0, 100, 200, ..., one per page, and yields the pages' items concatenated in fetch order |
| Paging.StableShortBeyond | omero_es/document.py:200 | the loop ends for a source that does not change while it is paged |
| Paging.StablePage | omero_es/document.py:199-213 | for a stable source, each page is the next 100 items, or the remaining items |
| Paging.StablePages | omero_es/document.py:197-215 | for a stable source of N items, the loop makes N/100+1 fetches and yields exactly the N items in order |
| Paging.PagesFull | omero_es/document.py:200-213 | a full page is followed by the pages from the next offset |
| Paging.PagesShort | omero_es/document.py:200-211 | a page of any size other than 100 is the last one |
| Paging.PagesBoundIndependent | omero_es/document.py:200 | the pages fetched do not depend on the bound used to prove that the loop ends |
| Documents.FetchDataset | omero_es/document.py:197-215 | the page requests of one dataset and the images they return |
| Documents.DatasetLoop | omero_es/document.py:188-215 | the loop over the datasets sends page requests for, and yields the images of, exactly the datasets whose count is at least 1, in order |
| Documents.FindImages | omero_es/document.py:179-215 | `find_images`: the count request, then the gated page requests; UnloadedEntityException when the dataset links are unloaded |
| Documents.GatedPagesQueries | omero_es/document.py:188-199 | pages are requested only for listed datasets with count at least 1, and each such dataset is requested from offset 0 |
| Documents.FindImagesCountGate | omero_es/document.py:182-199 | it raises, with nothing sent, iff the dataset links are unloaded; otherwise the count request comes first and only once, and only counted datasets are paged |
| Documents.StableGatedPages | omero_es/document.py:188-215 | with stable sources, the images are exactly those of the counted datasets, dataset by dataset in list order |
| Documents.ImageListsSpec | omero_es/document.py:220-222 | summing the image lists succeeds iff every dataset's image links are loaded, and then holds exactly the linked images |
| Documents.Images | omero_es/document.py:217-224 | the in-memory images with no request sent, or, only on UnloadedEntityException, what `find_images` gives |
| Documents.FirstUnreadable | omero_es/document.py:228-229 | images before it have loaded dataset links, and it is the first image with unloaded links (where `copyDatasetLinks` raises) |
| Documents.ImageRefs | omero_es/document.py:229-232 | one document per dataset link of the image, with the link parent's id, in link order |
| Documents.DocumentsOfImage | omero_es/document.py:229-232 | the image's documents, each encoded after pruning, with its image targets unloaded |
| Documents.ImageDocuments | omero_es/document.py:227-232 | one document per (image, dataset link), images outer and links inner, up to the first image with unloaded links, where UnloadedEntityException is raised; exactly the targets of the images whose documents were built lose their details, and every other target of the images keeps its state |
| Documents.DocumentRefsSpec | omero_es/document.py:227-232 | a document is built for an image and a dataset iff that dataset is the parent of one of the image's dataset links |
| Documents.Wells | omero_es/document.py:281-286 | the in-memory wells with no request sent, or the paged wells of `find_wells` (with no count gate) |
| Documents.FirstFailingWell | omero_es/document.py:289-293 | wells before it encode without raising, and it is the first whose pruning raises |
| Documents.WellDocuments | omero_es/document.py:288-293 | one document per well in order, up to the first well whose pruning raises, with that well's exception; exactly the targets of the wells before it, and what the failing pass reached, lose their details, and every other target of the wells keeps its state |
| IndexActions.ImageActionIdRoundTrip | omero_es/index.py:127-129 | the `_id` of an image action reads back as the document's dataset id (if any) and image id |
| IndexActions.ImageActionIdInjective | omero_es/index.py:127-129 | two image documents share an `_id` only if they have the same dataset id and image id |
| IndexActions.ImageActions | omero_es/index.py:125-136 | one action per image document, in order, with `_type` 'image', the given index, `_parent` the project id, the document as `_source`, and an `_id` that reads back as (dataset id, image id) |
| IndexActions.ImageActionIdsDistinct | omero_es/index.py:125-136 | no image action of a project overwrites another unless both come from the same (dataset, image) pair |
| IndexActions.WellActions | omero_es/index.py:201-209 | one action per well document, in order, with `_type` 'well', `_id` the well id and `_parent` the plate id |
| Indexer.ProjectChildren | omero_es/document.py:217-232 | a project's image documents and the exception that ends them: the `find_images` failure, or the documents up to the first image with unloaded links |
| Indexer.EmitProject | omero_es/index.py:169-193 | a dry run prints the project document and then each image document; otherwise there is one upsert of the project and then one bulk call with its image actions |
| Indexer.IndexProject | omero_es/index.py:143-198 | a missing project makes no call; otherwise the step agrees with the pruning, encoding and children of the project, and the calls are those of its step |
| Indexer.IndexProjects | omero_es/index.py:139-198 | the projects are processed in id order, and step k agrees with project k as it was before the run (the details seen are those it had then: no pass unloads a project or a plate); the first exception ends the run; the calls are those of the steps, in order |
| Indexer.PlateChildren | omero_es/document.py:281-293 | a plate's well documents up to the first failing well, with that well's exception |
| Indexer.EmitPlate | omero_es/index.py:239-263 | a dry run prints the plate document and then each well document; otherwise there is one upsert of the plate and then one bulk call with its well actions |
| Indexer.IndexPlate | omero_es/index.py:230-268 | the step agrees with the plate's pruning, encoding and wells, and the calls are those of its step |
| Indexer.IndexScreen | omero_es/index.py:230-268 | the plates of a screen are processed in order, step k agreeing with plate k as it was before the run; the first exception ends the run; no project or plate loses its details |
| Indexer.IndexScreens | omero_es/index.py:212-268 | the screens are processed in order, with each screen's plates in order, step k agreeing with the k-th plate as it was before the run; the first exception ends the run; the calls are those of the steps |
| Indexer.ProjectDryRunOnlyPrints | omero_es/index.py:169-173 | without `--url`, a run over projects makes no upsert and no bulk call |
| Indexer.PlateDryRunOnlyPrints | omero_es/index.py:239-243 | without `--url`, a run over plates makes no upsert and no bulk call |
| Indexer.ProjectIndexRunAlternates | omero_es/index.py:178-193 | an indexing run over projects is upsert, bulk, upsert, bulk, ...: each parent is upserted before its children are sent |
| Indexer.PlateIndexRunAlternates | omero_es/index.py:248-263 | the same for plates |
| Indexer.ProjectUpsertOrder | omero_es/index.py:143-183 | the upserted ids are the ids of the encoded projects, in input order |
| Indexer.PlateUpsertOrder | omero_es/index.py:230-253 | the upserted ids are the ids of the encoded plates, in the order they are returned |
| Options.ApplyOption | omero_es/index.py:290-309 | one iteration of the option loop raises exactly when a numeric option's argument does not parse |
| Options.ParseOptions | omero_es/index.py:281-309 | the option loop from the defaults gives what the fold over the options gives, stopping at the first ValueError |
| Options.ApplyOptionsSetting | omero_es/index.py:290-303 | server, username, password and url are the argument of their last occurrence, or None |
| Options.ApplyOptionsIndex | omero_es/index.py:288-305 | the index is the last `--index` argument, or 'omero' |
| Options.ApplyOptionsPort | omero_es/index.py:283-293 | the port is the last `-p` argument parsed, or 4064 |
| Options.ApplyOptionsScalars | omero_es/index.py:281-305 | every single-valued option: the last occurrence wins, and the default stays when there is none |
| Options.ApplyOptionsFlag | omero_es/index.py:284-301 | `-a` and `--debug` are on iff they occur |
| Options.ApplyOptionsFlags | omero_es/index.py:284-301 | both flags are on iff they occur |
| Options.ApplyOptionIdList | omero_es/index.py:306-309 | one option appends its parsed argument to the id list it names, and leaves the other list unchanged |
| Options.ApplyOptionsIdList | omero_es/index.py:285-309 | the id list is every argument of that option, parsed, in order |
| Options.ApplyOptionsIds | omero_es/index.py:285-309 | project and screen ids accumulate in order |
| Options.ApplyOptionsReflects | omero_es/index.py:281-309 | a completed loop reflects every option |
| Options.ApplyOptionsFails | omero_es/index.py:289-309 | the loop raises iff some numeric option's argument does not parse, and then on the first such argument |
| Options.NoOptionsNeedUsage | omero_es/index.py:311-312 | with no options, the usage check fails |
| Options.UsageSatisfied | omero_es/index.py:311-312 | any `-a`, `--project` or `--screen` passes the usage check |
| Cli.EarlyExit | omero_es/index.py:272-312 | a run that never opens a session exits with 1 on a ValueError and with 2 on a getopt or usage error |
| Cli.StartOfSpec | omero_es/index.py:281-323 | it is a dry run iff there is no `--url`; the index is the last `--index` or 'omero'; `-a` replaces both id lists, and otherwise the ids are those of the options, in order |
| Cli.StartsIndexing | omero_es/index.py:289-312 | a run reaches the session iff every numeric argument parses and `-a`, `--project` or `--screen` was given |
| Cli.IndexInSession | omero_es/index.py:319-329 | projects, then screens (only when no project raised), then the session is closed on every path; each project step agrees with its project (its images paged by the images query) and each plate step with its plate (its wells paged by the wells query), as they were when the session started; the exit status is 1 iff a step raised |
| Cli.Run | omero_es/index.py:271-329 | `main`: the early exits touch nothing; otherwise the calls are the project run, the screen run and the close, in that order, and every step agrees with the project or plate it processed |
| Search.ParseRender | omero_es/server/search/__init__.py:51-178 | every query's JSON body reads back as that query |
| Search.ParseRenderAll | omero_es/server/search/__init__.py:44-179 | the rendered alternatives read back as the alternatives, in order |
| Search.ConditionsWith | omero_es/server/search/__init__.py:44-179 | exactly four alternatives are built |
| Search.SecurityFilterShape | omero_es/server/search/__init__.py:181-186 | a `bool` query with `minimum_should_match` 1, whose `should` holds one element: the list of the four alternatives; only the user id is used |
| Search.MemberMatches | omero_es/server/search/__init__.py:82-90 | the nested member clause matches iff the user is among the group's experimenters |
| Search.GroupOwnerMatches | omero_es/server/search/__init__.py:119-141 | the nested owner clause matches iff the user is an owner of the group |
| Search.WorldAlternative | omero_es/server/search/__init__.py:51-61 | alternative 1 matches exactly the world-readable objects |
| Search.GroupAlternative | omero_es/server/search/__init__.py:68-94 | alternative 2a, testing `isGroupRead`, matches exactly the group-readable (not world-readable) objects whose group has the user as a member |
| Search.GroupOwnerAlternative | omero_es/server/search/__init__.py:101-145 | alternative 2b matches exactly the objects that are neither world- nor group-readable, are user-readable, and whose group the user owns |
| Search.OwnerAlternative | omero_es/server/search/__init__.py:153-178 | alternative 3 matches exactly the objects that are neither world- nor group-readable, are user-readable, and are owned by the user |
| Search.CorrectedFilterSpec | omero_es/server/search/__init__.py:30-186 | with `isGroupRead`, the filter matches an object iff the permission rules let the user read it |
| Search.GroupMemberAlternativeNeverMatches | omero_es/server/search/__init__.py:76-79 | as written, alternative 2a matches no indexed object |
| Search.AsWrittenFilterHidesGroupData | omero_es/server/search/__init__.py:62-94 | as written, a group member is denied a group-readable object the rules allow |
| Search.OffsetSpec | omero_es/server/search/__init__.py:253 | `(page-1)*batchSize`: 0 with the defaults page 1 and batchSize 100; consecutive pages are one batch apart and do not overlap |
| Encoders.SetIfNotNone | omero_es/encoders/text_annotation.py:21 | the key is set iff the value is not None, and nothing else changes |
| Encoders.EncodeBoolean | omero_es/encoders/boolean_annotation.py:19-22 | the parent-layer encoding plus `BoolValue` iff `boolValue` is not None, with nothing else changed |
| Encoders.EncodeLong | omero_es/encoders/long_annotation.py:19-22 | the parent-layer encoding plus `LongValue` iff `longValue` is not None |
| Encoders.EncodeDouble | omero_es/encoders/double_annotation.py:19-22 | the library's double encoding plus `DoubleValue` iff `doubleValue` is not None |
| Encoders.EncodeText | omero_es/encoders/text_annotation.py:19-22 | the parent-layer encoding plus `TextValue` iff `textValue` is not None |
| Encoders.EncodeComment | omero_es/encoders/comment_annotation.py:20-22 | exactly the text override's result |
| Encoders.EncodeTag | omero_es/encoders/tag_annotation.py:20-22 | exactly the text override's result |
| Encoders.EncodeXml | omero_es/encoders/xml_annotation.py:20-22 | the library's text encoding unchanged: this package never adds `TextValue` |
| Encoders.EncodeTerm | omero_es/encoders/term_annotation.py:19-22 | the parent-layer encoding plus `TermValue` iff `termValue` is not None |
| Encoders.EncodeTimestamp | omero_es/encoders/timestamp_annotation.py:19-22 | the library's timestamp encoding plus the key `Value` iff `timeValue` is not None |
| Encoders.Pairs | omero_es/encoders/map_annotation.py:24-26 | one `[name, value]` pair per entry, in order |
| Encoders.UnpairsPairs | omero_es/encoders/map_annotation.py:23-27 | the pairs read back as the entries |
| Encoders.EncodeMap | omero_es/encoders/map_annotation.py:19-28 | no document at all iff `mapValue` is None; otherwise the parent-layer encoding plus `MapValue`, the list of pairs |
| Encoders.MapValueRoundTrip | omero_es/encoders/map_annotation.py:23-27 | the encoded `MapValue` reads back as the annotation's entries, in order |
| Encoders.ClassOfInjective | omero_es/encoders/term_annotation.py:24-25 | each module writes the entry of its own class, the term module that of term annotations |
| Encoders.EncoderRegistry.RunBody | omero_es/encoders/text_annotation.py:24-25 | a module body replaces the entry of its class and leaves every other entry unchanged |
| Encoders.EncoderRegistry.Import | omero_es/encoders/comment_annotation.py:14-25 | importing runs nothing a second time, and runs the text module before comment, tag and XML |
| Encoders.EncoderRegistry.ImportEach | omero_es/encoders/__init__.py:15-24 | after a sequence of imports, every imported module has run |
| Encoders.EncoderRegistry.ImportPackage | omero_es/encoders/__init__.py:15-24 | importing the package maps every annotation class to its override |
| Encoders.PackageRunsSpec | omero_es/encoders/__init__.py:15-24 | importing the package runs the module bodies in the order boolean, text, comment, double, long, map, tag, term, timestamp, xml, each exactly once, with text before those that import it |
| Encoders.PackageEncoding | omero_es/encoders/__init__.py:15-24 | through the package's table, each class gets its override's key over the right library layer; XML gets the plain library text encoding, and a map without a value gets no document |

## Left out

- **Query service and Elasticsearch client.**
  - The HQL queries of the query service are not modelled. The functions `lookup`, `countsOf`, `fetchImages`, `fetchWells` and `platesOf` stand for them.
  - The Elasticsearch client and `omero.client` are not modelled: session creation, `Elasticsearch(...)` and the network. The client's calls are events of `Indexer.Trace`.
  - The per-item results of a bulk call are left out.
- **Bulk chunking.** `helpers.bulk` sends actions in chunks. The model records one bulk call carrying every action produced before an exception. The chunk that was not yet sent when the exception came is not distinguished.
- **Serialisation.** The `json.dumps` serialisation of `_source` and of printed documents is left out. A document is its map value.
- **Logging and timing.** Logging, timing, `--debug`'s log level and `usage` printing are left out. Only the exit status of a usage error (2) is kept.
- **`getopt`.** `getopt` is not modelled. `main` receives its (option, argument) pairs, or None when it raised.
- **Number parsing.** `int()` and `long()` are modelled as reading an optional `+` or `-` sign followed by decimal digits. The surrounding whitespace they accept and the trailing `L` of Python 2's `long()` are not modelled.
- **Library encoders.** The encoders of `omero_marshal` and the per-entity encoders are function parameters (`lib`, `encode`). Their field tables and the `get_encoder` lookup are not part of this model. Floating-point and timestamp values are opaque tokens.
- **Search request.** The request parsing, the Elasticsearch query and the template rendering of the search view are left out. The filter is commented out in the view (server/search/__init__.py:257-258), so the model states what the filter would do if applied.
- **The filter's `should` wrapping.** The `should` of the filter holds the list of alternatives wrapped in a further list. How Elasticsearch reads that nesting is not modelled. `Search.AnyMatches` takes the four alternatives as the `should` clauses.
- **Termination bound.** Paging.FetchPages, Documents.FindImages, Documents.Wells and the drivers require a ghost bound beyond which no page is full. A source that keeps returning full pages makes the original loop run forever, and that case is not modelled.
- **Library accessors.** `copyX()`, `linkedDatasetList()`, `linkedImageList()` and `getPrimaryPixels()` belong to the OMERO model classes, which are not part of this model. `ObjectGraph.Rel.Copy`, `ObjectGraph.LinkedDatasetList`, `ObjectGraph.LinkedImageList` and `ObjectGraph.PrimaryPixels` state the assumed behaviour: a copy or a list of the linked objects when the relationship is loaded, UnloadedEntityException when it is not, and IndexError from `getPrimaryPixels()` on a loaded but empty pixels list.
- Encoders.EncoderRegistry.ImportPackage states that every class ends mapped to its override, but not the order the module bodies run in. That order is stated by Encoders.PackageRunsSpec.
- Indexer.IndexProject, Indexer.IndexPlate and the drivers above them return ghost steps. Those steps describe what happened and are not values the source computes.
- **Object graph.** The object graph has one class for every OMERO kind. Only the details are mutable, because the core never changes anything else. Loading states come from the queries and are inputs.
- **The server application.** The Flask application, session handling and settings of the search server are not part of this model.

## Findings

| source | as written | input that shows it | evidently intended | confidence | as-written member | corrected member |
|---|---|---|---|---|---|---|
| omero_es/server/search/__init__.py:78 | alternative 2a tests the field `omero:details.permissions.iGroupRead`, which indexed documents do not have, so group members never match it | the user is id 1. The object has permissions world-readable false, group-readable true and user-readable true; its owner is 2, and its group has member 1, not an owner. The permission rules let user 1 read it, but no alternative matches | test `omero:details.permissions.isGroupRead`, as the other alternatives do | not executed | Search.AsWrittenFilterHidesGroupData | Search.CorrectedFilterSpec |
