# IIIF image-server load test: a Dafny model

The Locust script `imagesrv/locustfile.py` load-tests an IIIF Image API server. It reads a list of
`info.json` descriptor URLs and works out which task functions the simulated users run. Each task
builds IIIF image-request URLs, from literal templates or from the descriptor it fetched. A request
listener classifies every response by its outcome and latency.

This project models that decision logic:

- **Corpus loader** (`Corpus`, `Listeners.LoadTest.OnTestStart`): strips newlines from the file's
  lines and keeps those ending in `/info.json`. The run quits when the corpus is empty or the file
  cannot be read.
- **`identifier`** (`Iiif.Identifier`): cuts the 10-character `/info.json` suffix off a corpus entry.
- **IIIF path grammar** (`Iiif.Path`, `Iiif.ParsePath`): `/{region}/{size}/{rotation}/{quality}.{format}`,
  used to show that each literal template is the IIIF request it is meant to be.
- **Template tasks** (`Tasks.Template`, `Tasks.TemplateTask`): the six tasks that append a literal
  path to a random identifier.
- **Descriptor tasks**: `getThumbnailPanel`, `zoomToPoint`, `virtualReading`, `customRegion`,
  `fullImageSized`, `fullImage` and `rotationRandomSize`. Each fetches a random descriptor, then
  issues requests whose parameters depend on it.
- **`log_request`** (`Classifier`): the strict if/elif chain on exception and response time, and
  the log message it selects.
- **Task list** (`TaskList`, `Listeners.LoadTest.OnInit`): the `--tasks` option becomes a list of
  task functions. An empty option gives all thirteen in a fixed order; an unknown name is a `KeyError`.

How the model stands in for the parts it does not run:

- **Requests** become a `Tasks.Run`: the sequence of requests in issue order, and the exception
  the task raised, if any. A task function is a function of its inputs, or a method where the source
  loops.
- **Randomness**: each `random.randint(lo, hi)` and `random.choice(xs)` becomes an explicit seed.
  `Randomness.RandInt` and `Randomness.Choice` raise `ValueError` or `IndexError` exactly where
  Python does (an empty range, an empty list). The `...Reaches` lemmas show that every in-range
  value is produced by some seed, so no behaviour is excluded.
- **`imageBuilder`**: its code is not part of this model. It is the datatype `Iiif.ImageBuilder`
  of four arbitrary functions, and every statement about it holds for any such functions.
  The keyword arguments of `constructURL` are an `Iiif.SizeArgs` record in which `None` marks a
  keyword the call leaves out, so no default of `imageBuilder` is assumed.
- **Descriptor**: the fetched `info.json` is given as a parsed `Iiif.Descriptor` record, or `None`
  when `response.json()` fails, which the model reports as `DecodeError`.
- **Module state**: the module-level `images` list, the runner's quit flag and the class attribute
  `IIIFURLTester.tasks` are the fields of the class `Listeners.LoadTest`.

Two facts about the code that the model keeps:

- The script gives no explicit weights. The default list holds each of the thirteen task functions
  once, and a name repeated in `--tasks` appears once per repetition, so a repeat acts as a weight.
- `fullImageSized` returns without a request when a stated dimension of the drawn size is smaller
  than the image's, so it only ever requests sizes at least as large as the image in each dimension
  the size states. The
  descriptor it checks and the image it then requests come from two independent random draws, and
  the model does not assume they are the same.

## Model

| member | source | states |
|---|---|---|
| Randomness.RandInt | imagesrv/locustfile.py:152-155 | `random.randint(lo, hi)` yields a value in [lo, hi], and raises ValueError exactly when lo > hi |
| Randomness.RandIntReaches | imagesrv/locustfile.py:152-155 | every value in [lo, hi] is drawn by some seed |
| Randomness.Choice | imagesrv/locustfile.py:201-203 | `random.choice` yields a member of the list, and raises IndexError exactly on an empty list |
| Randomness.ChoiceReaches | imagesrv/locustfile.py:201-203 | every element can be the one chosen |
| Strings.RemoveAll | imagesrv/locustfile.py:52 | `replace(c, '')` leaves no c, and changes nothing when c is absent; with RemoveAllAppend and RemoveAllCounts this fixes the result |
| Strings.RemoveAllAppend | imagesrv/locustfile.py:52 | removal works piece by piece over a concatenation, so the remaining characters keep their order |
| Strings.RemoveAllCounts | imagesrv/locustfile.py:52 | `replace(c, '')` keeps every other character as often as it occurs |
| Strings.Split | imagesrv/locustfile.py:165 | `str.split(sep)` gives at least one piece, and no piece contains the separator |
| Strings.JoinSplit | imagesrv/locustfile.py:165 | joining the pieces of a split with the separator restores the string |
| Strings.SplitJoin | imagesrv/locustfile.py:211 | splitting a join of separator-free pieces gives those pieces back |
| Strings.IntToString | imagesrv/locustfile.py:156 | `str()` of an integer is a minus sign exactly for a negative number, followed by decimal digits with no leading zero (a lone `0` only for zero) |
| Strings.ParseInt | imagesrv/locustfile.py:166-169 | on the forms the script meets, `int()` accepts exactly an optional minus sign followed by digits, raising ValueError otherwise; digits alone give a non-negative value |
| Strings.ParseIntRoundTrip | imagesrv/locustfile.py:166-169 | `int()` reads back the decimal text of every integer |
| Strings.IntToStringHasNoSeparator | imagesrv/locustfile.py:156 | the decimal text of an integer contains no separator character |
| Strings.NatToString | imagesrv/locustfile.py:156 | the decimal text of a natural number is digits with no leading zero; it starts with `0` exactly for zero |
| Strings.CanonicalIsNatToString | imagesrv/locustfile.py:156 | every digit string without a leading zero is the decimal text of its value, so that text is the only canonical one |
| Strings.DigitsValueOfNat | imagesrv/locustfile.py:166-169 | the digits of n have the value n |
| Iiif.Identifier | imagesrv/locustfile.py:78-79 | for an entry ending in `/info.json`, identifier + `/info.json` is the entry; in general it is the entry with its last ten characters removed |
| Iiif.PathRoundTrip | imagesrv/locustfile.py:90-96 | a well-formed IIIF request's path parses back to the same five parameters |
| Iiif.ParsePathExact | imagesrv/locustfile.py:90-96 | a path that parses is exactly the path of the parameters read from it |
| Iiif.PathAsJoin | imagesrv/locustfile.py:90-96 | the path is the parameters joined by '/' with quality and format joined by '.' |
| Corpus.Kept | imagesrv/locustfile.py:51-56 | the kept entries are at most as many as the lines, and each ends with `/info.json` and holds no newline |
| Corpus.KeptNext | imagesrv/locustfile.py:51-56 | reading one more line appends it, stripped, exactly when it ends with `/info.json` |
| Corpus.KeptAppend | imagesrv/locustfile.py:51-56 | the entries kept from two runs of lines are those of the first then those of the second, so file order is kept |
| Corpus.KeptMembers | imagesrv/locustfile.py:51-56 | an entry is kept exactly when some line, newline-stripped, equals it and ends with `/info.json` |
| Corpus.KeptAllAccepted | imagesrv/locustfile.py:51-56 | a file of clean, accepted lines is kept whole |
| Corpus.KeptEmpty | imagesrv/locustfile.py:57-58 | nothing is kept exactly when no line is accepted |
| Corpus.KeptIdentifiers | imagesrv/locustfile.py:78-79 | every kept entry is its identifier followed by `/info.json` |
| Listeners.LoadTest.constructor | imagesrv/locustfile.py:6-88 | the module-level corpus (line 6) and the class attribute task list (line 88) start empty, and the runner is not quitting |
| Listeners.LoadTest.OnTestStart | imagesrv/locustfile.py:50-61 | the corpus grows by exactly the kept entries of the file; a file whose reading raised adds nothing; the runner quits exactly when reading raised or the corpus is empty; every entry ends with `/info.json` |
| Listeners.LoadTest.OnInit | imagesrv/locustfile.py:207-233 | the task list becomes the looked-up task functions; on an unknown name KeyError is raised and the list is unchanged; the corpus and the quit flag are untouched and every entry still ends with `/info.json` |
| Listeners.TemplateRequestsCorpusEntry | imagesrv/locustfile.py:78-96 | on a corpus whose entries all end with `/info.json`, a template task requests a corpus entry's identifier and suffix, and cutting the suffix and appending `/info.json` gives that entry back |
| Listeners.TwoTestStarts | imagesrv/locustfile.py:50-58 | two test starts accumulate both files' entries in order; the runner quits exactly when the first file gave none |
| Classifier.Classify | imagesrv/locustfile.py:66-74 | failure exactly when an exception is present; otherwise long exactly above 20000, at least a second exactly in (1000, 20000], normal exactly at or below 1000 |
| Classifier.SlowerIsNoMilder | imagesrv/locustfile.py:66-74 | a slower response is never classified milder |
| Classifier.ExceptionDominates | imagesrv/locustfile.py:66-67 | with an exception the outcome is FAILURE at error severity whatever the response time |
| Classifier.ClassifyBoundaries | imagesrv/locustfile.py:68-74 | the thresholds are strict: 1000 is normal, 20000 is at least a second |
| Classifier.LogRecord | imagesrv/locustfile.py:66-74 | the record goes to the logger method of its outcome, at error severity exactly when an exception is present, with the outcome's label as its message prefix |
| TaskList.TasksToRun | imagesrv/locustfile.py:210-215 | an empty option gives the default names; otherwise comma-free names whose comma-join is the option |
| TaskList.BuildTaskList | imagesrv/locustfile.py:209-233 | the list exists exactly when every name is a task name, and then holds one task function per name, each the function of that name; otherwise KeyError for a name that is not a task name |
| TaskList.Lookup | imagesrv/locustfile.py:233 | the list comprehension succeeds exactly when every name is mapped, giving the mapped task functions position by position; otherwise KeyError for an unknown name |
| TaskList.MappingIsNameOfInverse | imagesrv/locustfile.py:217-231 | each task function has exactly one name in `task_mapping` |
| TaskList.LookupKnown | imagesrv/locustfile.py:233 | known names look up to their task functions in order |
| TaskList.DefaultNamesAreNames | imagesrv/locustfile.py:213-215 | the default list names the task functions of the fixed order |
| TaskList.DefaultTaskList | imagesrv/locustfile.py:209-233 | with an empty `--tasks` the list is all thirteen task functions in the fixed order |
| TaskList.DefaultLookup | imagesrv/locustfile.py:213-233 | the default names look up to the fixed order |
| TaskList.AllTasksOnceEach | imagesrv/locustfile.py:213-215 | the default list has thirteen entries, every task function, none twice |
| TaskList.NamesHaveNoComma | imagesrv/locustfile.py:217-231 | no mapped name is empty or contains a comma |
| TaskList.NamedTaskList | imagesrv/locustfile.py:210-233 | `--tasks` given as known names joined by commas yields exactly those task functions in that order |
| TaskList.UnknownNameFails | imagesrv/locustfile.py:210-233 | any unknown name among the comma-separated ones makes the construction raise KeyError |
| Tasks.RandomImage | imagesrv/locustfile.py:81-82 | `rndImage()` returns a corpus entry, and raises ValueError exactly on an empty corpus |
| Tasks.RandomImageReaches | imagesrv/locustfile.py:81-82 | every corpus entry can be drawn |
| Tasks.TemplateParameters | imagesrv/locustfile.py:90-96 | each of the six literal paths is well formed and parses to exactly its intended region, size, rotation, quality and format |
| Tasks.TemplateShape | imagesrv/locustfile.py:181-195 | each literal suffix is the path of its parameters |
| Tasks.TemplateUrlOfEntry | imagesrv/locustfile.py:78-96 | a template URL for a corpus entry gives back the entry once the path is cut and `/info.json` appended, and its path parses to the template's parameters |
| Tasks.TemplateTask | imagesrv/locustfile.py:90-96 | one request, named as in the source, whose URL is some corpus entry's identifier followed by the template path; ValueError and no request on an empty corpus |
| Tasks.OpenDescriptor | imagesrv/locustfile.py:99-101 | the descriptor fetch requests `info.json` of a corpus entry; the descriptor or DecodeError follows; nothing is requested on an empty corpus |
| Tasks.PairRequests | imagesrv/locustfile.py:127-129 | one request per pair |
| Tasks.PairRequestsAt | imagesrv/locustfile.py:127-129 | request i is built from pair i, so the requests follow the pair order |
| Tasks.PairRequestsAppend | imagesrv/locustfile.py:142-146 | the requests for two runs of pairs are those of the first followed by those of the second |
| Tasks.RequestPairs | imagesrv/locustfile.py:127-129 | the loop appends exactly one request per pair, in order, to the requests already made |
| Tasks.FirstCovering | imagesrv/locustfile.py:106-112 | the index of the first listed size at least 125 in both dimensions, or None when there is none |
| Tasks.ScanSizes | imagesrv/locustfile.py:102-112 | the loop with `break` finds the first covering size, or leaves 125x125 with found false |
| Tasks.ThumbnailSize | imagesrv/locustfile.py:102-118 | `bounded=True` exactly when there is no sizes list or no listed size covers 125x125, and then 125x125; otherwise the first covering size with the keyword left out |
| Tasks.ThumbnailSizeExamples | imagesrv/locustfile.py:102-118 | the first covering preset wins; with no covering preset the request is a bounded 125x125 |
| Tasks.ThumbnailPanel | imagesrv/locustfile.py:98-119 | after the descriptor fetch exactly one thumbnail request with the thumbnail size arguments |
| Tasks.ZoomPoint | imagesrv/locustfile.py:125-126 | the point lies inside the image; ValueError exactly when the image has no pixel |
| Tasks.ZoomPointReaches | imagesrv/locustfile.py:125-126 | every pixel can be the point |
| Tasks.ZoomToPoint | imagesrv/locustfile.py:121-129 | after the descriptor fetch one request per pair the collaborator returns for the point, in order |
| Tasks.TileGrid | imagesrv/locustfile.py:137-141 | a grid exactly when tiles are a list whose first entry has scaleFactors and some level has tiles; no grid and no exception exactly when tiles are not advertised and the list is not empty; IndexError exactly for an empty tiles list; ValueError exactly when tiles are advertised but no level has tiles |
| Tasks.TileGridReaches | imagesrv/locustfile.py:140-141 | every level with tiles can be the one drawn |
| Tasks.FlattenStep | imagesrv/locustfile.py:142-146 | one more row appends that row's cells |
| Tasks.FlattenLength | imagesrv/locustfile.py:142-146 | the walk visits as many cells as the rows hold together |
| Tasks.FlattenCell | imagesrv/locustfile.py:142-146 | cell (x, y) is visited at position RowStart(x) + y, row-major |
| Tasks.RowStartsAdvance | imagesrv/locustfile.py:142-146 | each row starts after the cells of all earlier rows |
| Tasks.FlattenCellsDistinct | imagesrv/locustfile.py:142-146 | distinct cells are visited at distinct positions, so no tile twice |
| Tasks.FlattenCovers | imagesrv/locustfile.py:142-146 | every visited position belongs to a row, so nothing else is visited |
| Tasks.RequestTiles | imagesrv/locustfile.py:142-146 | the nested loops issue one request per cell of the grid, row-major |
| Tasks.VirtualReading | imagesrv/locustfile.py:131-146 | after the descriptor fetch the 90-pixel preview comes first, then the tile requests when tiles are advertised, or the exception |
| Tasks.DrawRegion | imagesrv/locustfile.py:152-155 | a region is drawn exactly when the drawn width and height fit the image, and then lies inside it with width and height in [200, 400]; ValueError otherwise; always drawn for images at least 400x400; never for images under 200 in a dimension |
| Tasks.DrawRegionReaches | imagesrv/locustfile.py:152-155 | every region of such an extent inside the image can be drawn |
| Tasks.RegionTextRoundTrip | imagesrv/locustfile.py:156 | the region parameter reads back as x, y, width and height |
| Tasks.SizeTextRoundTrip | imagesrv/locustfile.py:156 | the size parameter reads back as the region's width and height |
| Tasks.CustomRegion | imagesrv/locustfile.py:148-157 | after the descriptor fetch exactly one request for a region inside the image, at its own size, or ValueError |
| Tasks.DimTextParses | imagesrv/locustfile.py:166-169 | a stated dimension is digits that parse to it; an absent one is empty |
| Tasks.TokenSplits | imagesrv/locustfile.py:165-168 | a size token splits at its comma into the width part and the height part |
| Tasks.BangRemoved | imagesrv/locustfile.py:165 | removing '!' leaves the width digits |
| Tasks.SizeGate | imagesrv/locustfile.py:165-170 | the gate raises only ValueError or IndexError, and IndexError only for a token without a comma; SizeGateOfToken gives its value on every well-formed token |
| Tasks.SizeGateOfToken | imagesrv/locustfile.py:165-170 | for a token [!][w],[h] the request goes ahead exactly when no stated dimension is below the image's |
| Tasks.TokenTable | imagesrv/locustfile.py:160 | each listed size token has the stated '!', width and height |
| Tasks.SizeGateOnListedToken | imagesrv/locustfile.py:160-170 | for every listed token the request goes ahead exactly when its stated width and height are at least the image's |
| Tasks.SizeGateExample | imagesrv/locustfile.py:160-170 | for a 1000x1000 image `150,` is skipped and `!1024,1024` goes ahead |
| Tasks.FullImageSized | imagesrv/locustfile.py:159-172 | after the descriptor fetch no request when the token's dimensions do not fit the image, otherwise exactly one for some corpus entry's identifier with `/full/{size}/0/default.jpg` |
| Tasks.FullImageSizedMayRequestAnotherImage | imagesrv/locustfile.py:161-171 | the descriptor checked and the image requested can be different corpus entries |
| Tasks.FullImage | imagesrv/locustfile.py:174-179 | after the descriptor fetch exactly one full-region, full-size request |
| Tasks.DrawRotation | imagesrv/locustfile.py:201-203 | a listed size and a rotation in {0, 90, 180, 270}; KeyError without sizes, IndexError for an empty list |
| Tasks.DrawRotationReaches | imagesrv/locustfile.py:201-203 | every listed size with every rotation can be drawn |
| Tasks.RotationPathIsPath | imagesrv/locustfile.py:204 | the rotation URL's path is the IIIF path of full region, drawn size, rotation, default quality, jpg |
| Tasks.RotationPathParams | imagesrv/locustfile.py:204 | that path parses back to those parameters, and its size and rotation read back as the drawn numbers |
| Tasks.RotationRandomSize | imagesrv/locustfile.py:197-205 | after the descriptor fetch exactly one request under the descriptor's `@id` with a listed size and a listed rotation, or KeyError / IndexError with no request |
| Tasks.Perform | imagesrv/locustfile.py:217-231 | every task raises ValueError before any request on an empty corpus; otherwise it issues at least one request, a descriptor task starting with the fetch of a corpus entry |

## Left out

- Logging configuration, handler management and the `print` fallbacks: output only. `Classifier.LogRecord` models which logger method is called and the message.
- Classifier.LogRecord: the response time, start time and exception appear in a message as text given by the caller, since Python's float and exception formatting is not modelled; its contract states the severity and the label prefix, not the full text.
- Locust plumbing: the argument parser, the event registration and the HTTP client. Requests become the `Run` sequence.
- The scheduler by which Locust picks a task function from `IIIFURLTester.tasks`, and the concurrency among simulated users.
- File reading: the URL list is a sequence of lines, or `None` for any exception raised inside the listener's `try` block, whether the file cannot be opened or the logging setup before it fails. Listeners.LoadTest.OnTestStart: a read failure part-way through a file, which would leave the lines read before it appended, is not modelled.
- JSON decoding: the descriptor is a parsed record whose `width` and `height` are present, and every listed size has both `width` and `height`. A descriptor missing `width` or `height` raises KeyError in zoomToPoint, customRegion and, for a token that states that dimension, fullImageSized. A size entry missing either raises KeyError in getThumbnailPanel's scan and in rotationRandomSize. Neither case can be represented.
- The `imageBuilder` module: its code is not part of this model, so its four functions are arbitrary and no property of bounded fitting or tile geometry is claimed.
- Python's `int()` accepts more spellings (`+`, surrounding whitespace, underscores) than `Strings.ParseInt`; none occurs in the literal size tokens it is applied to.
- Randomness is a free seed per draw; the distribution of the draws is not modelled.
