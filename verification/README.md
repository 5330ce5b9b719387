# A verified model of the data-donation port

This project models, in Dafny, the deterministic core of a data-donation
pipeline. A participant chooses a platform export archive. Python code
recognises it, pulls tables out of it and runs a prompt and consent flow. A
React front end lets the participant review, search and thin out those
tables before donating them.

The model covers:

- **The extraction helpers**:
  - `dict_denester`, flattening nested JSON into dash-joined paths;
  - `find_item` and `find_items`, querying the flattened dictionary;
  - the member selection of `extract_file_from_zip`;
  - the encoding fallback of `_read_json`;
  - the small string normalisers.
- **The category validator**: scoring member names against fingerprint
  lists, the 5% threshold, and the status codes kept on the `ValidateInput`
  object.
- **The flows**: `FlowBuilder.start_flow`, the ChatGPT study's `process` and
  the example script's `process`. Each generator is a function from the
  host's answers to the trace of commands it yields, with a method that runs
  it.
- **The per-platform extractors**: rows out of decoded JSON, text or CSV.
- **The front end's table logic**: row deletion with undo, search, the
  frame-to-rows conversion, chart aggregation, vocabulary counting, and the
  small utilities.

## Conventions

**JSON.** JSON values form an inductive datatype. Objects are insertion-ordered
sequences of pairs, because Python dicts iterate in insertion order. Updating
a key that is already present keeps its position (`OrderedMaps.Put`).

**Archives.** An archive is the sequence of its members in `namelist()` order.
A file that is not a zip is `None`.

**Library calls taken as given.** These are function parameters (`Codecs` and
the parameters of each extractor):

- JSON and CSV decoding;
- the latin1 round trip;
- epoch and ISO date conversion;
- URL parsing;
- the regex engine.

**Generators.** A generator is run against the answers `R` the host gives:

- the answer to the command at trace position `i` is `R[i]`;
- a run whose answers run out is suspended (`finished == false`);
- the trace then ends with the first unanswered command.

**Python errors.** A caught exception is an explicit `Result`/`Option` error
path. An exception that escapes `extract_data` ends the flow's generator
(`FlowBuilder.Raising`).

**The YouTube category.** The YouTube extractors read the language of
`validation.current_ddp_category`. `validate_zip` records the inferred
category in `ddp_category` and never assigns `current_ddp_category`. The model
follows the code: after a recognised YouTube archive the language lookup
raises and the flow ends (`YouTube.RecognisedZipEndsFlow`). The per-language
file choice is modelled and proved for a category handed in directly
(`YouTube.LanguageChoosesFiles`).

**White space.** Python's `str.isspace` and the characters JavaScript's
`trim` removes are two different sets (`Strings.IsSpace`, `Strings.IsJsSpace`):
only Python counts U+001C to U+001F and U+0085, and only JavaScript counts
U+FEFF. `str.split()` uses the first, and `trim()` in the front end the second.

## Model

| member | source | states |
|---|---|---|
| OrderedMaps.PutKeepsUnique | packages/python/port/helpers/extraction_helpers.py:50 | dict.update on an insertion-ordered dict keeps every key once: a new key goes last, an existing key keeps its place and takes the new value |
| ExtractionHelpers.DenestInto | packages/python/port/helpers/extraction_helpers.py:41-59 | one recursive call adds to the shared dictionary, in order, every leaf below its input, keyed by the name built so far and the leaf's path; containers recurse, scalars are stored under name[1:] |
| ExtractionHelpers.DenestFields | packages/python/port/helpers/extraction_helpers.py:44-50 | the loop over a dict adds the leaves below each of its values in field order, each under name-key |
| ExtractionHelpers.DenestField | packages/python/port/helpers/extraction_helpers.py:45-50 | one field adds every leaf below its value under name-key; a scalar value is stored under (name-key)[1:] |
| ExtractionHelpers.DenestItems | packages/python/port/helpers/extraction_helpers.py:52-54 | the loop over a list adds the leaves below each item in list order, item i under name-i |
| ExtractionHelpers.DictDenester | packages/python/port/helpers/extraction_helpers.py:41-42 | a top-level call starts from a fresh dictionary and returns the denested map of its input |
| ExtractionHelpers.TopLevelKey | packages/python/port/helpers/extraction_helpers.py:47-50 | at the top level a leaf's key is its path joined with "-" and no leading "-" |
| ExtractionHelpers.DenestedValuesAreLeaves | packages/python/port/helpers/extraction_helpers.py:46-57 | no dict or list survives as a value of the denested map |
| ExtractionHelpers.DenestScalar | packages/python/port/helpers/extraction_helpers.py:56-57 | a bare scalar input is stored under the key "" |
| ExtractionHelpers.DenestEmptyContainers | packages/python/port/helpers/extraction_helpers.py:44-54 | an empty dict or list adds no entry |
| ExtractionHelpers.DenestExample | packages/python/port/helpers/extraction_helpers.py:37-39 | {"a":{"b":{"c":1}},"d":[2,3]} denests to {"a-b-c":1,"d-0":2,"d-1":3} |
| ExtractionHelpers.DenestCollision | packages/python/port/helpers/extraction_helpers.py:50 | two paths that flatten to the same key leave one entry, in the first one's place, holding the later value |
| ExtractionHelpers.ShallowestSpec | packages/python/port/helpers/extraction_helpers.py:85-93 | find_item's loop settles on a matching key of fewest "-", the first such in iteration order (strict <), and on nothing exactly when no key matches |
| ExtractionHelpers.ShallowestFirstUnique | packages/python/port/helpers/extraction_helpers.py:91 | at most one index is the first shallowest match |
| ExtractionHelpers.FindItem | packages/python/port/helpers/extraction_helpers.py:83-97 | the loop returns str() of the first least-deep match, "" when nothing matches, and "" when the pattern does not compile (the caught exception) |
| ExtractionHelpers.FindItemExample | packages/python/port/helpers/extraction_helpers.py:79-81 | {"asd-asd-asd":1,"asd-asd":2,"qwe":3} with "asd" gives "2" |
| ExtractionHelpers.FindItems | packages/python/port/helpers/extraction_helpers.py:120-130 | the loop returns str() of every value whose key matches, in iteration order |
| ExtractionHelpers.MatchedValuesEmpty | packages/python/port/helpers/extraction_helpers.py:124-126 | find_items is empty exactly when no key matches |
| ExtractionHelpers.MatchedValuesCount | packages/python/port/helpers/extraction_helpers.py:124-126 | find_items lists one value per matching key |
| ExtractionHelpers.FindItemAmongFindItems | packages/python/port/helpers/extraction_helpers.py:88-93 | what find_item returns is one of the values find_items lists for the same pattern |
| ExtractionHelpers.FixAsciiString | packages/python/port/helpers/extraction_helpers.py:192-196 | the result holds only ASCII characters, each taken from the input, and is the input itself when that is all ASCII |
| ExtractionHelpers.FixAsciiIdempotent | packages/python/port/helpers/extraction_helpers.py:193 | fixing twice is fixing once |
| ExtractionHelpers.FixAsciiChar | packages/python/port/helpers/extraction_helpers.py:193-193 | one character is kept exactly when it is ASCII, and dropped otherwise |
| ExtractionHelpers.FixAsciiAppend | packages/python/port/helpers/extraction_helpers.py:193-193 | the filter works character by character: fixing a concatenation concatenates the fixed parts, so the ASCII characters are all kept, in order |
| ExtractionHelpers.FixAsciiExample | packages/python/port/helpers/extraction_helpers.py:189-190 | the docstring's example: "Hello, " followed by two CJK characters and "!" gives "Hello, !" |
| ExtractionHelpers.ReplaceMonths | packages/python/port/helpers/extraction_helpers.py:215-226 | the length is kept, and a string containing none of mrt, mei, okt comes back unchanged |
| ExtractionHelpers.ReplaceMonthsMrt | packages/python/port/helpers/extraction_helpers.py:221-224 | when mrt occurs, only its first occurrence becomes mar |
| ExtractionHelpers.ReplaceMonthsMei | packages/python/port/helpers/extraction_helpers.py:221-224 | when mrt is absent and mei occurs, only the first mei becomes may |
| ExtractionHelpers.ReplaceMonthsExample | packages/python/port/helpers/extraction_helpers.py:211-212 | "15 mei 2023" becomes "15 may 2023" |
| ExtractionHelpers.ReplaceMonthsFirstOccurrenceOnly | packages/python/port/helpers/extraction_helpers.py:223 | "mrt mrt" becomes "mar mrt" |
| ExtractionHelpers.ReplaceMonthsOrder | packages/python/port/helpers/extraction_helpers.py:215-222 | mrt is tried before okt wherever they occur: "okt mrt" becomes "okt mar" |
| ExtractionHelpers.EpochToIso | packages/python/port/helpers/extraction_helpers.py:247-254 | the converted ISO string, or str() of the input when the conversion raises |
| ExtractionHelpers.FixLatin1String | packages/python/port/helpers/extraction_helpers.py:301-305 | the latin1 round trip, or the input unchanged when it raises |
| ExtractionHelpers.TimestampSortKey | packages/python/port/helpers/extraction_helpers.py:271-281 | a non-empty string with a parseable ISO date gets minus its timestamp, everything else infinity |
| ExtractionHelpers.SortedKeysNewestFirst | packages/python/port/helpers/extraction_helpers.py:257-283 | sorted by that key, parseable dates come newest first and empty or unparseable ones last |
| ExtractionHelpers.FirstSuffixMatch | packages/python/port/helpers/extraction_helpers.py:343-348 | the first member in namelist order whose name ends with the literal target, or none when no name does |
| ExtractionHelpers.ExtractFileFromZip | packages/python/port/helpers/extraction_helpers.py:337-361 | the bytes of the first matching member, and an empty buffer for a bad zip or when nothing matches |
| ExtractionHelpers.ReadJson | packages/python/port/helpers/extraction_helpers.py:434-457 | utf8 first; only a JSON decode error moves on to utf-8-sig; a non-container result or any other error stops the loop; total failure gives {} |
| ExtractionHelpers.JsonOfBytes | packages/python/port/helpers/extraction_helpers.py:434-457 | the result is always a dict or a list; a container decoded with utf8 is returned; a failure other than a decode error gives {} |
| ExtractionHelpers.SecondEncodingOnlyAfterDecodeError | packages/python/port/helpers/extraction_helpers.py:448-455 | what utf-8-sig would give matters only after utf8 raised a JSON decode error |
| ExtractionHelpers.ReadCsvFromBytes | packages/python/port/helpers/extraction_helpers.py:527-540 | the rows DictReader yielded before it stopped, kept even when it raised |
| Validate.CategoryLookup | packages/python/port/helpers/validate.py:177-179 | the id-keyed lookup of the categories, in first-insertion order |
| Validate.CategoryLookupKeys | packages/python/port/helpers/validate.py:177-179 | the lookup holds each id once, and an id is a key exactly when some category has it |
| Validate.CategoryLookupLast | packages/python/port/helpers/validate.py:177-179 | an id maps to the last category carrying it |
| Validate.DuplicateIdsCollapse | packages/python/port/helpers/validate.py:177-179 | two categories sharing an id leave one entry, holding the later category |
| Validate.StatusLookup | packages/python/port/helpers/validate.py:180-182 | an id is a key of the status lookup exactly when some status code has it |
| Validate.Hits | packages/python/port/helpers/validate.py:127-130 | the number of input names, duplicates included, found among the known files: zero exactly when none is, all exactly when each is |
| Validate.HitsAppend | packages/python/port/helpers/validate.py:127-130 | a repeated input name counts once per repetition |
| Validate.ThresholdInIntegers | packages/python/port/helpers/validate.py:130-132 | the score 100 * hits / len(known_files) reaches 5 exactly when 20 * hits >= len(known_files) |
| Validate.Scores | packages/python/port/helpers/validate.py:125-130 | one score per lookup entry, in lookup order |
| Validate.FirstMaxSpec | packages/python/port/helpers/validate.py:133 | max(d, key=d.get) picks a maximum score, and every entry before it scores strictly less |
| Validate.InferredSpec | packages/python/port/helpers/validate.py:132-142 | no category is inferred exactly when every score is below 5; otherwise the inferred one has the highest score, strictly higher than every earlier one |
| Validate.NoKnownFileNotInferred | packages/python/port/helpers/validate.py:127-132 | an archive without any known file is never recognised |
| Validate.BaseName | packages/python/port/helpers/validate.py:224-226 | Path(f).name, the last component that is neither empty nor ".", contains no "/" and is never "." |
| Validate.LastComponent | packages/python/port/helpers/validate.py:224-226 | the component kept is one of the path's components, or "" when every one is empty or "." |
| Validate.BaseNameOfPlainName | packages/python/port/helpers/validate.py:224-226 | a name without a slash is its own base name, except "." whose name is "" |
| Validate.BaseNameSkipsDot | packages/python/port/helpers/validate.py:224-226 | a trailing slash and a "." component are dropped: the name of "a/./" is "a" |
| Validate.BaseNameOfDotted | packages/python/port/helpers/validate.py:224-226 | a final "." component is dropped: the name of "a/b/." is "b", and that of "." is "" |
| Validate.ValidateInput.constructor | packages/python/port/helpers/validate.py:172-182 | construction keeps both lists, leaves the status and both category attributes unset, and builds the two lookups |
| Validate.ValidateInput.StatusFor | packages/python/port/helpers/validate.py:154 | the code registered under an id, or none for an id not in the table |
| Validate.ValidateInput.SetCurrentStatusCodeById | packages/python/port/helpers/validate.py:144-154 | the status becomes the lookup's entry for the id, or None for an unknown id, and nothing else changes |
| Validate.ValidateInput.GetStatusCodeId | packages/python/port/helpers/validate.py:156-170 | 1 while no status code is set, otherwise the set code's id |
| Validate.ValidateInput.InferDdpCategory | packages/python/port/helpers/validate.py:111-142 | returns True exactly when a category reaches 5%; then the status is 0 and ddp_category is the inferred one; otherwise the status is 1 and the category "unknown" with no known files; current_ddp_category is never assigned |
| Validate.ScoreCategories | packages/python/port/helpers/validate.py:125-130 | the loop filling prop_category computes the scores in lookup order |
| Validate.HighestScore | packages/python/port/helpers/validate.py:133 | the loop finds the first entry of largest score |
| Validate.ZipValidationStatus | packages/python/port/helpers/validate.py:220-232 | the status id is 0 or 1, and 1 for a bad zip |
| Validate.ZipValidationUsesBaseNames | packages/python/port/helpers/validate.py:223-228 | only base names are scored: two archives whose members have the same base names validate alike |
| Validate.StatusCodesOfZip | packages/python/port/helpers/validate.py:214-217 | validate_zip registers exactly the codes 0 and 1 |
| Validate.CollectBaseNames | packages/python/port/helpers/validate.py:221-226 | the loop collects Path(f).name for every member, in order |
| Validate.ValidateZip | packages/python/port/helpers/validate.py:185-232 | a fresh validator whose status id is the zip's validation status; a bad zip scores nothing and leaves ddp_category unset |
| Tables.NonEmptyTables | packages/python/port/platforms/chatgpt.py:112 | the tables kept are exactly those whose frame is not empty |
| Tables.NonEmptyTablesAppend | packages/python/port/platforms/chatgpt.py:112 | the filter keeps the order of the tables it keeps |
| Tables.NonEmptyTablesIdempotent | packages/python/port/platforms/chatgpt.py:112 | filtering twice keeps the same tables |
| Commands.Donations | packages/python/port/platforms/flow_builder.py:91-96 | the count of donations in a trace: zero exactly when the trace holds none |
| Commands.YieldAll | src/framework/processing/py/port/script.py:99-101 | yielding several commands in a row completes exactly when all are answered, and otherwise stops at the first unanswered one |
| FlowBuilder.YieldFrom | packages/python/port/platforms/flow_builder.py:67-68 | yield from forwards every prompt of the extraction generator, and hands its return value back once all are answered |
| FlowBuilder.FlowBuilder.constructor | packages/python/port/platforms/flow_builder.py:20-23 | a new flow starts with table_list = [] |
| FlowBuilder.FlowBuilder.StartFlow | packages/python/port/platforms/flow_builder.py:51-98 | the generator's trace against the answers R, with table_list left as the loop set it |
| FlowBuilder.ForwardPrompts | packages/python/port/platforms/flow_builder.py:67-68 | the loop of yield from forwards the prompts and collects their answers |
| FlowBuilder.FileLoopRendersOnly | packages/python/port/platforms/flow_builder.py:55-84 | the file loop yields nothing but page renders |
| FlowBuilder.AtMostOneDonation | packages/python/port/platforms/flow_builder.py:91-96 | a run of the flow donates at most once |
| FlowBuilder.ConsentDonatesOnce | packages/python/port/platforms/flow_builder.py:86-98 | the consent step adds at most one donation |
| FlowBuilder.FinishedRunExits | packages/python/port/platforms/flow_builder.py:98 | a finished run ends with exit(0, "Success") |
| FlowBuilder.SkipStillAsksConsent | packages/python/port/platforms/flow_builder.py:23-89 | skipping the file prompt still shows the consent form, with an empty table list |
| FlowBuilder.SkipThenDecline | packages/python/port/platforms/flow_builder.py:94-98 | declining after a skip donates json.dumps of the string '{"status" : "data_submission declined"}' under the session id, then exits |
| FlowBuilder.NoneSkipsConsent | packages/python/port/platforms/flow_builder.py:66-86 | an extraction returning None skips the consent form |
| FlowBuilder.InvalidFileAsksRetry | packages/python/port/platforms/flow_builder.py:73-76 | a file that fails validation gets the retry prompt |
| FlowBuilder.RetryReturnsToFilePrompt | packages/python/port/platforms/flow_builder.py:77-78 | PayloadTrue at the retry prompt brings the file prompt back |
| FlowBuilder.ValidFileShowsTables | packages/python/port/platforms/flow_builder.py:64-89 | a valid file whose extraction returns tables leads straight to consent for those tables |
| ChatGpt.RowOfFlat | packages/python/port/platforms/chatgpt.py:56-71 | a hidden turn or one with an empty role gives no row; otherwise five cells: title, role, the joined "part" values, model and time |
| ChatGpt.TurnRow | packages/python/port/platforms/chatgpt.py:55-71 | the row of a turn is read from its denested form |
| ChatGpt.RowsFromTurns | packages/python/port/platforms/chatgpt.py:53-71 | at most one row per turn, each well formed and carrying the conversation's title |
| ChatGpt.ConversationTurns | packages/python/port/platforms/chatgpt.py:52-53 | a conversation yields its title and mapping values exactly when both fields exist and the mapping is a dict |
| ChatGpt.OneFailureDiscardsAll | packages/python/port/platforms/chatgpt.py:50-78 | one conversation that raises discards the datapoints of all the others |
| ChatGpt.CollectedStep | packages/python/port/platforms/chatgpt.py:51-71 | a further conversation that does not raise appends its rows |
| ChatGpt.CollectedFrom | packages/python/port/platforms/chatgpt.py:51-71 | every datapoint comes from some conversation's rows |
| ChatGpt.ConversationRows | packages/python/port/platforms/chatgpt.py:50-71 | every collected row is well formed |
| ChatGpt.ConversationsFrame | packages/python/port/platforms/chatgpt.py:47-78 | the frame is rectangular with the five columns when it has rows, empty exactly when it has none, and every row has a non-empty role |
| ChatGpt.MissingFieldEmptiesTable | packages/python/port/platforms/chatgpt.py:52-78 | a conversation without "title" or "mapping" empties the whole table |
| ChatGpt.TurnRowsAppend | packages/python/port/platforms/chatgpt.py:53-71 | the rows follow the turns in mapping order |
| ChatGpt.RowOfDenested | packages/python/port/platforms/chatgpt.py:56-71 | the inner loop's body computes the turn's row |
| ChatGpt.CollectTurns | packages/python/port/platforms/chatgpt.py:53-71 | the inner loop appends the rows of the turns, in order |
| ChatGpt.TurnStep | packages/python/port/platforms/chatgpt.py:70-71 | appending one turn's row, if any, extends the rows of the turns before it |
| ChatGpt.CollectRows | packages/python/port/platforms/chatgpt.py:50-71 | the outer loop collects the rows of every conversation, or fails as soon as one raises |
| ChatGpt.CollectConversations | packages/python/port/platforms/chatgpt.py:47-78 | the try block gives the conversations frame |
| ChatGpt.ConversationsToDf | packages/python/port/platforms/chatgpt.py:43-78 | conversations.json from the archive, decoded and tabulated |
| ChatGpt.Extraction | packages/python/port/platforms/chatgpt.py:82-114 | no table exactly when the frame is empty, otherwise the single chatgpt_conversations table |
| ChatGpt.ChatGptCatalog | packages/python/port/platforms/chatgpt.py:27-40 | the catalog has the one category "json" and can be scored |
| ChatGpt.ChatGptInferredIff | packages/python/port/platforms/chatgpt.py:27-40 | with five known files the 5% threshold is one hit |
| ChatGpt.ChatGptValidIffKnownFile | packages/python/port/platforms/chatgpt.py:122-123 | an archive is recognised exactly when one of its members' base names is a known file |
| ChatGpt.ChatGptPlatform | packages/python/port/platforms/chatgpt.py:118-126 | ChatGPTFlow validates with the catalog (a bad zip gives 1) and extracts the conversations table |
| ChatGpt.BadZipAsksRetry | packages/python/port/platforms/chatgpt.py:122-123 | a file that is not a zip gets the retry prompt |
| ChatGpt.RecognisedZipShowsConversations | packages/python/port/platforms/chatgpt.py:122-126 | a recognised archive leads straight to the consent form with the extracted table, if any |
| ChatGptSrc.LastIndex | src/framework/processing/py/port/chatgpt.py:51-52 | the last position of a character, or none when it is absent |
| ChatGptSrc.PathSuffix | src/framework/processing/py/port/chatgpt.py:52 | Path.suffix is empty or a proper dot-led suffix of the name |
| ChatGptSrc.JsonSuffixIff | src/framework/processing/py/port/chatgpt.py:52 | a base name has suffix .json exactly when it ends in .json and has more before it |
| ChatGptSrc.ScoredName | src/framework/processing/py/port/chatgpt.py:51-54 | a member contributes its base name, if anything |
| ChatGptSrc.ScoredNames | src/framework/processing/py/port/chatgpt.py:48-54 | only names with suffix .html or .json are scored |
| ChatGptSrc.SrcValidationStatus | src/framework/processing/py/port/chatgpt.py:45-63 | the status id is 0 or 1, and 1 for a bad zip |
| ChatGptSrc.SrcStatusLookup | src/framework/processing/py/port/chatgpt.py:34-37 | the module registers exactly the codes 0 and 1 |
| ChatGptSrc.CollectScoredNames | src/framework/processing/py/port/chatgpt.py:48-54 | the loop keeps the .html and .json base names in archive order |
| ChatGptSrc.ValidateZip | src/framework/processing/py/port/chatgpt.py:40-63 | a fresh validator whose status id is 0 exactly when a category is inferred, and 1 for a bad zip |
| ChatGptSrc.SrcValidIffKnownFile | src/framework/processing/py/port/chatgpt.py:49-59 | an archive is valid exactly when one of its .html or .json members has a known base name |
| ChatGptSrc.ConversationsToDf | src/framework/processing/py/port/chatgpt.py:67-103 | the same row rule as the packaged module, with the script's own timestamp conversion |
| ChatGptSrc.QaPointOfFlat | src/framework/processing/py/port/chatgpt.py:124-142 | a hidden turn or one with an empty role gives no datapoint; otherwise its role, message, id, first child and parent |
| ChatGptSrc.QaPointOf | src/framework/processing/py/port/chatgpt.py:124 | a turn's datapoint is read from its denested form |
| ChatGptSrc.QaPoints | src/framework/processing/py/port/chatgpt.py:119-142 | every datapoint has a non-empty role |
| ChatGptSrc.QaPointsMatchRows | src/framework/processing/py/port/chatgpt.py:119-142 | the datapoints follow the conversations table one for one: both fail together, and they have the same length |
| ChatGptSrc.Candidates | src/framework/processing/py/port/chatgpt.py:148-152 | a candidate id is that of a user datapoint whose id is no datapoint's child |
| ChatGptSrc.FirstAccepted | src/framework/processing/py/port/chatgpt.py:156-167 | no pair exactly when no id is accepted; otherwise the pair of the first accepted id in shuffled order |
| ChatGptSrc.SelectedPairIsAccepted | src/framework/processing/py/port/chatgpt.py:156-172 | a non-empty result is the unique question and the unique answer of an accepted candidate, and question and answer are empty together |
| ChatGptSrc.NoAcceptedCandidateGivesEmpty | src/framework/processing/py/port/chatgpt.py:117-167 | without an accepted candidate the result is ("", "") whatever the shuffle |
| ChatGptSrc.OneAcceptedCandidateIgnoresShuffle | src/framework/processing/py/port/chatgpt.py:152-167 | with a single accepted candidate the shuffle does not change the result |
| ChatGptSrc.OneAcceptedFound | src/framework/processing/py/port/chatgpt.py:156-167 | an accepted candidate guarantees a non-empty result |
| ChatGptSrc.QaOfDenested | src/framework/processing/py/port/chatgpt.py:125-142 | the inner loop's body computes the turn's datapoint |
| ChatGptSrc.CollectQaTurns | src/framework/processing/py/port/chatgpt.py:122-142 | the inner loop appends the datapoints of the turns, in order |
| ChatGptSrc.CollectQaPoints | src/framework/processing/py/port/chatgpt.py:119-142 | the outer loop collects every conversation's datapoints, or fails as soon as one raises |
| ChatGptSrc.PickFirstAccepted | src/framework/processing/py/port/chatgpt.py:156-167 | the loop with break returns the first accepted pair, or ("", "") |
| ChatGptSrc.SelectRandomQaMethod | src/framework/processing/py/port/chatgpt.py:107-172 | select_random_qa on the archive, with the shuffle as given |
| Script.LogLines | src/framework/processing/py/port/script.py:127-131 | an empty log gives ["no logs"]; otherwise the lines join back to the log and none contains a newline |
| Script.LogsJson | src/framework/processing/py/port/script.py:126-133 | the JSON array of the log lines, one string per line |
| Script.DonateLogs | src/framework/processing/py/port/script.py:126-133 | donate_logs donates json.dumps of the log lines under its key |
| Script.DonateStatus | src/framework/processing/py/port/script.py:137-138 | donate_status donates an object whose only key is "status", holding the message |
| Script.TrackingDonatesLogs | src/framework/processing/py/port/script.py:40-48 | in the ChatGPT study every log donation is donate_logs of the log text at that point |
| Script.ExtractChatgpt | src/framework/processing/py/port/script.py:146-166 | one table when the conversations frame is not empty, none otherwise |
| Script.ExtractChatgptAgrees | src/framework/processing/py/port/script.py:146-166 | the study script offers the same table as the packaged extraction |
| Script.SkipFlow | src/framework/processing/py/port/script.py:79-87 | a way out that skips consent donates the logs, then the status, and leaves with no table list |
| Script.FileLoop | src/framework/processing/py/port/script.py:46-87 | every iteration starts with the logs and the file prompt |
| Script.ProcessRun | src/framework/processing/py/port/script.py:38-114 | a run starts with the logs, and a finished run ends with exit(0, "Success") and the end page |
| Script.FileLoopUnfold | src/framework/processing/py/port/script.py:46-55 | an iteration answered with a file goes on with that file's handling |
| Script.FileLoopNoFile | src/framework/processing/py/port/script.py:83-87 | an unanswered or non-file answer to the file prompt ends the loop |
| Script.SkipAtFileSelection | src/framework/processing/py/port/script.py:83-114 | a non-file answer gives the logs, SKIP_FILE_SELECTION under "{session}-SKIP-FILE-SELECTION", no consent, and the exit |
| Script.RetryDeclined | src/framework/processing/py/port/script.py:70-114 | an invalid file whose retry is declined gives the retry prompt, SKIP_RETRY_FLOW, no consent, and the exit |
| Script.RetryAccepted | src/framework/processing/py/port/script.py:75-76 | PayloadTrue at the retry prompt brings back the logs and the file prompt |
| Script.ValidFileLeavesLoop | src/framework/processing/py/port/script.py:60-67 | a valid file leaves the loop after one log donation, with the extracted tables and the selected question and answer |
| Script.ConsentDonationOrder | src/framework/processing/py/port/script.py:90-101 | consent with data: the logs and the consent form, then the data under "{session}-ChatGPT", the logs, and DONATED |
| Script.QuestionnaireAfterDonation | src/framework/processing/py/port/script.py:103-114 | after a donation the questionnaire comes exactly when question and answer are both non-empty; its answer is donated only on PayloadJSON; otherwise the run exits |
| Script.ProcessEntersLoop | src/framework/processing/py/port/script.py:38-90 | after the first log donation a run is the loop and then the consent step |
| Script.ValidFirstFile | src/framework/processing/py/port/script.py:46-67 | a valid first file leaves the loop at position 4 |
| Script.DonationOrder | src/framework/processing/py/port/script.py:38-101 | a valid first file and consent with data: the consent form at position 5 and the donations in order |
| Script.HandleFile | src/framework/processing/py/port/script.py:55-81 | the loop body for a chosen file (validate_zip, then the extraction and the question and answer, or the retry prompt) computes the step of the flow |
| Script.RunFileLoop | src/framework/processing/py/port/script.py:46-87 | the while True loop yields what the loop of the flow yields, and leaves as it does |
| Script.Process | src/framework/processing/py/port/script.py:38-114 | the generator's trace against the answers R |
| D3iExample.IsValidInput | packages/python/port/d3i_example_script.py:152-156 | a file is valid exactly when it opens as a zip |
| D3iExample.CollectMemberRows | packages/python/port/d3i_example_script.py:106-109 | one (name, compressed size, size) row per member, in archive order |
| D3iExample.ExtractTheData | packages/python/port/d3i_example_script.py:91-138 | a bad zip gives no table; otherwise one zip_contents table with the three columns and one row per member |
| D3iExample.ExampleStudy | packages/python/port/d3i_example_script.py:46-55 | the study validates a file by opening it as a zip and extracts its member table |
| D3iExample.ExitFrom | packages/python/port/d3i_example_script.py:88 | once answered, the run ends with exit(0, "Success") |
| D3iExample.ConsentAnswer | packages/python/port/d3i_example_script.py:61-66 | PayloadJSON donates the value, PayloadFalse the declined string, anything else nothing |
| D3iExample.ProcessFrom | packages/python/port/d3i_example_script.py:36-88 | an iteration of the loop extends the commands yielded so far |
| D3iExample.Process | packages/python/port/d3i_example_script.py:32-88 | the generator's trace against the answers R |
| D3iExample.SkipExitsWithoutDonation | packages/python/port/d3i_example_script.py:84-88 | a non-file answer gives the file prompt and the exit, with no donation |
| D3iExample.ValidFileConsent | packages/python/port/d3i_example_script.py:50-69 | a valid file gives one consent prompt for its tables, the donation its answer decides, and the exit |
| D3iExample.InvalidFileRetries | packages/python/port/d3i_example_script.py:73-79 | an invalid file gets the retry prompt, and PayloadTrue starts the loop over |
| D3iExample.InvalidFileDeclined | packages/python/port/d3i_example_script.py:80-88 | any other answer to the retry prompt leaves the loop and exits |
| D3iExample.ConsentDonatesOnce | packages/python/port/d3i_example_script.py:60-69 | the consent step adds at most one donation |
| D3iExample.AtMostOneDonation | packages/python/port/d3i_example_script.py:36-88 | a run donates at most once |
| D3iExample.FinishedRunExits | packages/python/port/d3i_example_script.py:36-88 | a finished run ends with exit(0, "Success"); an unfinished one waits for an answer |
| D3iExample.ZipShowsContents | packages/python/port/d3i_example_script.py:46-60 | a file that opens as a zip is shown as its zip_contents table |
| Records.Opened | packages/python/port/helpers/extraction_helpers.py:460-485 | every member of an archive reads as a dict or a list, the decoded target of extract_file_from_zip; the archive's size is its member count, zero for a bad zip |
| Records.GetIn | packages/python/port/platforms/facebook.py:265-266 | d.get(outer, {}).get(key, default) succeeds exactly when d and the inner value are dicts, and then gives the inner lookup with its default |
| Records.FieldIn | packages/python/port/platforms/facebook.py:347 | d[outer][key] succeeds exactly when both subscripts find their key |
| Records.PyIn | packages/python/port/platforms/facebook.py:261 | `key in d` is key membership for a dict, element membership for a list, substring for a string, and raises on anything else |
| Records.First | packages/python/port/platforms/facebook.py:144 | items[0] succeeds exactly on a non-empty list or string and gives the first item |
| Records.FixLatin1 | packages/python/port/helpers/extraction_helpers.py:286-311 | fix_latin1_string repairs a string and returns any other value unchanged |
| Records.GetRow | packages/python/port/platforms/facebook.py:48-51 | a datapoint of item.get(key, "") lookups exists exactly for a dict item and holds one converted cell per key, "" for a missing key |
| Records.FoundRow | packages/python/port/platforms/facebook.py:192-198 | a datapoint of find_item lookups on the denested item never raises and has one cell per key |
| Records.FindRuleAllOk | packages/python/port/platforms/facebook.py:192-198 | a loop of find_item datapoints gives a datapoint for every item |
| Records.AllRowsSpec | packages/python/port/platforms/facebook.py:46-51 | the append loop succeeds exactly when no item raises, and then holds one datapoint per item in item order |
| Records.AllRowsStep | packages/python/port/platforms/facebook.py:47-51 | one more iteration appends exactly that item's datapoint |
| Records.OneRaiseFailsAll | packages/python/port/platforms/facebook.py:45-57 | one item that raises ends the whole loop in the handler |
| Records.CollectRows | packages/python/port/platforms/facebook.py:46-51 | the for loop computes the datapoint list of the specification, or fails at the first raising item |
| Records.RecordsFrameTabulates | packages/python/port/platforms/facebook.py:37-58 | a record extractor returns the columns and one row per item in order when the list is there and no item raises, otherwise the empty DataFrame() |
| Records.RecordsFrameEmpty | packages/python/port/platforms/facebook.py:37-58 | a record extractor's table is empty exactly when the list is missing, not iterable, empty, or holds an item that raises |
| Records.RecordsToDf | packages/python/port/platforms/facebook.py:42-58 | the try block run step by step meets the same promise |
| Records.GatheredOk | packages/python/port/platforms/facebook.py:257-281 | nested loops succeed exactly when no outer item raises |
| Records.GatheredAppend | packages/python/port/platforms/facebook.py:257-281 | the datapoints of two runs of items are those of the first followed by those of the second |
| Records.GatheredSingle | packages/python/port/platforms/facebook.py:257-281 | one item contributes exactly its own datapoints |
| Records.Prepend | packages/python/port/platforms/facebook.py:583-597 | rows read so far survive exactly when the rest of the loop does not raise |
| Records.NumberedRaiseDiscardsAll | packages/python/port/platforms/facebook.py:592-595 | a numbered file whose loop raises, reached through non-empty files, discards the rows of every file |
| Records.NumberedFirstFile | packages/python/port/platforms/facebook.py:575-597 | the rows of the first file come first, and are all the rows when the next file is empty |
| Records.PrependAssoc | packages/python/port/platforms/facebook.py:583-590 | appending datapoints file by file is the same as appending them all at once |
| Records.CollectNumbered | packages/python/port/platforms/facebook.py:572-597 | the while True loop with its counter computes the numbered-files specification from file 1 |
| Facebook.FacebookCatalog | packages/python/port/platforms/facebook.py:25-34 | the catalog has the one category json_en and can be scored |
| Facebook.FacebookKnownFilesRepeat | packages/python/port/platforms/facebook.py:31 | the known files number 57, with no-data.txt three times and timezone.json twice |
| Facebook.FacebookNeedsThreeHits | packages/python/port/platforms/facebook.py:25-34 | an archive is recognised exactly when three base names of its members, repetitions counted, are known files |
| Facebook.FollowedRow | packages/python/port/platforms/facebook.py:48-51 | the datapoint exists exactly for a dict item and is the repaired name and the converted timestamp, {} when missing |
| Facebook.WhoYouveFollowedRows | packages/python/port/platforms/facebook.py:37-58 | a following_v3 list of dicts gives the Name and Timestamp columns and one row per item in order |
| Facebook.WhoYouveFollowedTabulates | packages/python/port/platforms/facebook.py:37-58 | who_youve_followed_to_df returns one row per following_v3 item in order, or the empty DataFrame() |
| Facebook.NewsYourLocationsTabulates | packages/python/port/platforms/facebook.py:61-80 | news_your_locations_to_df returns one row per news_your_locations_v2 item, or the empty DataFrame() |
| Facebook.NotificationsTabulates | packages/python/port/platforms/facebook.py:83-107 | notifications_to_df returns one found row per notifications_v2 item, or the empty DataFrame() |
| Facebook.ContentSharingTabulates | packages/python/port/platforms/facebook.py:110-131 | content_sharing_you_have_created_to_df returns one found row per item of the file, or the empty DataFrame() |
| Facebook.ReelsUsageTabulates | packages/python/port/platforms/facebook.py:134-157 | facebook_reels_usage_to_df returns one found row per item of the first label value's dict, or the empty DataFrame() |
| Facebook.Last28DaysToDf | packages/python/port/platforms/facebook.py:160-179 | last_28_days_to_df always returns exactly one row, the found -value of the denested file |
| Facebook.SearchHistoryTabulates | packages/python/port/platforms/facebook.py:182-205 | your_search_history_to_df returns one found row per searches_v2 item, or the empty DataFrame() |
| Facebook.YourFriendsToDf | packages/python/port/platforms/facebook.py:208-225 | your_friends_to_df returns one row holding len(friends_v2), and the empty DataFrame() when the key is missing or has no length |
| Facebook.FriendsCounted | packages/python/port/platforms/facebook.py:217-220 | a list of friends gives the single row holding the number of friends |
| Facebook.AdsInterestsTabulates | packages/python/port/platforms/facebook.py:228-247 | ads_interests_to_df returns one repaired row per topics_v2 item, or the empty DataFrame() |
| Facebook.EntryRow | packages/python/port/platforms/facebook.py:262-268 | a viewed entry gives a row exactly when the entry and its data are dicts, and the row starts with the heading it is listed under |
| Facebook.ChildRows | packages/python/port/platforms/facebook.py:272-279 | a child without entries raises |
| Facebook.KeyedRows | packages/python/port/platforms/facebook.py:261-279 | the rows under a key are empty when the key is absent, and are that value's rows when it is present |
| Facebook.ViewedItemRows | packages/python/port/platforms/facebook.py:258-279 | a recently viewed item gives the rows of its entries followed by the rows of its children's entries |
| Facebook.ChildWithoutEntriesEmptiesTable | packages/python/port/platforms/facebook.py:250-286 | one child without entries anywhere in recently_viewed empties the whole table |
| Facebook.VisitedItemRows | packages/python/port/platforms/facebook.py:297-307 | a visited item's rows are its entries' rows under the item's name, not repaired |
| Facebook.ProfileUpdateHistoryTabulates | packages/python/port/platforms/facebook.py:316-335 | profile_update_history_to_df returns one row per profile_updates_v2 item, or the empty DataFrame() |
| Facebook.UnboundSorted | packages/python/port/platforms/facebook.py:354-357 | building the frame from the unbound name datapoints_sorted always ends in the handler, so the frame is DataFrame() |
| Facebook.EventResponsesToDf | packages/python/port/platforms/facebook.py:338-359 | your_event_responses_to_df always returns the empty DataFrame() |
| Facebook.GroupPostsAndCommentsToDf | packages/python/port/platforms/facebook.py:362-387 | group_posts_and_comments_to_df always returns the empty DataFrame() |
| Facebook.AnswersToMembershipQuestionsTabulates | packages/python/port/platforms/facebook.py:391-411 | your_answers_to_membership_questions_to_df returns one row per group_answers item, or the empty DataFrame() |
| Facebook.CommentsInGroupsToDf | packages/python/port/platforms/facebook.py:414-439 | your_comments_in_groups_to_df always returns the empty DataFrame() |
| Facebook.GroupMembershipActivityTabulates | packages/python/port/platforms/facebook.py:442-465 | your_group_membership_activity_to_df returns one found row per groups_joined_v2 item, or the empty DataFrame() |
| Facebook.PagesAndProfilesYouFollowTabulates | packages/python/port/platforms/facebook.py:469-489 | pages_and_profiles_you_follow_to_df returns one row per pages_followed_v2 item, or the empty DataFrame() |
| Facebook.PagesYouveLikedTabulates | packages/python/port/platforms/facebook.py:492-513 | pages_youve_liked_to_df returns one row per page_likes_v2 item, or the empty DataFrame() |
| Facebook.SavedItemsToDf | packages/python/port/platforms/facebook.py:516-536 | your_saved_items_to_df always returns the empty DataFrame() |
| Facebook.CommentsToDf | packages/python/port/platforms/facebook.py:540-563 | comments_to_df always returns the empty DataFrame() |
| Facebook.LikesAndReactionsToDf | packages/python/port/platforms/facebook.py:566-600 | likes_and_reactions_to_df reads likes_and_reactions_1.json, _2, … until a file decodes to an empty value, and returns the empty DataFrame() as soon as one file's loop raises |
| Facebook.NoFirstLikesFileNoRows | packages/python/port/platforms/facebook.py:579-580 | an empty first file gives a table without rows |
| Facebook.OneLikesFile | packages/python/port/platforms/facebook.py:575-600 | one non-empty file followed by an empty one gives one found row per item of the first file, in order |
| Facebook.CommentActiveDaysTabulates | packages/python/port/platforms/facebook.py:604-624 | your_comment_active_days_to_df returns one row per label_values item, or the empty DataFrame() |
| Facebook.YourPagesTabulates | packages/python/port/platforms/facebook.py:628-649 | your_pages_to_df returns one row per pages_v2 item, or the empty DataFrame() |
| Facebook.StoryReactionsTabulates | packages/python/port/platforms/facebook.py:652-671 | story_reactions_to_df returns one row per stories_feedback_v2 item, or the empty DataFrame() |
| Facebook.PostsCheckInsTabulates | packages/python/port/platforms/facebook.py:674-693 | your_posts_check_ins_to_df returns one row per item of the file, or the empty DataFrame() |
| Facebook.TablesWith | packages/python/port/platforms/facebook.py:696-1020 | extraction builds one table per extractor, 26 in all |
| Facebook.OfferedIffNotEmpty | packages/python/port/platforms/facebook.py:1022 | table k carries the k-th id and the k-th extractor's frame, and is offered exactly when that frame is not empty |
| Facebook.UnboundTablesNeverOffered | packages/python/port/platforms/facebook.py:1022 | tables whose frames are empty are filtered out, and the watch-activity table is kept |
| Facebook.UnboundFramesEmpty | packages/python/port/platforms/facebook.py:696-1020 | the event responses, group posts, group comments, saved items and comments tables always have empty frames; the last-28-days table never does |
| Facebook.FiveTablesNeverOffered | packages/python/port/platforms/facebook.py:696-1022 | extraction never offers the five tables built from datapoints_sorted, and always offers the last-28-days table |
| Facebook.FacebookPlatform | packages/python/port/platforms/facebook.py:1025-1033 | a file that does not open as a zip gets status 1 |
| Facebook.RecognisedZipShowsTables | packages/python/port/platforms/facebook.py:1025-1038 | after a recognised archive is chosen, the flow asks for the file and then shows the review of exactly the non-empty tables |
| Validate.OneCategoryThreshold | packages/python/port/helpers/validate.py:125-142 | with one category, an archive is recognised exactly when 20 × its hits reach the number of known files |
| Records.InsertByDate | packages/python/port/helpers/extraction_helpers.py:257-281 | inserting a datapoint adds exactly that datapoint to the rows |
| Records.SortByDate | packages/python/port/platforms/instagram.py:94 | sorting keeps exactly the same datapoints |
| Records.InsertByDateSorted | packages/python/port/helpers/extraction_helpers.py:257-281 | inserting into rows in ascending key order keeps them in ascending key order |
| Records.SortByDateSorted | packages/python/port/platforms/instagram.py:94 | the sorted rows are in ascending key order |
| Records.SortedFrameSorts | packages/python/port/platforms/instagram.py:93-94 | a sorted frame has the columns and datapoints of the unsorted one, in ascending key order, and is empty exactly when that one is |
| Records.SortedNewestFirst | packages/python/port/helpers/extraction_helpers.py:257-281 | in a sorted table an unparseable or empty date is followed only by such dates, and parseable dates run newest first |
| Records.TablesOf | packages/python/port/platforms/instagram.py:343-539 | extraction builds one table per extractor, in order |
| Records.TableOffered | packages/python/port/platforms/instagram.py:541 | table k carries the k-th id, title and frame, and survives the filter exactly when its frame is not empty |
| ZipFlow.ZipPlatform | packages/python/port/platforms/instagram.py:544-552 | validate_file gives status 1 for a file that is not a zip, and extract_data of a recognised file is extraction of its archive |
| ZipFlow.OneCategoryReviewed | packages/python/port/platforms/flow_builder.py:50-90 | with a one-category catalog, a chosen archive with enough hits is followed by the review of its extracted tables |
| Instagram.InstagramNeedsTwoHits | packages/python/port/platforms/instagram.py:27-67 | with 32 known files, an archive is recognised exactly when two of its base names are known files |
| Instagram.TimeOrTijd | packages/python/port/platforms/instagram.py:84-87 | the timestamp comes from Time when data has that key and from Tijd otherwise, "" when the entry lacks one |
| Instagram.ValueTimeRow | packages/python/port/platforms/instagram.py:79-90 | a string_map_data datapoint needs a dict record, has two cells, and its date is the converted Time-or-Tijd timestamp |
| Instagram.TimePreferredOverTijd | packages/python/port/platforms/instagram.py:84-85 | a Time entry decides the date whatever Tijd holds |
| Instagram.AccountNameIsTuple | packages/python/port/platforms/instagram.py:83 | the account name cell is the one-element tuple of the Username value |
| Instagram.ListDataRow | packages/python/port/platforms/instagram.py:175-181 | only string_list_data is denested, None when missing, and the datapoint exists exactly for a dict record |
| Instagram.LikedRow | packages/python/port/platforms/instagram.py:303-308 | a liked datapoint has four cells, the third being the list of all href values |
| Instagram.LikedLinksAreAllHrefs | packages/python/port/platforms/instagram.py:308 | the Link cell holds every value find_items returns for href, in order |
| Instagram.PostsViewedTabulates | packages/python/port/platforms/instagram.py:133-161 | posts_viewed_to_df holds one datapoint per record or the empty DataFrame(), sorted on the date |
| Instagram.VideosWatchedTabulates | packages/python/port/platforms/instagram.py:192-220 | videos_watched_to_df holds one datapoint per record or the empty DataFrame(), sorted on the date |
| Instagram.AccountsNotInterestedInTabulates | packages/python/port/platforms/instagram.py:71-99 | accounts_not_interested_in_to_df holds one datapoint per record or the empty DataFrame(), sorted on the date |
| Instagram.AdsViewedTabulates | packages/python/port/platforms/instagram.py:102-130 | ads_viewed_to_df holds one datapoint per record or the empty DataFrame(), sorted on the date |
| Instagram.PostsNotInterestedInTabulates | packages/python/port/platforms/instagram.py:165-188 | posts_not_interested_in_to_df holds one datapoint per record or the empty DataFrame(), sorted on the date |
| Instagram.FollowingTabulates | packages/python/port/platforms/instagram.py:266-289 | following_to_df holds one datapoint per record or the empty DataFrame(), sorted on the date |
| Instagram.LikedCommentsTabulates | packages/python/port/platforms/instagram.py:293-317 | liked_comments_to_df holds one datapoint per record or the empty DataFrame(), sorted on the date |
| Instagram.LikedPostsTabulates | packages/python/port/platforms/instagram.py:320-344 | liked_posts_to_df holds one datapoint per record or the empty DataFrame(), sorted on the date |
| Instagram.CommentRow | packages/python/port/platforms/instagram.py:241-251 | a comment datapoint needs a dict record, has three cells, and its date is the converted Time-or-Tijd timestamp |
| Instagram.PostCommentsToDf | packages/python/port/platforms/instagram.py:223-262 | post_comments_to_df reads post_comments_1.json, _2, … until a file decodes to an empty value, and returns the empty DataFrame() when a file's loop raises |
| Instagram.RaisingCommentFileEmptiesTable | packages/python/port/platforms/instagram.py:254-256 | a raising file reached through non-empty files discards every comment |
| Instagram.OneCommentsFile | packages/python/port/platforms/instagram.py:232-262 | one file followed by an empty one gives one row per comment in file order, unsorted |
| Instagram.InstagramTables | packages/python/port/platforms/instagram.py:343-539 | extraction builds nine tables |
| Instagram.InstagramOffered | packages/python/port/platforms/instagram.py:541 | table k has the k-th id and is offered exactly when its frame is not empty |
| Instagram.RecognisedZipShowsTables | packages/python/port/platforms/instagram.py:544-557 | after an archive with two known base names is chosen, the flow shows the review of exactly the non-empty tables |
| Strings.LinesConcat | packages/python/port/platforms/x.py:56 | readlines splits a text into lines that join back to the text, the first being its first line |
| Strings.LinesShape | packages/python/port/platforms/x.py:56 | every line is non-empty, holds no newline before its end, and all but the last end in a newline |
| X.XNeedsFiveHits | packages/python/port/platforms/x.py:32-40 | with 86 known files, an archive is recognised exactly when five of its base names are known files |
| X.BytesioToListdict | packages/python/port/platforms/x.py:44-73 | bytesio_to_listdict returns the parse of the lines with the first one stripped, and [] when decoding fails, there is no line or the parse fails |
| X.FirstAssignmentStripped | packages/python/port/platforms/x.py:59 | a first line "name = json" loses exactly the prefix up to its first " = ", so the parser sees the text after it |
| X.FirstLineWithoutAssignment | packages/python/port/platforms/x.py:59 | when the first line holds no " = " the text is parsed unchanged, whatever later lines hold |
| X.ListDictOutcomes | packages/python/port/platforms/x.py:62-73 | anything but [] comes from a decoded, non-empty text that parsed, and such a text gives its parse |
| X.AssignmentParsed | packages/python/port/platforms/x.py:56-62 | a member "name = json" decodes to the JSON on the right of the assignment |
| X.TweetsTargetNeedsSlash | packages/python/port/platforms/x.py:202 | the target /tweets.js matches data/tweets.js but neither deleted-tweets.js nor a root-level tweets.js |
| X.MuteTargetMatchesDirectMessageMute | packages/python/port/platforms/x.py:251 | the target mute.js also matches direct-message-mute.js, and whichever member comes first in the archive is read |
| X.Interests | packages/python/port/platforms/x.py:107 | the interests list is reached through items[0], p13nData, interests and interests, and fails when a level is missing |
| X.MissingInterestsEmpty | packages/python/port/platforms/x.py:106-119 | a missing level on the path to the interests leaves the empty DataFrame() |
| X.UserLinkRow | packages/python/port/platforms/x.py:134-137 | a follower, following, block or mute datapoint is the single userLink value, and it raises unless the item and its entry take .get |
| X.UserLinksTabulate | packages/python/port/platforms/x.py:122-262 | the four link extractors hold one link per item in order, or the empty DataFrame() when an item raises or the member is not iterable |
| X.LikeRow | packages/python/port/platforms/x.py:179-184 | a like datapoint is the tweet id and the text, None when missing |
| X.StatusLinks | packages/python/port/platforms/x.py:187 | the status prefix is put before every tweet id when all ids are strings; otherwise the addition raises and the frame keeps its bare ids |
| X.LikedTweetsAreLinks | packages/python/port/platforms/x.py:169-191 | liked tweets with string ids become status links, one row per like in order, with their text |
| X.TweetRow | packages/python/port/platforms/x.py:205-211 | a tweet datapoint has three cells, the third being str of the retweeted flag ("" when missing) |
| X.RetweetedShownAsText | packages/python/port/platforms/x.py:210 | the retweeted flag shows as "True", "False", or "" when the tweet lacks it |
| X.FoundRowsTabulate | packages/python/port/platforms/x.py:75-310 | ad engagements, personalization, tweets, tweet headers and link clicks hold one datapoint per item in order, or the empty DataFrame() |
| X.XTables | packages/python/port/platforms/x.py:313-458 | extraction builds ten tables |
| X.XOffered | packages/python/port/platforms/x.py:460 | table k has the k-th id and is offered exactly when its frame is not empty |
| X.RecognisedZipShowsTables | packages/python/port/platforms/x.py:464-477 | after an archive with five known base names is chosen, the flow shows the review of exactly the non-empty tables |
| TikTok.TikTokNeedsThreeHits | packages/python/port/platforms/tiktok.py:28-77 | with 41 known files, an archive is recognised exactly when three of its base names are known files |
| TikTok.CaptureSpec | packages/python/port/platforms/tiktok.py:91 | a line is captured exactly when it starts with one of the keys, and the cell is the rest of the line after the first such key |
| TikTok.CapturesSpec | packages/python/port/platforms/tiktok.py:91 | a multi-line pattern matches at a line exactly when the next lines each start with their key, and the cells are the rests of those lines |
| TikTok.ScanFindsEveryRecord | packages/python/port/platforms/tiktok.py:92 | for a pattern whose keys do not overlap, findall's scan, which resumes after each match, finds a record at every line where the pattern matches |
| TikTok.StartsMember | packages/python/port/platforms/tiktok.py:92 | a record is found exactly when the pattern matches at some line with those cells |
| TikTok.DateLinkCaptures | packages/python/port/platforms/tiktok.py:91 | a watched video is a Date line directly followed by a Link line, and its cells are the rests of both lines |
| TikTok.HashTagLinkEitherSpelling | packages/python/port/platforms/tiktok.py:110 | the hashtag line may read "HashTag Link: " or "HashTag Link:: ", and the cell is the rest after either spelling |
| TikTok.ShareRecordCaptures | packages/python/port/platforms/tiktok.py:245 | a shared video needs four consecutive lines starting Date, Shared Content, Link and Method |
| TikTok.PatternsUnambiguous | packages/python/port/platforms/tiktok.py:91-245 | the keys of each record pattern do not overlap, so the scan finds every record |
| TikTok.LineRecordsTabulate | packages/python/port/platforms/tiktok.py:82-98 | a line-record table has one row per line where its pattern matches, in order, with the given columns, and is empty when the text does not decode |
| TikTok.FollowersPerDateLine | packages/python/port/platforms/tiktok.py:139-155 | the follower table has a row for exactly the lines that start with "Date: " |
| TikTok.FirstKeyed | packages/python/port/platforms/tiktok.py:264-265 | re.search finds the first line that starts with the key, and no line when none does |
| TikTok.SettingsToDf | packages/python/port/platforms/tiktok.py:255-273 | settings_to_df is empty when the settings file does not decode |
| TikTok.SettingsAreInterests | packages/python/port/platforms/tiktok.py:264-268 | the interests are the parts of the first Interests line split on the bar character, and join back to the rest of that line; without such a line the table is empty |
| TikTok.TikTokTables | packages/python/port/platforms/tiktok.py:276-382 | extraction builds eight tables, without the follower and following tables |
| TikTok.TikTokOffered | packages/python/port/platforms/tiktok.py:384 | table k has the k-th id and is offered exactly when its frame is not empty |
| TikTok.RecognisedZipShowsTables | packages/python/port/platforms/tiktok.py:388-400 | after an archive with three known base names is chosen, the flow shows the review of exactly the non-empty tables |
| CsvFrames.AddColumnsSpec | packages/python/port/helpers/extraction_helpers.py:562 | adding a dict's keys keeps the existing columns in front, adds exactly the new keys and never repeats a column |
| CsvFrames.ColumnsSpec | packages/python/port/helpers/extraction_helpers.py:562 | the columns of a list of dicts are distinct and are exactly the keys that occur in some dict |
| CsvFrames.SharedKeysAreColumns | packages/python/port/helpers/extraction_helpers.py:562 | when every dict has the same distinct keys, as the rows of a DictReader do, the columns are those keys in their order |
| CsvFrames.CsvFrame | packages/python/port/helpers/extraction_helpers.py:562 | one row per dict, each with one cell per column |
| CsvFrames.CsvFrameSpec | packages/python/port/helpers/extraction_helpers.py:562 | every key of a dict is a column, and a cell holds the dict's value for its column or NaN when the dict lacks it |
| CsvFrames.CsvFrameEmpty | packages/python/port/helpers/extraction_helpers.py:543-562 | the frame of the CSV rows is empty exactly when no row has a field |
| LinkedIn.LinkedInNeedsTwoHits | packages/python/port/platforms/linkedin.py:26-56 | with 22 known files, an archive is recognised exactly when two of its base names are known files |
| LinkedIn.BlankFrom | packages/python/port/platforms/linkedin.py:64 | finds the first position where two newlines start, and no position when there is none |
| LinkedIn.StripNotesSpec | packages/python/port/platforms/linkedin.py:58-69 | strip_notes keeps a suffix of its input: all of it when there is no blank line, otherwise exactly what follows the first "\n\n" |
| LinkedIn.NotesStripped | packages/python/port/platforms/linkedin.py:64-65 | a block of notes ended by a blank line is removed, and the CSV after it is kept byte for byte |
| LinkedIn.StrippedFilesSkipNotes | packages/python/port/platforms/linkedin.py:84-105 | the connections and member follows files are read from after their notes |
| LinkedIn.LinkedInTables | packages/python/port/platforms/linkedin.py:163-272 | extraction builds six tables |
| LinkedIn.LinkedInOffered | packages/python/port/platforms/linkedin.py:163-274 | table k has the k-th id, reads its member whole, and is offered exactly when the CSV reader yields a row with a field |
| LinkedIn.ConnectionsNeverShown | packages/python/port/platforms/linkedin.py:163-274 | every offered table is one of the six, so connections and member follows never reach the consent form |
| LinkedIn.RecognisedZipShowsTables | packages/python/port/platforms/linkedin.py:277-290 | after an archive with two known base names is chosen, the flow shows the review of exactly the non-empty tables |
| Netflix.NetflixNeedsTwoHits | packages/python/port/platforms/netflix.py:25-32 | with the 25 known files of the one category, an archive is recognised exactly when two of its base names are known |
| Netflix.StrLeOrders | packages/python/port/platforms/netflix.py:45 | the order list.sort uses on the profile names is total and transitive |
| Netflix.UsersSpec | packages/python/port/platforms/netflix.py:34-49 | the users are sorted, each listed once, and are exactly the names in the first column of ViewingActivity.csv; no first column gives no users |
| Netflix.UsersSortedDistinct | packages/python/port/platforms/netflix.py:44-45 | the unique names, sorted, are in order, each once, and are exactly the names found |
| Netflix.ProfileNamesSpec | packages/python/port/platforms/netflix.py:44 | the names found are those that start a row with a string, and none when the frame has no columns |
| Netflix.KeepUserSpec | packages/python/port/platforms/netflix.py:52-62 | keep_user keeps the columns and exactly the rows whose first cell is the selected name; without a first column the frame comes back unchanged |
| Netflix.KeepUserIdempotent | packages/python/port/platforms/netflix.py:52-62 | keeping the same profile a second time changes nothing |
| Netflix.Position | packages/python/port/platforms/netflix.py:95 | the first position of a column name, and none exactly when the name is no column |
| Netflix.Positions | packages/python/port/platforms/netflix.py:95 | df[columns] finds every asked column at a position holding that name, and raises KeyError exactly when one of them is missing |
| Netflix.SelectSpec | packages/python/port/platforms/netflix.py:95 | the selected frame has the asked columns in the asked order and, row by row, the cells found at their positions |
| Netflix.Rename | packages/python/port/platforms/netflix.py:96 | renaming keeps the rows and gives each column the name the mapping assigns it |
| Netflix.RatingsRenamed | packages/python/port/platforms/netflix.py:83-88 | the three kept rating columns are renamed Titel, Aantal duimpjes omhoog and Datum en tijd |
| Netflix.RatingsSpec | packages/python/port/platforms/netflix.py:77-100 | a profile's ratings keep title, thumbs value and time, renamed, row by row; an empty frame or a missing column leaves the profile's rows as they were |
| Netflix.MilliHoursNearest | packages/python/port/platforms/netflix.py:114-118 | seconds converted to hours and rounded to three decimals lie within half a thousandth of an hour of the exact value |
| Netflix.WholeHours | packages/python/port/platforms/netflix.py:110-118 | a whole number of hours converts exactly |
| Netflix.TimeStringToHours | packages/python/port/platforms/netflix.py:104-118 | the result is a number of hours or, when the conversion fails, the integer 0 |
| Netflix.DurationHours | packages/python/port/platforms/netflix.py:104-118 | a duration written as hours, minutes and seconds separated by colons reads back as that many hours |
| Netflix.StartOrders | packages/python/port/platforms/netflix.py:145 | ordering rows by their start time, NaN last, is total and transitive |
| Netflix.SortOnSpec | packages/python/port/platforms/netflix.py:145 | sort_values keeps the columns and the rows and puts the rows in ascending start-time order |
| Netflix.ViewingRenamed | packages/python/port/platforms/netflix.py:128-133 | the four kept viewing columns are renamed Start tijd, Aantal uur gekeken, Titel and Aanvullend informatie |
| Netflix.ViewingKept | packages/python/port/platforms/netflix.py:140-141 | after the selection and the filter, the rows are exactly the profile's rows that are no trailer, teaser, hook or cinemagraph, cut to the four columns |
| Netflix.HoursOfKept | packages/python/port/platforms/netflix.py:144 | the duration column of each kept row is replaced by its hours |
| Netflix.ViewingSteps | packages/python/port/platforms/netflix.py:138-145 | after the selection the frame goes through the filter, the renaming, the hours and the sort in that order |
| Netflix.ViewingSpec | packages/python/port/platforms/netflix.py:121-149 | the viewing table has the four renamed columns, is sorted by start time and holds exactly the watched rows of the profile's non-promotional viewing, with hours for the duration |
| Netflix.ViewingMissingColumn | packages/python/port/platforms/netflix.py:138-148 | a missing column ends the try block with the profile's rows as they were |
| Netflix.NetflixExtraction | packages/python/port/platforms/netflix.py:153-225 | extraction offers exactly the ratings and viewing tables that are not empty |
| Netflix.ExtractData | packages/python/port/platforms/netflix.py:235-252 | no user gives None, one user its tables directly, and several users a radio prompt listing them whose answer selects the profile |
| Netflix.PlatformHooks | packages/python/port/platforms/netflix.py:228-235 | the flow validates the archive against the catalog and extracts from the opened archive |
| Netflix.OneProfileShowsTables | packages/python/port/platforms/netflix.py:239-241 | a recognised archive with one profile goes straight to the review of that profile's tables |
| Netflix.SeveralProfilesAsk | packages/python/port/platforms/netflix.py:242-252 | with several profiles the flow asks which one after the file prompt, then reviews the chosen profile's tables |
| Netflix.NoProfileSkipsConsent | packages/python/port/platforms/netflix.py:235-252 | an archive without profiles ends the flow without a consent form |
| Strings.ParseNatToString | packages/python/port/platforms/netflix.py:107 | int() reads back the decimal digits str writes for a natural number |
| Strings.ParseIntToString | packages/python/port/platforms/netflix.py:107 | int() reads back what str writes for any integer, sign included |
| Strings.StrLeTotal | packages/python/port/platforms/netflix.py:45 | any two strings are ordered one way or the other |
| Strings.StrLeTransitive | packages/python/port/platforms/netflix.py:45 | the string order is transitive |
| Strings.StrLeAntisymmetric | packages/python/port/platforms/netflix.py:45 | two strings ordered both ways are equal |
| Sorting.SortBySorted | packages/python/port/platforms/netflix.py:45 | sorting yields its input rearranged in ascending order |
| Sorting.UniqueSpec | packages/python/port/platforms/netflix.py:44 | unique() lists every value of the column exactly once |
| Sorting.SortByStable | packages/data-collector/src/components/consent_form_viz/visualization_plugin/visualizationDataFunctions/prepareTextData.ts:61-61 | the sort is stable: the entries equivalent to any given one come out in their input order |
| Sorting.SortKeepsDistinct | packages/python/port/platforms/netflix.py:44-45 | sorting values that are each listed once keeps them each listed once |
| FlowBuilder.RaisingEndsFlow | packages/python/port/platforms/flow_builder.py:62-66 | an exception out of extract_data after a valid file ends the generator with only the file prompt rendered and nothing donated |
| FlowBuilder.OnePromptShowsTables | packages/python/port/platforms/flow_builder.py:66-68 | an extraction that yields one page and returns tables for its answer renders the file prompt, that page, then the consent form for those tables |
| YouTube.YouTubeCatalog | packages/python/port/platforms/youtube.py:24-45 | the two categories are looked up under json_en and json_nl, in that order, and both can be scored |
| YouTube.YouTubeInferredIff | packages/python/port/platforms/youtube.py:24-45 | with three known files per category a category is inferred exactly when some base name is one of the six known files |
| YouTube.YouTubeValidIffKnownFile | packages/python/port/platforms/youtube.py:198-199 | validate_zip reports 0 exactly when a member's base name is a known file of either language |
| YouTube.YouTubeStatus | packages/python/port/platforms/youtube.py:198-199 | the status is 0 or 1, 1 for a bad zip, and 0 exactly when a known base name is present |
| YouTube.SubscriptionsAloneRefused | packages/python/port/platforms/youtube.py:39-43 | because the catalog lists subscriptions.cs, an archive whose members are all subscriptions.csv is refused |
| YouTube.LanguageOf | packages/python/port/platforms/youtube.py:50 | the language lookup raises exactly when no category is current, and otherwise yields its language |
| YouTube.LoadTarget | packages/python/port/platforms/youtube.py:50-59 | the chosen member read and decoded, or the empty dict when the language chooses none |
| YouTube.WatchHistoryToDf | packages/python/port/platforms/youtube.py:48-77 | raises when the language lookup does; otherwise one (title, titleUrl, time) row per item of the chosen member, or the empty DataFrame() when an item raises |
| YouTube.SearchHistoryToDf | packages/python/port/platforms/youtube.py:80-108 | raises when the language lookup does; otherwise one (title, time) row per item of the chosen member, or the empty DataFrame() when an item raises |
| YouTube.LanguageChoosesFiles | packages/python/port/platforms/youtube.py:50-122 | NL reads kijkgeschiedenis.json, zoekgeschiedenis.json and abonnementen.csv; EN reads watch-history.json, search-history.json and subscriptions.csv; any other language gives empty watch and search tables and the file named "" |
| YouTube.WatchRows | packages/python/port/platforms/youtube.py:64-72 | a list of dicts gives one row per item holding its title, titleUrl and time with "" defaults; an item that is not a dict gives the empty DataFrame() |
| YouTube.SearchRows | packages/python/port/platforms/youtube.py:96-103 | a list of dicts gives one row per item holding its title and time with "" defaults; an item that is not a dict gives the empty DataFrame() |
| YouTube.YouTubeExtractionSpec | packages/python/port/platforms/youtube.py:129-191 | extraction raises exactly when no category is current, and otherwise offers exactly the non-empty ones of its three tables |
| YouTube.ExtractData | packages/python/port/platforms/youtube.py:201-202 | extract_data runs extraction on the category the validation holds as current |
| YouTube.ValidateThenExtract | packages/python/port/helpers/validate.py:134 | validate_zip never sets current_ddp_category, so the extraction that follows it raises whatever the archive holds |
| YouTube.AsExtraction | packages/python/port/platforms/flow_builder.py:62-66 | an extraction that raises reaches the flow as an exception, one that returns as its tables |
| YouTube.YouTubePlatform | packages/python/port/platforms/youtube.py:194-202 | a file that is not a zip is refused, and extract_data always raises |
| YouTube.BadZipAsksRetry | packages/python/port/platforms/flow_builder.py:73-76 | a file that is not a zip gets the retry prompt |
| YouTube.RecognisedZipEndsFlow | packages/python/port/platforms/youtube.py:194-202 | a recognised archive ends the flow after the file prompt, without consent form or donation |
| WhatsAppParse.WordRun | packages/python/port/platforms/whatsapp.py:84 | the length of the longest prefix of word characters: every character before it is one, and the next is not |
| WhatsAppParse.Codes | packages/python/port/platforms/whatsapp.py:84 | every code found is non-empty and starts with "%" |
| WhatsAppParse.GenerateRegexes | packages/python/port/platforms/whatsapp.py:79-97 | one regex per simplified regex, in order, each being that regex with its codes substituted in the order found |
| WhatsAppParse.CodesOfPlain | packages/python/port/platforms/whatsapp.py:84 | a text without "%" has no codes |
| WhatsAppParse.PlainRegexUnchanged | packages/python/port/platforms/whatsapp.py:84-97 | a simplified regex without "%" is its own regex |
| WhatsAppParse.UnknownCodesSkipped | packages/python/port/platforms/whatsapp.py:86-90 | codes absent from REGEX_CODES leave the text as it was (the KeyError is logged and skipped) |
| WhatsAppParse.UnknownCodesKept | packages/python/port/platforms/whatsapp.py:84-97 | a regex whose codes are all unknown comes out unchanged |
| WhatsAppParse.CodesSkipPlain | packages/python/port/platforms/whatsapp.py:84 | text without "%" before a suffix adds no codes |
| WhatsAppParse.WordRunOfWord | packages/python/port/platforms/whatsapp.py:84 | the run of a word followed by a non-word character is the word |
| WhatsAppParse.ReplaceAllSkip | packages/python/port/platforms/whatsapp.py:88 | str.replace leaves a prefix alone when the pattern's first character is not in it |
| WhatsAppParse.CodeThenPlain | packages/python/port/platforms/whatsapp.py:84 | a code followed by text without "%" is the one code found |
| WhatsAppParse.CodesOfOneCode | packages/python/port/platforms/whatsapp.py:84 | plain text around one code yields exactly that code |
| WhatsAppParse.CodesOfCode | packages/python/port/platforms/whatsapp.py:84 | "%" and a word, followed by text without "%" that does not continue the word, yield exactly that code |
| WhatsAppParse.ReplaceOneCode | packages/python/port/platforms/whatsapp.py:88 | replacing the one occurrence of a code puts its expansion in its place |
| WhatsAppParse.OneCodeReplaced | packages/python/port/platforms/whatsapp.py:84-97 | a known code in plain text is replaced by its REGEX_CODES expansion and the rest is kept |
| WhatsAppParse.FirstMatchFrom | packages/python/port/platforms/whatsapp.py:203-206 | the first regex from a position on that matches the line, with none matching before it, or none at all |
| WhatsAppParse.EarliestMatchFrom | packages/python/port/platforms/whatsapp.py:202-206 | the first line from a position on that some regex matches, with no earlier such line |
| WhatsAppParse.DetermineRegexSpec | packages/python/port/platforms/whatsapp.py:197-214 | Failure exactly when no regex matches any line; otherwise the first regex in list order that matches the earliest matching line |
| WhatsAppParse.DetermineRegexFromChat | packages/python/port/platforms/whatsapp.py:197-214 | the nested loops with their early return give the regex DetermineRegex chooses, or the raised error |
| WhatsAppParse.NoNewlineLeft | packages/python/port/platforms/whatsapp.py:227 | replacing every "\n" by a space leaves no newline |
| WhatsAppParse.JoinedHasNoNewline | packages/python/port/platforms/whatsapp.py:217-229 | a continuation-joined message has no newline |
| WhatsAppParse.CountMatching | packages/python/port/platforms/whatsapp.py:267-281 | the number of lines the regex matches is at most the number of lines |
| WhatsAppParse.ChatsCount | packages/python/port/platforms/whatsapp.py:262-286 | the parser emits one message per line after the first that the regex matches, plus one |
| WhatsAppParse.ContinuationJoined | packages/python/port/platforms/whatsapp.py:217-229 | lines that do not match are appended to the message, each after a space, and the next matching line starts a new message |
| WhatsAppParse.TrailingContinuationDropped | packages/python/port/platforms/whatsapp.py:271-286 | when the input ends while continuation lines are collected, only the message's first line is emitted |
| WhatsAppParse.CreateDatapoint | packages/python/port/platforms/whatsapp.py:128-145 | the empty datapoint when the regex does not match, otherwise the name and message groups or "" |
| WhatsAppParse.DatapointsOf | packages/python/port/platforms/whatsapp.py:278-279 | one datapoint per message, in order |
| WhatsAppParse.ParseLinesSpec | packages/python/port/platforms/whatsapp.py:252-292 | datapoints exist exactly when there are two lines or more and some regex matches a line, and then one per matching later line plus one |
| WhatsAppParse.DatapointsSnoc | packages/python/port/platforms/whatsapp.py:278-279 | one more message appends its datapoint |
| WhatsAppParse.ParseChatLines | packages/python/port/platforms/whatsapp.py:252-292 | the pop-driven loops with their IndexError exit produce the datapoints of ParseLines |
| WhatsAppParse.JoinContinuations | packages/python/port/platforms/whatsapp.py:269-273 | the inner loop either runs out of lines, leaving the open message's first line as the last text, or closes the message and hands on the line that matched, with fewer lines left |
| WhatsAppParse.EmitDatapoints | packages/python/port/platforms/whatsapp.py:267-286 | the outer loop appends exactly the datapoints of the texts the chat yields, in order |
| WhatsAppParse.EmitLast | packages/python/port/platforms/whatsapp.py:283-286 | when a pop fails inside a message, the datapoint of its first line completes the output |
| WhatsAppParse.EmitPair | packages/python/port/platforms/whatsapp.py:275-286 | when the last line closes a message, that message's datapoint and then the last line's complete the output |
| WhatsAppParse.EmitStep | packages/python/port/platforms/whatsapp.py:275-279 | a closed message with lines left adds its datapoint and the loop goes on from the matching line |
| WhatsAppParse.ChatFrame | packages/python/port/platforms/whatsapp.py:292 | no columns for no datapoint, otherwise the three datapoint keys and one row per datapoint |
| WhatsApp.Where | packages/python/port/platforms/whatsapp.py:148-154 | the rows that pass the mask, and only those, with no row added |
| WhatsApp.RemoveEmptyChats | packages/python/port/platforms/whatsapp.py:148-154 | a row is kept exactly when its message is not empty |
| WhatsApp.KeepUsers | packages/python/port/platforms/whatsapp.py:187-194 | a row is kept exactly when its name is one of the users |
| WhatsApp.Names | packages/python/port/platforms/whatsapp.py:173 | the name column, row by row |
| WhatsApp.NamesMember | packages/python/port/platforms/whatsapp.py:173 | a name occurs in the column exactly when some row has it |
| WhatsApp.RealOf | packages/python/port/platforms/whatsapp.py:180-182 | exactly the entries that are not non-users, distinct when the entries are |
| WhatsApp.UsersSpec | packages/python/port/platforms/whatsapp.py:157-184 | the users are distinct, and a name is a user exactly when it occurs and no occurring name followed by a space starts it |
| WhatsApp.NonUserStep | packages/python/port/platforms/whatsapp.py:175-178 | testing one more detected name adds exactly the entries it starts with a space after it |
| WhatsApp.RealOfStep | packages/python/port/platforms/whatsapp.py:182 | one more detected name is kept exactly when it is not a non-user |
| WhatsApp.ExtractUsers | packages/python/port/platforms/whatsapp.py:157-184 | the nested loops and the set difference give exactly RealUsers |
| WhatsApp.KeptUsersStable | packages/python/port/platforms/whatsapp.py:482-487 | extract_users on the chat keep_users left finds the same users |
| WhatsApp.BestOf | packages/python/port/platforms/whatsapp.py:322 | a candidate with the largest count, with every earlier candidate strictly less frequent |
| WhatsApp.MostCommon | packages/python/port/platforms/whatsapp.py:322-325 | "" for no values, otherwise the most frequent value, the first seen among equally frequent ones |
| WhatsApp.FollowsSnoc | packages/python/port/platforms/whatsapp.py:317-319 | a row following a row is found in the earlier rows or is the last pair |
| WhatsApp.ReactedToYouSpec | packages/python/port/platforms/whatsapp.py:314-320 | a name reacted to the user exactly when it is not the user and one of its rows follows one of the user's |
| WhatsApp.YouReactedToSpec | packages/python/port/platforms/whatsapp.py:330-336 | the user reacted to a name exactly when it is not the user and one of the user's rows follows one of its |
| WhatsApp.WhoReactedToYouTheMost | packages/python/port/platforms/whatsapp.py:314-327 | the loop collects the repliers in order, and the result is their most common one |
| WhatsApp.WhoYouReactedToTheMost | packages/python/port/platforms/whatsapp.py:330-343 | the loop collects who the user replied to, in order, and the result is the most common one |
| WhatsApp.ReactionsSkipSelf | packages/python/port/platforms/whatsapp.py:318 | the user never appears as reacting to themselves |
| WhatsApp.AloneNoReactions | packages/python/port/platforms/whatsapp.py:314-343 | when the user writes every row, both statistics are "" |
| WhatsApp.MessagesOf | packages/python/port/platforms/whatsapp.py:347 | the user has as many messages as their name occurs in the name column |
| WhatsApp.TotalMessages | packages/python/port/platforms/whatsapp.py:346-348 | the number of the user's rows, at most the number of rows |
| WhatsApp.TotalNumberOfWords | packages/python/port/platforms/whatsapp.py:351-358 | the running sum equals the word total of the user's messages |
| WhatsApp.WordLengthBeforeSpace | packages/python/port/platforms/whatsapp.py:356 | a space ends a word run |
| WhatsApp.WordsSpaced | packages/python/port/platforms/whatsapp.py:356 | the words of two texts joined by a space are the words of the first followed by those of the second |
| WhatsApp.WordTotalIsJoinedWords | packages/python/port/platforms/whatsapp.py:351-358 | the word total is the number of whitespace-split words of all the user's messages joined by spaces |
| WhatsApp.FavoriteEmoji | packages/python/port/platforms/whatsapp.py:361-373 | "" or one of the emojis the user's messages contain |
| WhatsApp.UserStatistics | packages/python/port/platforms/whatsapp.py:376-384 | a non-empty two-column frame of five statistics, the third being the user's message count |
| WhatsApp.GroupChatFrame | packages/python/port/platforms/whatsapp.py:391 | the datapoint columns renamed Timestamp, Name and Message, one row per datapoint, empty exactly when there is none |
| WhatsApp.ChatTable | packages/python/port/platforms/whatsapp.py:389-391 | the chat table carries id whatsapp_grou_chat and the renamed frame |
| WhatsApp.UserTable | packages/python/port/platforms/whatsapp.py:453-466 | the table of user i is titled with the user's name and holds their statistics |
| WhatsApp.UserTables | packages/python/port/platforms/whatsapp.py:451-466 | one table per user, in the order of the users |
| WhatsApp.WhatsAppTables | packages/python/port/platforms/whatsapp.py:387-458 | the chat table first, the emoji table second, then one statistics table per user |
| WhatsApp.GroupChatOffered | packages/python/port/platforms/whatsapp.py:387-468 | the chat table is offered exactly when some row is left |
| WhatsApp.EveryUserReported | packages/python/port/platforms/whatsapp.py:451-468 | every user's statistics table is offered |
| WhatsApp.ValidateFile | packages/python/port/platforms/whatsapp.py:475-480 | status 0 exactly when parsing gave datapoints, and 1 otherwise |
| WhatsApp.ValidateFileSpec | packages/python/port/platforms/whatsapp.py:475-480 | a chat passes exactly when it can be read, has two lines or more, and some regex matches one of them |
| WhatsApp.ExtractData | packages/python/port/platforms/whatsapp.py:482-487 | extraction raises exactly when parsing gave no datapoint |
| WhatsApp.CleanChatSpec | packages/python/port/platforms/whatsapp.py:483-486 | the chat handed to extraction holds exactly the rows with a message whose name is a user |
| WhatsApp.ExtractDataFromLines | packages/python/port/platforms/whatsapp.py:482-487 | no tables exactly when the lines give no datapoint; otherwise the extraction of the cleaned chat |
| WhatsApp.WhatsAppPlatform | packages/python/port/platforms/whatsapp.py:471-487 | a file that passes validation always yields a table list directly |
| WhatsApp.ParsedChatShowsTables | packages/python/port/platforms/whatsapp.py:471-487 | a chat that parses leads from the file prompt to the review of its tables |
| WhatsApp.UnparsedChatAsksRetry | packages/python/port/platforms/whatsapp.py:475-480 | a chat that does not parse leads from the file prompt to the retry prompt |
| Translate.FirstDefined | packages/data-collector/src/components/consent_form_viz/visualization_plugin/translate.ts:7-7 | the ?? chain yields nothing exactly when no key in the chain is defined |
| Translate.FirstDefinedWitness | packages/data-collector/src/components/consent_form_viz/visualization_plugin/translate.ts:7-7 | a defined result is the text of a defined key every earlier key of which is missing |
| Translate.Translate | packages/data-collector/src/components/consent_form_viz/visualization_plugin/translate.ts:3-8 | a string label is returned unchanged; a record label gives the requested locale's text when that is defined |
| Translate.TranslateSpec | packages/data-collector/src/components/consent_form_viz/visualization_plugin/translate.ts:5-7 | with the locale missing the Dutch text is used, then the English, and with all three missing the "[missing translation]" marker |
| Translate.EmptyTranslationKept | packages/data-collector/src/components/consent_form_viz/visualization_plugin/translate.ts:7-7 | an empty text for the locale is returned as it is, since ?? skips only undefined entries |
| Translate.GetTranslations | packages/data-collector/src/components/consent_form_viz/visualization_plugin/translate.ts:10-16 | the result has the same keys in the same order, each mapped through translate |
| Translate.StoreTranslation | packages/data-collector/src/components/consent_form_viz/visualization_plugin/translate.ts:13-13 | storing the next entry's translation appends it after the earlier ones, since distinct keys make it new |
| Translate.GetTranslationsLookup | packages/data-collector/src/components/consent_form_viz/visualization_plugin/translate.ts:10-16 | looking a key up in the result gives the translation of that key's label, and a missing key stays missing |
| RechartsGraph.GetLineStyle | packages/data-collector/src/components/consent_form_viz/visualization_plugin/figures/recharts_graph.tsx:143-152 | every style takes its colour from the six colours and its dash from the four dash patterns |
| RechartsGraph.LineStyleOfIndex | packages/data-collector/src/components/consent_form_viz/visualization_plugin/figures/recharts_graph.tsx:147-151 | the colour is COLORS[index mod 6] and the dash DASHES[(index mod 24) div 6] |
| RechartsGraph.LineStylePeriodic | packages/data-collector/src/components/consent_form_viz/visualization_plugin/figures/recharts_graph.tsx:147-151 | styles repeat with period 24 |
| RechartsGraph.LineStylesDistinct | packages/data-collector/src/components/consent_form_viz/visualization_plugin/figures/recharts_graph.tsx:143-152 | the 24 indices of one period get 24 different styles |
| RechartsGraph.TickFormatter | packages/data-collector/src/components/consent_form_viz/visualization_plugin/figures/recharts_graph.tsx:165-168 | a formatter results exactly for the percent format |
| RechartsGraph.FormatTick | packages/data-collector/src/components/consent_form_viz/visualization_plugin/figures/recharts_graph.tsx:166-166 | the tick text is the value's decimal form followed by "%" |
| RechartsGraph.GetTickFormatter | packages/data-collector/src/components/consent_form_viz/visualization_plugin/figures/recharts_graph.tsx:154-163 | the percent formatter results iff there is at least one y key and every y key is percent |
| VizUtil.FindIndex | packages/data-collector/src/components/consent_form_viz/visualization_plugin/visualizationDataFunctions/util.ts:148-148 | findIndex gives the first position holding the name, and nothing exactly when no cell holds it |
| VizUtil.GetTableColumn | packages/data-collector/src/components/consent_form_viz/visualization_plugin/visualizationDataFunctions/util.ts:143-151 | the counting column gives "1" once per row; another column is an error exactly when no head cell carries its name, and otherwise gives one entry per row |
| VizUtil.GetTableColumnCells | packages/data-collector/src/components/consent_form_viz/visualization_plugin/visualizationDataFunctions/util.ts:148-150 | row k gives its cell under the first head cell with the column name, or undefined when the row is shorter |
| VizUtil.Tokenize | packages/data-collector/src/components/consent_form_viz/visualization_plugin/visualizationDataFunctions/util.ts:138-141 | every token is free of spaces and holds a letter |
| VizUtil.TokenizeMember | packages/data-collector/src/components/consent_form_viz/visualization_plugin/visualizationDataFunctions/util.ts:138-141 | a string is a token exactly when it is one of the space-separated parts and holds a letter |
| VizUtil.TokenizeKeepsLetteredText | packages/data-collector/src/components/consent_form_viz/visualization_plugin/visualizationDataFunctions/util.ts:138-141 | when every part holds a letter, joining the tokens with single spaces gives the text back |
| VizUtil.Domain | packages/data-collector/src/components/consent_form_viz/visualization_plugin/visualizationDataFunctions/util.ts:128-136 | an empty list has no domain; otherwise the pair is a member of the list at least as small, and a member at least as large, as every element |
| VizUtil.GetDomain | packages/data-collector/src/components/consent_form_viz/visualization_plugin/visualizationDataFunctions/util.ts:128-136 | the one-pass minimum and maximum equal the domain |
| VizUtil.AutoFormatDate | packages/data-collector/src/components/consent_form_viz/visualization_plugin/visualizationDataFunctions/util.ts:84-94 | the choice is one of hour, day, month, quarter and year, and hour for an empty list |
| VizUtil.AutoFormatDateThresholds | packages/data-collector/src/components/consent_form_viz/visualization_plugin/visualizationDataFunctions/util.ts:87-91 | for a non-negative minValues the format is the longest granularity whose threshold the span exceeds: minValues days, 30, 90 or 365 times that |
| VizUtil.StripPrefix | packages/data-collector/src/components/consent_form_viz/visualization_plugin/visualizationDataFunctions/util.ts:163-163 | a leading occurrence of the prefix is removed, and a string without it is unchanged |
| VizUtil.ExtractUrlDomain | packages/data-collector/src/components/consent_form_viz/visualization_plugin/visualizationDataFunctions/util.ts:159-168 | a string that is not a URL is returned with JavaScript trim() applied (Unicode white space and line terminators included); the result is never longer than the host name or the input |
| VizUtil.ExtractUrlDomainPrefixes | packages/data-collector/src/components/consent_form_viz/visualization_plugin/visualizationDataFunctions/util.ts:159-168 | a host name made of an optional "www.", an optional "m." and the rest yields the rest with JavaScript trim() applied, each prefix stripped when present |
| TextData.TokensOf | packages/data-collector/src/components/consent_form_viz/visualization_plugin/visualizationDataFunctions/prepareTextData.ts:36-40 | without tokenizing a text is its own single token |
| TextData.Weight | packages/data-collector/src/components/consent_form_viz/visualization_plugin/visualizationDataFunctions/prepareTextData.ts:47-47 | without a value column every occurrence weighs 1 |
| TextData.Store | packages/data-collector/src/components/consent_form_viz/visualization_plugin/visualizationDataFunctions/prepareTextData.ts:41-41 | assigning a key gives it the new entry, a new key joining the end of the key order |
| TextData.Bump | packages/data-collector/src/components/consent_form_viz/visualization_plugin/visualizationDataFunctions/prepareTextData.ts:42-48 | one more occurrence adds the weight to the value and one to the document frequency when first seen in the text |
| TextData.Occurrences | packages/data-collector/src/components/consent_form_viz/visualization_plugin/visualizationDataFunctions/prepareTextData.ts:39-49 | the count never exceeds the number of tokens and is zero exactly when the token is absent |
| TextData.DocCount | packages/data-collector/src/components/consent_form_viz/visualization_plugin/visualizationDataFunctions/prepareTextData.ts:33-50 | a token's document count never exceeds the number of texts |
| TextData.TimesIsProduct | packages/data-collector/src/components/consent_form_viz/visualization_plugin/visualizationDataFunctions/prepareTextData.ts:47-48 | adding the weight once per occurrence is the occurrences times the weight |
| TextData.TokenStepEffect | packages/data-collector/src/components/consent_form_viz/visualization_plugin/visualizationDataFunctions/prepareTextData.ts:39-49 | one token step changes only that token's entry |
| TextData.AddTokensEffect | packages/data-collector/src/components/consent_form_viz/visualization_plugin/visualizationDataFunctions/prepareTextData.ts:38-49 | one text adds its occurrences of a token times the weight to the token's value and at most one to its document frequency, and creates the entry exactly when the token occurs |
| TextData.VocabularyStats | packages/data-collector/src/components/consent_form_viz/visualization_plugin/visualizationDataFunctions/prepareTextData.ts:26-52 | a token's entry holds the weighted occurrence sum over all texts and the number of non-null texts containing it, and exists exactly when some text contains it |
| TextData.VocabularyValid | packages/data-collector/src/components/consent_form_viz/visualization_plugin/visualizationDataFunctions/prepareTextData.ts:26-52 | every token with an entry appears exactly once in the key order |
| TextData.GetVocabulary | packages/data-collector/src/components/consent_form_viz/visualization_plugin/visualizationDataFunctions/prepareTextData.ts:26-52 | the loop over texts builds the vocabulary the fold describes |
| TextData.AddText | packages/data-collector/src/components/consent_form_viz/visualization_plugin/visualizationDataFunctions/prepareTextData.ts:38-49 | the loop over one text's tokens, with its per-text seen set, folds the tokens in order |
| TextData.Scored | packages/data-collector/src/components/consent_form_viz/visualization_plugin/visualizationDataFunctions/prepareTextData.ts:55-60 | one scored term per key, in key order, carrying the key and its summed value |
| TextData.TopTerms | packages/data-collector/src/components/consent_form_viz/visualization_plugin/visualizationDataFunctions/prepareTextData.ts:54-63 | the terms are ordered by decreasing importance, there are min(n, key count) of them, and each is a scored entry |
| TextData.TopTermsMostImportant | packages/data-collector/src/components/consent_form_viz/visualization_plugin/visualizationDataFunctions/prepareTextData.ts:54-63 | the kept and the dropped terms together are the scored entries; every kept term is at least as important as every dropped one; nothing is dropped when there are at most n keys |
| TextData.TopTermsTiesInKeyOrder | packages/data-collector/src/components/consent_form_viz/visualization_plugin/visualizationDataFunctions/prepareTextData.ts:61-62 | the sort is stable, so among equally important terms the ones kept are the first in key order |
| TextData.TopTermsDistinct | packages/data-collector/src/components/consent_form_viz/visualization_plugin/visualizationDataFunctions/prepareTextData.ts:54-63 | no term is kept twice |
| TextData.TopTermsTieExample | packages/data-collector/src/components/consent_form_viz/visualization_plugin/visualizationDataFunctions/prepareTextData.ts:61-62 | two equally important keys "a" and "b" with a cut of one keep "a" |
| TextData.PrepareTextData | packages/data-collector/src/components/consent_form_viz/visualization_plugin/visualizationDataFunctions/prepareTextData.ts:9-24 | a table without rows gives no terms; otherwise the result is an error exactly when the text column or the given value column is missing, and has at most 200 terms |
| TextData.TopTermFromTexts | packages/data-collector/src/components/consent_form_viz/visualization_plugin/visualizationDataFunctions/prepareTextData.ts:9-24 | every returned term occurs in some text and carries the weighted occurrence sum as its value |
| ConsentFormViz.Member | packages/data-collector/src/components/consent_form_viz/consent_form_viz.tsx:47-47 | reading a property throws exactly on undefined and null; an object gives its entry, an array its element at a decimal index, and nothing when no index has that name |
| ConsentFormViz.ObjectKeys | packages/data-collector/src/components/consent_form_viz/consent_form_viz.tsx:52-52 | Object.keys throws exactly on undefined and null; an object gives its keys in insertion order, an array its indices, a number or boolean none |
| ConsentFormViz.Indices | packages/data-collector/src/components/consent_form_viz/consent_form_viz.tsx:64-64 | the keys of an array are the decimal names of its positions, one per element |
| ConsentFormViz.CellText | packages/data-collector/src/components/consent_form_viz/consent_form_viz.tsx:47-47 | String() of a missing cell is "undefined", of a present one its string form |
| ConsentFormViz.ColumnNames | packages/data-collector/src/components/consent_form_viz/consent_form_viz.tsx:51-53 | the column names are the frame's keys in order, and reading them throws exactly on a null frame |
| ConsentFormViz.RowCount | packages/data-collector/src/components/consent_form_viz/consent_form_viz.tsx:59-66 | no columns give 0; otherwise the first column's key count minus one, so never below -1 |
| ConsentFormViz.RowCell | packages/data-collector/src/components/consent_form_viz/consent_form_viz.tsx:46-49 | a cell of a present, non-null column is read; a missing column throws |
| ConsentFormViz.CellsOf | packages/data-collector/src/components/consent_form_viz/consent_form_viz.tsx:73-73 | a row's cells are read exactly when every column's cell reads, one per column in column order |
| ConsentFormViz.RowsUpTo | packages/data-collector/src/components/consent_form_viz/consent_form_viz.tsx:68-77 | the first count rows succeed exactly when each row's cells do; row k has id "k" and those cells |
| ConsentFormViz.FrameRows | packages/data-collector/src/components/consent_form_viz/consent_form_viz.tsx:68-77 | a frame that yields rows has readable column names and row count, and yields rows 0 through the row count inclusive |
| ConsentFormViz.Rows | packages/data-collector/src/components/consent_form_viz/consent_form_viz.tsx:68-77 | the loop from 0 to rowCount inclusive builds the rows FrameRows describes, and throws when it does |
| ConsentFormViz.FrameRowsShape | packages/data-collector/src/components/consent_form_viz/consent_form_viz.tsx:68-77 | row k of a frame has id "k", one cell per column, and under column c the text of that column's entry k |
| ConsentFormViz.NoColumnsOneEmptyRow | packages/data-collector/src/components/consent_form_viz/consent_form_viz.tsx:59-77 | a frame without columns still yields one row, "0", with no cells |
| ConsentFormViz.RecordFrameRows | packages/data-collector/src/components/consent_form_viz/consent_form_viz.tsx:59-77 | a frame of non-null columns whose first column holds m > 0 entries yields exactly m rows of one cell per column |
| ConsentFormViz.LoadDataFrame | packages/data-collector/src/components/consent_form_viz/consent_form_viz.tsx:196-201 | a string frame is JSON-parsed, any other value is the frame itself |
| ConsentFormViz.ParseTable | packages/data-collector/src/components/consent_form_viz/consent_form_viz.tsx:83-114 | parsing throws exactly when the frame does not load or its rows do not read; a parsed table has the frame's columns as head, its rows as body and as original body, no deletions, the translated title, an empty description when none is given, and folded only when folded is true |
| ConsentFormViz.ParseTables | packages/data-collector/src/components/consent_form_viz/consent_form_viz.tsx:79-81 | the tables parse exactly when each does, one parsed table per input in order |
| ConsentFormViz.UpdatedTables | packages/data-collector/src/components/consent_form_viz/consent_form_viz.tsx:35-43 | the first table with the id is replaced and the rest kept; without such a table the list is unchanged |
| ConsentFormViz.UpdateKeepsIds | packages/data-collector/src/components/consent_form_viz/consent_form_viz.tsx:35-43 | replacing a table by one with the same id keeps the list of ids |
| ConsentFormViz.ZipPairs | packages/data-collector/src/components/consent_form_viz/consent_form_viz.tsx:144-144 | zip is as long as the longer list and pairs the head and row cells position by position |
| ConsentFormViz.DefinedFields | packages/data-collector/src/components/consent_form_viz/consent_form_viz.tsx:126-129 | JSON.stringify writes no more properties than there are; when all are defined it writes each, in order, as a string |
| ConsentFormViz.SerializeRow | packages/data-collector/src/components/consent_form_viz/consent_form_viz.tsx:141-145 | a row serialises to an object |
| ConsentFormViz.PutAllDistinct | packages/data-collector/src/components/consent_form_viz/consent_form_viz.tsx:144-144 | fromPairs of pairs with distinct keys keeps every pair, in order |
| ConsentFormViz.SerializeRowFields | packages/data-collector/src/components/consent_form_viz/consent_form_viz.tsx:141-145 | with distinct head cells and one cell per column, a row serialises to the object from each head cell to the row's cell under it, in column order |
| ConsentFormViz.SerializeRowDuplicateHead | packages/data-collector/src/components/consent_form_viz/consent_form_viz.tsx:144-144 | a repeated head cell keeps its first position and takes the later cell |
| ConsentFormViz.SerializeRowShort | packages/data-collector/src/components/consent_form_viz/consent_form_viz.tsx:144-144 | a row shorter than the head leaves the missing properties undefined, so the serialised object omits them |
| ConsentFormViz.SerializeRowExtraCell | packages/data-collector/src/components/consent_form_viz/consent_form_viz.tsx:144-144 | a cell beyond the head lands under the property "undefined" |
| ConsentFormViz.SerializeTable | packages/data-collector/src/components/consent_form_viz/consent_form_viz.tsx:136-139 | a table serialises to an object with its id as the only key and its current rows, serialised in order, as the value |
| ConsentFormViz.SerializeTables | packages/data-collector/src/components/consent_form_viz/consent_form_viz.tsx:131-133 | one serialised object per table, in the form's order |
| ConsentFormViz.DeletedRowsNotSerialised | packages/data-collector/src/components/consent_form_viz/consent_form_viz.tsx:131-139 | only the current body is donated, so a table whose rows were all deleted donates an empty list |
| ConsentFormViz.ConsentForm.constructor | packages/data-collector/src/components/consent_form_viz/consent_form_viz.tsx:26-29 | the form starts with the parsed tables and no donation under way |
| ConsentFormViz.ConsentForm.UpdateTable | packages/data-collector/src/components/consent_form_viz/consent_form_viz.tsx:35-43 | the tables become UpdatedTables of the old ones, and the donation flag is kept |
| ConsentFormViz.ConsentForm.HandleDonate | packages/data-collector/src/components/consent_form_viz/consent_form_viz.tsx:116-129 | donating sets the flag, keeps the tables, and answers with the stringified serialised tables |
| ConsentFormViz.ConsentForm.HandleCancel | packages/data-collector/src/components/consent_form_viz/consent_form_viz.tsx:122-124 | cancelling answers false |
| TableContainer.FilterRows | packages/data-collector/src/components/consent_form_viz/table_container.tsx:157-157 | a row is kept exactly when it is in the input and its id passes the test, and the result is never longer |
| TableContainer.FilterRowsAppend | packages/data-collector/src/components/consent_form_viz/table_container.tsx:157-157 | filtering keeps the order: the rows kept from a + b are those kept from a followed by those kept from b |
| TableContainer.FilterRowsAll | packages/data-collector/src/components/consent_form_viz/table_container.tsx:157-157 | when every id passes, the rows are unchanged |
| TableContainer.FilterRowsNone | packages/data-collector/src/components/consent_form_viz/table_container.tsx:157-157 | when no id passes, nothing is left |
| TableContainer.SetOf | packages/data-collector/src/components/consent_form_viz/table_container.tsx:152-154 | the set holds exactly the elements of the list |
| TableContainer.AllIds | packages/data-collector/src/components/consent_form_viz/table_container.tsx:150-155 | an id is collected exactly when some batch holds it |
| TableContainer.WithDeletions | packages/data-collector/src/components/consent_form_viz/table_container.tsx:149-165 | the body holds exactly the original rows whose id is in no batch; the count is the number of rows removed; the batches are stored; nothing else changes |
| TableContainer.DeleteTableRows | packages/data-collector/src/components/consent_form_viz/table_container.tsx:149-165 | the nested loops gather every batch's ids and the filter gives the table WithDeletions describes |
| TableContainer.WithDeletionsTwice | packages/data-collector/src/components/consent_form_viz/table_container.tsx:157-164 | deleting again recomputes from the original body, so earlier deletions leave no trace beyond the batches |
| TableContainer.WithDeletionsConsistent | packages/data-collector/src/components/consent_form_viz/table_container.tsx:149-165 | every deletion result is consistent: its body and count are what its own batches make of its original body |
| TableContainer.NoBatchesRestore | packages/data-collector/src/components/consent_form_viz/table_container.tsx:149-165 | without batches the original body is back in full and the count is 0 |
| TableContainer.ParsedTableConsistent | packages/data-collector/src/components/consent_form_viz/consent_form_viz.tsx:83-114 | a freshly parsed table is consistent |
| TableContainer.DropLast | packages/data-collector/src/components/consent_form_viz/table_container.tsx:73-73 | slice(0, -1) drops the last batch, and an empty list stays empty |
| TableContainer.DeleteThenUndo | packages/data-collector/src/components/consent_form_viz/table_container.tsx:64-75 | undoing right after a deletion gives back the table as it was |
| TableContainer.DeleteShownEmptiesBody | packages/data-collector/src/components/consent_form_viz/table_container.tsx:51-67 | deleting the ids of every row shown empties the body |
| TableContainer.EscapeFirst | packages/data-collector/src/components/consent_form_viz/table_container.tsx:178-178 | escaping adds at most one character, and a query without special characters is unchanged |
| TableContainer.EscapeFirstAt | packages/data-collector/src/components/consent_form_viz/table_container.tsx:178-178 | the backslash goes right before the first special character and the rest is left as it is |
| TableContainer.EscapeOnlyFirst | packages/data-collector/src/components/consent_form_viz/table_container.tsx:178-178 | without the global flag only the first special character is escaped: "a.b.c" becomes a\.b.c |
| TableContainer.MatchingIds | packages/data-collector/src/components/consent_form_viz/table_container.tsx:181-193 | an id is selected exactly when some row with that id has a cell the pattern matches |
| TableContainer.SearchResult | packages/data-collector/src/components/consent_form_viz/table_container.tsx:167-196 | a blank search filters nothing; a query whose escaped pattern does not compile throws; otherwise the ids of the rows with a matching cell |
| TableContainer.BlankSearchNoFilter | packages/data-collector/src/components/consent_form_viz/table_container.tsx:168-168 | a search made only of JavaScript white space and line terminators filters nothing |
| TableContainer.UnicodeBlankSearchNoFilter | packages/data-collector/src/components/consent_form_viz/table_container.tsx:168-168 | a search of a no-break, an ideographic and a zero-width no-break space filters nothing |
| Strings.JsTrim | packages/data-collector/src/components/consent_form_viz/table_container.tsx:168-168 | trim() gives "" exactly when every character is JavaScript white space, and otherwise neither starts nor ends with such a character |
| Strings.JsTrimSlice | packages/data-collector/src/components/consent_form_viz/table_container.tsx:168-168 | what trim() keeps is a slice of the input with only JavaScript white space before and after it |
| TableContainer.SearchRows | packages/data-collector/src/components/consent_form_viz/table_container.tsx:167-196 | the loops over rows and cells, stopping at the first matching cell, give SearchResult |
| TableContainer.SearchedTable | packages/data-collector/src/components/consent_form_viz/table_container.tsx:43-47 | without a filter the table is shown as it is; with one its body is restricted to the filter's ids, in order |
| TableContainer.DeleteSearchedRemovesMatches | packages/data-collector/src/components/consent_form_viz/table_container.tsx:49-67 | deleting the rows a filter shows leaves only rows already shown and none the filter selects |
| TableContainer.Container.constructor | packages/data-collector/src/components/consent_form_viz/table_container.tsx:25-27 | a container starts with the table, an empty search and no filter |
| TableContainer.Container.ApplySearch | packages/data-collector/src/components/consent_form_viz/table_container.tsx:31-41 | the search timer stores what searchRows gives for the original rows; a throw leaves the filter as it was; the table and search are kept |
| TableContainer.Container.HandleDelete | packages/data-collector/src/components/consent_form_viz/table_container.tsx:49-70 | no ids means every shown row; an empty list changes nothing; otherwise the ids become a new batch, and a batch as long as the shown body also clears the search and filter |
| TableContainer.Container.HandleUndo | packages/data-collector/src/components/consent_form_viz/table_container.tsx:72-76 | undo drops the last batch and recomputes from the original body, keeping search and filter |
| ChartData.Add | packages/data-collector/src/components/consent_form_viz/visualization_plugin/visualizationDataFunctions/prepareChartData.ts:136-138 | adding finite numbers adds them, and NaN is absorbing |
| ChartData.Div | packages/data-collector/src/components/consent_form_viz/visualization_plugin/visualizationDataFunctions/prepareChartData.ts:149-157 | dividing by a non-zero finite number divides; NaN is absorbing and 0 / 0 is NaN |
| ChartData.Round2 | packages/data-collector/src/components/consent_form_viz/visualization_plugin/visualizationDataFunctions/prepareChartData.ts:24-24 | rounding to two decimals moves a finite value by at most 0.005 and keeps infinities and NaN |
| ChartData.Round2Idempotent | packages/data-collector/src/components/consent_form_viz/visualization_plugin/visualizationDataFunctions/prepareChartData.ts:24-24 | rounding a rounded value changes nothing |
| ChartData.Round2Whole | packages/data-collector/src/components/consent_form_viz/visualization_plugin/visualizationDataFunctions/prepareChartData.ts:24-24 | a whole number is kept as it is |
| ChartData.LevelIndexValid | packages/data-collector/src/components/consent_form_viz/visualization_plugin/visualizationDataFunctions/prepareChartData.ts:181-188 | the level map lists each level once and exactly the levels with an index |
| ChartData.LevelIndexSpec | packages/data-collector/src/components/consent_form_viz/visualization_plugin/visualizationDataFunctions/prepareChartData.ts:181-188 | every level has an index and only levels do; the index holds the level and no later position does, so a repeated level takes its last index |
| ChartData.XAxisOf | packages/data-collector/src/components/consent_form_viz/visualization_plugin/visualizationDataFunctions/prepareChartData.ts:165-191 | a missing x column throws; levels replace any sortable map by the level index; without levels or date format the x values are the column itself with no sortable map |
| ChartData.PrepareX | packages/data-collector/src/components/consent_form_viz/visualization_plugin/visualizationDataFunctions/prepareChartData.ts:165-191 | prepareX with its level loop gives XAxisOf |
| ChartData.SeededSpec | packages/data-collector/src/components/consent_form_viz/visualization_plugin/visualizationDataFunctions/prepareChartData.ts:72-82 | seeding gives each sortable x value an empty bucket sorted by its number, and no other bucket |
| ChartData.SeedBuckets | packages/data-collector/src/components/consent_form_viz/visualization_plugin/visualizationDataFunctions/prepareChartData.ts:71-82 | the some-loop and the seeding loop give the seeded buckets when some series asks for zeroes and the x is sortable, and no buckets otherwise |
| ChartData.PassOf | packages/data-collector/src/components/consent_form_viz/visualization_plugin/visualizationDataFunctions/prepareChartData.ts:87-99 | a missing y or group_by column throws; the aggregate defaults to count, addZeroes to false, and the series is grouped exactly when group_by is given |
| ChartData.PassOfGroups | packages/data-collector/src/components/consent_form_viz/visualization_plugin/visualizationDataFunctions/prepareChartData.ts:96-96 | a grouped series names row i after its group column's value at i, one name per row |
| ChartData.SkippedOutsideRange | packages/data-collector/src/components/consent_form_viz/visualization_plugin/visualizationDataFunctions/prepareChartData.ts:106-110 | a numeric x below the lower or above the upper bound is skipped and one inside is not; a NaN x is never skipped |
| ChartData.AddRowValue | packages/data-collector/src/components/consent_form_viz/visualization_plugin/visualizationDataFunctions/prepareChartData.ts:122-139 | a row adds its delta to its own bucket and series, starting from 0, and changes no other value |
| ChartData.AddRowIds | packages/data-collector/src/components/consent_form_viz/visualization_plugin/visualizationDataFunctions/prepareChartData.ts:122-133 | a row appends its id to its own bucket and series and to no other |
| ChartData.ReadRowIds | packages/data-collector/src/components/consent_form_viz/visualization_plugin/visualizationDataFunctions/prepareChartData.ts:102-133 | a row that is not skipped appends its id to its bucket and series only; a skipped row changes nothing |
| ChartData.ReadRowValue | packages/data-collector/src/components/consent_form_viz/visualization_plugin/visualizationDataFunctions/prepareChartData.ts:102-139 | a row that is not skipped adds its delta to its bucket and series only; a skipped row changes nothing |
| ChartData.ReadRowKeepsBuckets | packages/data-collector/src/components/consent_form_viz/visualization_plugin/visualizationDataFunctions/prepareChartData.ts:115-130 | a row never removes a bucket nor changes its sort key, and the bucket of a row that is read exists afterwards |
| ChartData.CollectedMatching | packages/data-collector/src/components/consent_form_viz/visualization_plugin/visualizationDataFunctions/prepareChartData.ts:132-133 | the ids collected from a start are the start followed by the ids of the matching rows |
| ChartData.AggRowsCollected | packages/data-collector/src/components/consent_form_viz/visualization_plugin/visualizationDataFunctions/prepareChartData.ts:102-140 | after n rows a bucket and series hold the ids they started with followed by each matching row's id, row by row |
| ChartData.AggRowsIds | packages/data-collector/src/components/consent_form_viz/visualization_plugin/visualizationDataFunctions/prepareChartData.ts:102-140 | reading a series appends to every bucket and series the ids of exactly the rows read into it, in row order |
| ChartData.AggRowsValue | packages/data-collector/src/components/consent_form_viz/visualization_plugin/visualizationDataFunctions/prepareChartData.ts:102-140 | reading a series adds to every bucket and series the deltas of exactly the rows read into it, in row order |
| ChartData.CountAccumulated | packages/data-collector/src/components/consent_form_viz/visualization_plugin/visualizationDataFunctions/prepareChartData.ts:136-136 | with the count aggregate a bucket's value grows by the number of its matching rows |
| ChartData.AggRowsKeepsBuckets | packages/data-collector/src/components/consent_form_viz/visualization_plugin/visualizationDataFunctions/prepareChartData.ts:102-140 | reading rows never removes a bucket and a bucket keeps the sort key it was created with |
| ChartData.AggregateRows | packages/data-collector/src/components/consent_form_viz/visualization_plugin/visualizationDataFunctions/prepareChartData.ts:100-140 | the row loop, with its range skip, builds the buckets and the series summaries the folds describe |
| ChartData.Adjust | packages/data-collector/src/components/consent_form_viz/visualization_plugin/visualizationDataFunctions/prepareChartData.ts:145-157 | a bucket without the series is left alone unless zeroes are asked for; count and sum values are left alone; the sort key, row ids and x value never change |
| ChartData.AdjustPrefixKeeps | packages/data-collector/src/components/consent_form_viz/visualization_plugin/visualizationDataFunctions/prepareChartData.ts:144-158 | finalising a series keeps every bucket, its sort key and its row ids |
| ChartData.AdjustBuckets | packages/data-collector/src/components/consent_form_viz/visualization_plugin/visualizationDataFunctions/prepareChartData.ts:144-158 | the loop over the buckets finalises the series in each, in key order |
| ChartData.FinalizedKeeps | packages/data-collector/src/components/consent_form_viz/visualization_plugin/visualizationDataFunctions/prepareChartData.ts:143-159 | the whole finalisation keeps the bucket order, every bucket, its sort key and its row ids |
| ChartData.FinalizeGroups | packages/data-collector/src/components/consent_form_viz/visualization_plugin/visualizationDataFunctions/prepareChartData.ts:143-159 | the loop over the summaries finalises each series in turn |
| ChartData.ValuePassKeepsBuckets | packages/data-collector/src/components/consent_form_viz/visualization_plugin/visualizationDataFunctions/prepareChartData.ts:84-160 | a whole series keeps every bucket and its sort key |
| ChartData.PassesOk | packages/data-collector/src/components/consent_form_viz/visualization_plugin/visualizationDataFunctions/prepareChartData.ts:87-96 | reading the series fails exactly when some series' columns are missing or empty |
| ChartData.SeriesFoldKeepsBuckets | packages/data-collector/src/components/consent_form_viz/visualization_plugin/visualizationDataFunctions/prepareChartData.ts:84-160 | all the series together keep every bucket and its sort key |
| ChartData.Aggregated | packages/data-collector/src/components/consent_form_viz/visualization_plugin/visualizationDataFunctions/prepareChartData.ts:64-163 | aggregation succeeds only when the x axis and every series read |
| ChartData.AggregatedOk | packages/data-collector/src/components/consent_form_viz/visualization_plugin/visualizationDataFunctions/prepareChartData.ts:64-163 | aggregateData throws exactly when the x axis or some series fails to read |
| ChartData.ReadSeries | packages/data-collector/src/components/consent_form_viz/visualization_plugin/visualizationDataFunctions/prepareChartData.ts:84-160 | one iteration of the series loop, rows then finalisation, gives the series' pass |
| ChartData.AggregateData | packages/data-collector/src/components/consent_form_viz/visualization_plugin/visualizationDataFunctions/prepareChartData.ts:64-163 | the loops of aggregateData give Aggregated, throwing at the first series that fails |
| ChartData.SeededBucketsKept | packages/data-collector/src/components/consent_form_viz/visualization_plugin/visualizationDataFunctions/prepareChartData.ts:71-82 | with zeroes asked for and a sortable x, every sortable x value has a bucket in the result, sorted by its number |
| ChartData.MissingColumnThrows | packages/data-collector/src/components/consent_form_viz/visualization_plugin/visualizationDataFunctions/prepareChartData.ts:89-90 | a missing x column, or a missing column of any series, throws |
| ChartData.KeyLeAgrees | packages/data-collector/src/components/consent_form_viz/visualization_plugin/visualizationDataFunctions/prepareChartData.ts:22-22 | on two numbers or two strings the sort order puts a first exactly when the comparator does not put b before a |
| ChartData.BucketLeOrder | packages/data-collector/src/components/consent_form_viz/visualization_plugin/visualizationDataFunctions/prepareChartData.ts:22-22 | the bucket order is total and transitive |
| ChartData.SortedBucketsOrdered | packages/data-collector/src/components/consent_form_viz/visualization_plugin/visualizationDataFunctions/prepareChartData.ts:21-22 | the sorted buckets are ordered by sort key and are a permutation of the buckets |
| ChartData.Rounded | packages/data-collector/src/components/consent_form_viz/visualization_plugin/visualizationDataFunctions/prepareChartData.ts:24-24 | rounding keeps the key order and the set of keys |
| ChartData.RoundedIdempotent | packages/data-collector/src/components/consent_form_viz/visualization_plugin/visualizationDataFunctions/prepareChartData.ts:24-24 | rounding a point's values twice rounds them once |
| ChartData.RoundValues | packages/data-collector/src/components/consent_form_viz/visualization_plugin/visualizationDataFunctions/prepareChartData.ts:24-24 | the in-place rounding loop over the keys gives Rounded |
| ChartData.Points | packages/data-collector/src/components/consent_form_viz/visualization_plugin/visualizationDataFunctions/prepareChartData.ts:21-32 | one chart point per bucket |
| ChartData.TickerOf | packages/data-collector/src/components/consent_form_viz/visualization_plugin/visualizationDataFunctions/prepareChartData.ts:40-41 | the ticks are percent exactly for the pct and count_pct aggregates |
| ChartData.SeriesAxes | packages/data-collector/src/components/consent_form_viz/visualization_plugin/visualizationDataFunctions/prepareChartData.ts:43-52 | a series' axes are added exactly when its group_by column, if any, exists |
| ChartData.AxesFoldOk | packages/data-collector/src/components/consent_form_viz/visualization_plugin/visualizationDataFunctions/prepareChartData.ts:39-53 | the y axes fail exactly when some series' group_by column is missing |
| ChartData.GroupAxesSpec | packages/data-collector/src/components/consent_form_viz/visualization_plugin/visualizationDataFunctions/prepareChartData.ts:47-51 | a split series gets an axis id exactly for each distinct group value, carrying the value, and each new axis is the one for its value |
| ChartData.GroupLabelInjective | packages/data-collector/src/components/consent_form_viz/visualization_plugin/visualizationDataFunctions/prepareChartData.ts:49-49 | two group values with the same series id read the same |
| ChartData.AddGroupAxes | packages/data-collector/src/components/consent_form_viz/visualization_plugin/visualizationDataFunctions/prepareChartData.ts:48-51 | the loop over the distinct group values adds their axes in order |
| ChartData.AddSeriesAxes | packages/data-collector/src/components/consent_form_viz/visualization_plugin/visualizationDataFunctions/prepareChartData.ts:40-52 | one iteration of the series loop, with its ticker format, gives SeriesAxes |
| ChartData.InitialData | packages/data-collector/src/components/consent_form_viz/visualization_plugin/visualizationDataFunctions/prepareChartData.ts:55-61 | the chart keeps the type, uses the x column as x key and its label, has no points yet, and fails exactly when the y axes do |
| ChartData.InitializeVisualizationData | packages/data-collector/src/components/consent_form_viz/visualization_plugin/visualizationDataFunctions/prepareChartData.ts:37-62 | the loop over the series gives InitialData |
| ChartData.CreateVisualizationData | packages/data-collector/src/components/consent_form_viz/visualization_plugin/visualizationDataFunctions/prepareChartData.ts:14-35 | the axes fail exactly when InitialData does; otherwise the points are the sorted buckets with their values rounded |
| ChartData.ChartDataOf | packages/data-collector/src/components/consent_form_viz/visualization_plugin/visualizationDataFunctions/prepareChartData.ts:4-12 | a table without rows gives an empty chart; otherwise the chart fails exactly when aggregation or the axes do, and holds the axes and the points of the aggregated buckets |
| ChartData.ChartPointsOrdered | packages/data-collector/src/components/consent_form_viz/visualization_plugin/visualizationDataFunctions/prepareChartData.ts:21-32 | the points of a chart come in sort-key order |
| ChartData.PrepareChartData | packages/data-collector/src/components/consent_form_viz/visualization_plugin/visualizationDataFunctions/prepareChartData.ts:4-12 | prepareChartData gives ChartDataOf |

## Left out

- Zip and file I/O, the Pyodide file system and the web workers: an archive is given as its members.
- Decoders (json.loads, csv.DictReader, UTF-8 and BOM decoding, the latin1 repair, Unicode normalisation): abstract functions in `Codecs`.
- Date and time libraries (fromtimestamp, fromisoformat, dateutil, JS Date and Intl): abstract functions.
- The regex engine: a compiled pattern is a predicate on keys; the literal patterns (suffix match, line prefixes) are written out.
- json.dumps: a donation carries the JSON value (`Dumped`) or the string as the host returned it (`Raw`), not the serialised text.
- Floating point (tf-idf scoring, mean, percentages, rounding): validation scores are exact reals, a number rounded to three decimals is an integer count of thousandths, and other numbers are integers.
- Randomness: np.random.shuffle is a parameter, constrained to be a permutation.
- Logging: the text of the log stream is a parameter, indexed by the trace position of each log donation.
- src/framework/processing/py/port/validate.py, unzipddp.py and helpers.py are not part of this model. The study's `port.validate`, `unzipddp` and `helpers` are taken to behave like the packaged validator and extraction helpers. `validation.status_code.id` is read as the status id, and `convert_unix_timestamp` is a parameter.
- ChatGptStudy: the hooks of the ChatGPT study are passed to the generic loop as values. Script.RunFileLoop and Script.Process run over any Study, and Script.HandleFile is the ChatGPT loop body proved equal to that step.
- Rendering, prompt construction and translations of UI text: pages are reduced to their kind and the data they show.
- The visualisations and descriptions attached to the Python tables: a table is its id, title and frame.
- Records.Archive: an archive is given by two lookups from a target name, to the member's bytes and to their decoded JSON, so extract_file_from_zip's suffix match is proved on its own and not inside each extractor.
- X.StatusLinks: pandas' elementwise string addition is reduced to all-or-nothing on the types of the ids: it succeeds when every id is a string and raises otherwise.
- X.UserLinkRow: a list or dict under userLink would make pandas spread or reject the row; the model keeps it as one cell, as for the other tuple and list cells.
- Facebook.LikesAndReactionsToDf: the while True loop is given one file per archive member plus one; beyond that bound, which a real archive cannot exceed with distinct non-empty files, the model stops reading.
- Facebook.NewsYourLocationsTabulates: pandas turns a dict item into several cells or raises on a width mismatch; the model keeps each item as one cell.
- Tuple and list cells: a datapoint tuple is a sequence of JSON cells, and pandas dtype inference is not modelled.
- The known files name who_you've_followed.json and pages_you've_liked.json while the extractors read who_you_ve_followed.json and pages_you_ve_liked.json; both spellings are kept as they stand.
- Records.SortByDate: sort_values uses an unstable quicksort, so the order among datapoints with equal keys is unspecified; the model sorts by insertion, and its lemmas state only what holds for every such order (same datapoints, ascending keys).
- LinkedIn.StripNotesSpec: the except branch of strip_notes, which hands back the original buffer, is not modelled: a substitution on a byte buffer does not raise.
- CsvFrames.CsvFrame: a DictReader value is a string (a missing field's None and the list under the None key of an overlong row are not modelled), and pandas' NaN is written as null.
- TikTok: follower_to_df and following_to_df are modelled, but extraction does not call them, so no table shows them.
- Instagram.PostCommentsToDf: as for the Facebook likes, the while True loop is bounded by one file per archive member plus one.
- Netflix.UsersSpec: a first-column cell that is not a string (NaN) is not listed; in pandas it is listed, and out.sort() then raises after out was assigned, which leaves the unique names unsorted.
- Netflix.MilliHoursNearest: round(x, 3) on the binary value of x rounds an exact tie half-even or either way depending on its representation; the model rounds ties up.
- Netflix.TimeStringToHours: int() also accepts surrounding whitespace and underscores between digits; the model reads a sign and digits only.
- Netflix.ExtractData: a radio answer that is not a string selects no profile, so both tables are empty; pandas compares the profile column with that value instead.
- Netflix.ViewingSpec: states which rows the table holds and their order, not how often a row that occurs several times in the file is repeated.
- YouTube: the AttributeError raised on a missing current category is a bare `Failure`; its message is not modelled.
- WhatsApp: read_chat_file and remove_unwanted_characters (zip or text file I/O, the Unicode category filter and NFKD normalisation) are the parameter `read`, which yields the cleaned lines or Failure.
- WhatsApp: EMOJI_PATTERN is not part of this model; its findall is the parameter `findEmojis`, and the emoji table (Counter(...).most_common(100) as a frame) is the parameter `usage` applied to every emoji of the chat.
- WhatsAppParse.Engine: the regex engine is a parameter; `matches` is re.match, `groups` is groupdict and `iso` is convert_to_iso8601 (dateutil), so the regexes are proved to be built correctly but their meaning as patterns is not.
- WhatsAppParse.WordRun: `\w` is read as the ASCII letters, digits and underscore.
- WhatsAppParse.DetermineRegexFromChat: the `index > length_lines` guard can never hold inside enumerate, so it is left out.
- WhatsApp.RealUsers: set iteration order is arbitrary in Python; the model lists the users in the order their names first occur, which fixes the numbering of the user_statistics tables.
- WhatsApp.KeptUsersStable: states that the users found again are the same set, not that they come in the same order.
- WhatsApp.UserStatistics: the statistic column mixes strings and integers, modelled as JSON strings and integers.
- JavaScript numbers in the chart data: a `Num` is an exact real, an infinity or NaN, so there is no rounding error and no negative zero; sortable x values and level indices are integers.
- JavaScript strings are sequences of Dafny characters compared in code-unit order; the `\p{L}` letter test of tokenize is the parameter `letter`.
- Number() of a cell, the date formatting of formatDate (JS Date and Intl) and URL parsing are parameters (`ChartEnv`, `TextData.Env`); `Number(yValue) ?? 0` never reaches its default, since Number() always gives a number.
- JSON.parse, JSON.stringify and Translator.translate are the parameters `parse`, `stringify` and `translate`.
- TableContainer.Compiler: building the case-insensitive RegExp and testing a cell with it are one parameter; only the escaping of the query is written out.
- React state, effects and timers: the 300 ms search debounce is the method `ApplySearch`, run when the timer fires; the show and fold toggles, `lastSearch` and the re-parse effect on new props are not modelled.
- TableContainer.Container.HandleDelete: the new table is handed to the form's updateTable; the model states the container's new table, and `ConsentForm.UpdateTable` states what the form does with it; the two objects are not linked by reference.
- JavaScript objects order integer-like keys numerically before the others; the chart and vocabulary records keep plain insertion order, which decides only the order of buckets with equal sort keys, of the axes, and which of several equally important terms `TextData.TopTerms` keeps when untokenized texts are plain integers.
- Property names inherited from Object.prototype ("constructor", "toString", …) read as defined on a fresh object in JavaScript; the records treat every name as absent until stored.
- ChartData.KeyLe: the comparator returns 0 for undefined and for a number against a string, which is no consistent order; the model sorts numbers before strings before undefined, and KeyLeAgrees states that it agrees with the comparator on two numbers or two strings.
- ChartData.Points: a chart point keeps the series values, the x value, the row ids and the sort key as separate fields; in the object spread a series named like the x key, `__rowIds` or `__sortBy` would be overwritten.
- ChartData.Points: its own contract states only the number of points; their order is `ChartPointsOrdered` and their contents `CreateVisualizationData`.
- ChartData.Rounded: rounds the values under the listed keys; on the records the model builds every key is listed.
- The annotations and visualizations fields of a table, the table, figure and search-bar components, and the translations of the UI text are not modelled.
- TextData.Scored: the tf-idf score is the parameter `score`, of the summed value, document frequency and document count.
- RechartsGraph.FormatTick: the tick value is taken as an integer; the chart values are JavaScript numbers rounded to two decimals, and their decimal form (such as "12.34") is not modelled.
- ExtractionHelpers.FirstSuffixMatch: member names are taken to hold no newline; in the pattern `^.*target$`, `.` does not cross a newline and `$` also matches before a final one, so such a name can match differently.
- Json.Repr: strings are always written in single quotes and unescaped; Python's repr switches to double quotes for a text holding a single quote and no double quote, and escapes backslashes, the quote, control characters and non-printable characters.
- Validate.ScorableCatalog: the two error paths of an unscorable catalog are excluded by the precondition: max() over an empty catalog raises ValueError, and a category without known files divides by zero. Every platform's catalog is proved scorable.
- D3iExample.CollectMemberRows: zipfile.getinfo(name) returns the last entry of a duplicated name, so the sizes of an earlier duplicate repeat the later one's; the model gives each member its own sizes.
