# Tech radar registry: the client-side core in Dafny

The tech radar frontend keeps a registry of the technologies a team uses.
Each technology has a name, a category, an adoption stage, tags, an
optional details page and a history of stage changes. This project models
the frontend's client-side core and proves properties of the model:

- **the local store** (`useTechnologies.ts`). It is the session's list of
  technologies plus a one-level undo snapshot, with the add, delete, edit,
  revert and load actions. The source mutates a store object, so it is
  modelled as a class, `TechnologyStore.Store`, with two `seq` fields. Each
  method is proved against a pure transition function on `StoreState`, and
  the lemmas are stated on those functions.
- **the validation schemas** (`schemas.ts`). Each zod schema becomes a parse
  function from a JavaScript value (`JsValues.Value`) to either the typed
  record or the first issue zod reports: properties are checked in
  declaration order, array elements in index order, depth first.
- **the registry client** (`client.ts`). It covers:
  - the query `getTechnologies` builds, with an imperative builder proved
    equal to its specification;
  - the whitespace guard on names;
  - `encodeURIComponent`;
  - validation before a request is sent.

  `fetch` is a parameter, a function from a request to its response.
  Each operation returns the requests it sent and its result.
- **response normalisation** (`errors.ts`): `handleResponse`, as written
  (branches, messages, `try`/`catch`), and `handleVoidResponse`.
- **`serializeDates`** (`serealizing.ts`), together with a round trip: a
  technology serialised with `serializeDates` and then validated with
  `TechnologySchema` is the same technology again. This holds when its name
  is non-empty and its URLs are ones `z.url` yields unchanged.
- **`generateColorFromString`** (`colors.ts`). It is modelled as an
  imperative method with its two loops. The 32-bit arithmetic is written
  out (ToInt32, the arithmetic shift, the mask). The method is proved
  equal to a specification function, and the properties are proved on
  that function.

Library behaviour the code relies on but does not define is passed in as
parameters:

- `Date.parse`, which strings `z.url()` accepts and the string it yields
  for them, and the wording of zod's own messages (`Schemas.Platform`);
- the message of the `SyntaxError` that `response.json()` rejects with when
  the body is not JSON (`ApiErrors.Response`);
- `Date.prototype.toISOString`;
- the server's responses to requests;
- the current time, `new Date()` in the store.

Behaviour of the code worth knowing:

- **Stage names.** The store's stages are `'Asses', 'Trial', 'Adopt',
  'Hold'`, while the schemas' are `'Hold', 'Assess', 'Trial', 'Adopt'`. They
  are kept apart, and `StageSpellingsDiffer` proves that a record in the
  store's `'Asses'` stage fails the schema's stage check.
- **Duplicate names.** The store does not keep names unique; adding a
  name already taken gives two records with that name.
- **Edits.** An edit rebuilds every record with the edited name, not just
  the first.
- **Stage changes.** A stage change is recorded even when the new stage is
  the current one.
- **Error messages.** When a response is not ok, `handleResponse` throws
  the detail message inside a `try` whose bare `catch` replaces it. The
  thrown message therefore always ends with the raw response text, never
  with the normalised `detail`.

## Model

Source paths are relative to the repository root.

| member | source | states |
|---|---|---|
| TechnologyStore.Discovered | frontend/src/hooks/useTechnologies.ts:81-84 | an added record keeps the given name, category, stage, tags and details page; it has no transitions, and its discovery date is the time of the add |
| TechnologyStore.CreateNewTechnologyDocument | frontend/src/hooks/useTechnologies.ts:46-71 | an edit replaces name, category, tags and details page with the edited values and keeps the discovery date |
| TechnologyStore.NoStageChangeKeepsHistory | frontend/src/hooks/useTechnologies.ts:50-68 | without a stage change, the stage and the whole history are as before |
| TechnologyStore.StageChangeAppendsTransition | frontend/src/hooks/useTechnologies.ts:50-68 | with a stage change: the stage is the new stage, the earlier transitions are kept as a prefix, and exactly one transition is appended (stage left, time of the edit, ADR link) |
| TechnologyStore.SameStageChangeStillRecorded | frontend/src/hooks/useTechnologies.ts:50-68 | a change to the current stage still appends a transition |
| TechnologyStore.EditIsAppendOnly | frontend/src/hooks/useTechnologies.ts:63-69 | an edit only ever appends to the history, and one entry is appended exactly when a stage change is given |
| TechnologyStore.WithoutName | frontend/src/hooks/useTechnologies.ts:91 | the delete filter drops exactly the records with the name: no result record has it, the length falls by their number, and the list is unchanged when there are none |
| TechnologyStore.WithoutNameMembers | frontend/src/hooks/useTechnologies.ts:91 | a record survives the delete exactly when it was present and has another name |
| TechnologyStore.WithoutNameDistributes | frontend/src/hooks/useTechnologies.ts:91 | the filter works element by element, so it keeps the order of what it keeps |
| TechnologyStore.WithoutUniqueName | frontend/src/hooks/useTechnologies.ts:91 | deleting a name held by exactly one record removes that record and nothing else |
| TechnologyStore.DeleteKeepsUniqueNames | frontend/src/hooks/useTechnologies.ts:89-94 | a delete keeps distinct names distinct |
| TechnologyStore.AddKeepsUniqueNamesIffFresh | frontend/src/hooks/useTechnologies.ts:77-88 | from a list with distinct names, an add keeps names distinct if and only if the name was not taken |
| TechnologyStore.AddDoesNotCheckUniqueness | frontend/src/hooks/useTechnologies.ts:77-88 | an add always adds one more record with the name, even when the name is taken |
| TechnologyStore.EditedList | frontend/src/hooks/useTechnologies.ts:97-101 | the edit map keeps the length; each record with the edited name is rebuilt by the edit rule, every other record stays as it was |
| TechnologyStore.EditKeepsNames | frontend/src/hooks/useTechnologies.ts:95-104 | an edit keeps the sequence of names |
| TechnologyStore.Mutated | frontend/src/hooks/useTechnologies.ts:77-103 | every mutating action saves the list it replaces as the undo snapshot |
| TechnologyStore.Added | frontend/src/hooks/useTechnologies.ts:77-88 | add appends the new record after the unchanged list and saves the old list as the snapshot |
| TechnologyStore.Deleted | frontend/src/hooks/useTechnologies.ts:89-94 | after a delete, a record is present exactly when it was present before and has another name; the snapshot is the old list |
| TechnologyStore.Edited | frontend/src/hooks/useTechnologies.ts:95-104 | an edit keeps the names and saves the old list as the snapshot |
| TechnologyStore.Reverted | frontend/src/hooks/useTechnologies.ts:105-107 | revert restores the snapshot and leaves the snapshot as it was |
| TechnologyStore.Loaded | frontend/src/hooks/useTechnologies.ts:108-110 | load replaces the list and does not touch the snapshot |
| TechnologyStore.RevertIdempotent | frontend/src/hooks/useTechnologies.ts:105-107 | reverting twice is the same as reverting once |
| TechnologyStore.RevertUndoesMutation | frontend/src/hooks/useTechnologies.ts:77-107 | a revert right after any mutating action gives back the list from before it |
| TechnologyStore.StageSpellingsDiffer | frontend/src/hooks/useTechnologies.ts:10 | the store's `Asses` is not a schema stage and fails the schema's stage check; the schema's `Assess` is not a store stage; the other three stages agree |
| TechnologyStore.Initial | frontend/src/hooks/useTechnologies.ts:75-76 | the initial state has an empty list and an empty snapshot |
| TechnologyStore.Store.constructor | frontend/src/hooks/useTechnologies.ts:75-76 | the store starts in the initial state: an empty list and an empty snapshot |
| TechnologyStore.Store.AddTechnology | frontend/src/hooks/useTechnologies.ts:77-88 | the new state is `Added` of the old state |
| TechnologyStore.Store.DeleteTechnology | frontend/src/hooks/useTechnologies.ts:89-94 | the new state is `Deleted` of the old state |
| TechnologyStore.Store.EditTechnology | frontend/src/hooks/useTechnologies.ts:95-104 | the new state is `Edited` of the old state |
| TechnologyStore.Store.Revert | frontend/src/hooks/useTechnologies.ts:105-107 | the new state is `Reverted` of the old state |
| TechnologyStore.Store.LoadTechnologies | frontend/src/hooks/useTechnologies.ts:108-110 | the new state is `Loaded` of the old state |
| Schemas.Fail | frontend/src/libraries/api/technologies/schemas.ts:34-36 | a definition: the issue with the given code and path that carries zod's own message for the code |
| Schemas.StableUrl | frontend/src/libraries/api/technologies/schemas.ts:24 | a string `z.url` accepts and yields unchanged |
| Schemas.UrlsSettle | frontend/src/libraries/api/technologies/schemas.ts:24 | every string `z.url` yields is itself accepted and yielded unchanged |
| Schemas.ParseString | frontend/src/libraries/api/technologies/schemas.ts:36 | accepts exactly strings and yields the string |
| Schemas.ParseName | frontend/src/libraries/api/technologies/schemas.ts:33 | accepts exactly strings of at least one character; the empty string fails with `Technology name is required` |
| Schemas.ParseCategory | frontend/src/libraries/api/technologies/schemas.ts:34 | accepts exactly the four categories |
| Schemas.ParseStage | frontend/src/libraries/api/technologies/schemas.ts:35 | accepts exactly the four schema stages |
| Schemas.ParseIsoDate | frontend/src/libraries/api/technologies/schemas.ts:15-18 | accepts exactly strings `Date.parse` reads, yields that date, and otherwise reports `Invalid date` |
| Schemas.ParseUrl | frontend/src/libraries/api/technologies/schemas.ts:24 | accepts exactly the strings `z.url` accepts and yields the string `z.url` returns for them; every issue carries the schema's own message |
| Schemas.ParseNullableUrl | frontend/src/libraries/api/technologies/schemas.ts:37 | accepts `null` (giving none) or a valid URL (giving the string `z.url` returns) |
| Schemas.ParseItems | frontend/src/libraries/api/technologies/schemas.ts:28 | succeeds if and only if every element passes, yielding the element results in order; otherwise the issue is that of the first failing element |
| Schemas.ParseArray | frontend/src/libraries/api/technologies/schemas.ts:28 | accepts exactly arrays whose every element passes, element results in order |
| Schemas.ParseStrings | frontend/src/libraries/api/technologies/schemas.ts:36 | accepts exactly arrays of strings and yields those strings |
| Schemas.StringArrayParses | frontend/src/libraries/api/technologies/schemas.ts:36 | an array of strings reads back as the same strings |
| Schemas.ParseCount | frontend/src/libraries/api/technologies/schemas.ts:42 | accepts exactly the non-negative safe integers, yielding the number |
| Schemas.ParseObject | frontend/src/libraries/api/technologies/schemas.ts:21 | the object check passes exactly for objects |
| Schemas.ParseStageTransition | frontend/src/libraries/api/technologies/schemas.ts:21-25 | valid if and only if each of the three properties passes its schema; the result is built from those properties |
| Schemas.ParseHistory | frontend/src/libraries/api/technologies/schemas.ts:27-30 | valid if and only if every transition and the discovery date pass; the transitions are parsed element by element |
| Schemas.ParseTechnology | frontend/src/libraries/api/technologies/schemas.ts:32-39 | valid if and only if each of the six properties passes its schema; the result holds their parsed values, the details page as `z.url` returns it |
| Schemas.ParseMetadata | frontend/src/libraries/api/technologies/schemas.ts:41-46 | valid if and only if the count and the three string lists pass; the count is the number given and the categories, stages and available tags are the strings given |
| Schemas.ParseGetTechnologiesResponse | frontend/src/libraries/api/technologies/schemas.ts:49-52 | valid if and only if every technology and the metadata pass; technologies are parsed in order |
| Schemas.ParseAddTechnologyRequest | frontend/src/libraries/api/technologies/schemas.ts:55-61 | valid if and only if each property passes, with an absent `tags` giving `[]` and an absent or `null` details page giving none |
| Schemas.ParseNewStageTransition | frontend/src/libraries/api/technologies/schemas.ts:63-66 | valid if and only if the new stage is a schema stage and the ADR link a URL |
| Schemas.ParseUpdateTechnologyRequest | frontend/src/libraries/api/technologies/schemas.ts:68-73 | valid if and only if each property passes; a `null` stage transition means no stage change |
| Schemas.EnumsAreClosed | frontend/src/libraries/api/technologies/schemas.ts:4-11 | only the four listed categories and four listed stages pass; any other stage fails with the enum issue |
| Schemas.WhitespaceNamePasses | frontend/src/libraries/api/technologies/schemas.ts:33 | a name of one space passes the name schema |
| Schemas.EmptyListAccepted | frontend/src/libraries/api/technologies/schemas.ts:49-52 | an empty technology list passes with any valid metadata, whatever `total_count` says |
| Schemas.AddRequestDefaults | frontend/src/libraries/api/technologies/schemas.ts:59-60 | an add request without tags and details page gets `[]` and none |
| Schemas.InvalidNewStageRejectsUpdate | frontend/src/libraries/api/technologies/schemas.ts:72 | a stage transition with an unknown new stage makes the whole update request invalid |
| RegistryClient.Each | frontend/src/libraries/api/technologies/client.ts:27-29 | one entry per value, in order, under the given name |
| RegistryClient.SearchPart | frontend/src/libraries/api/technologies/client.ts:23-25 | one `search` entry with the text exactly when the search text is present and non-empty, otherwise none |
| RegistryClient.QueryPairs | frontend/src/libraries/api/technologies/client.ts:22-41 | without parameters the query is empty |
| RegistryClient.CategoriesRun | frontend/src/libraries/api/technologies/client.ts:26-30 | the category entries follow the search entry, one per category in order |
| RegistryClient.StagesRun | frontend/src/libraries/api/technologies/client.ts:31-35 | the stage entries follow the category entries, one per stage in order |
| RegistryClient.TagsRun | frontend/src/libraries/api/technologies/client.ts:36-40 | the tag entries come last, one per tag in order |
| RegistryClient.QueryCarriesFilters | frontend/src/libraries/api/technologies/client.ts:22-41 | the query carries, under each name, exactly the filters given: the search text when it is non-empty, every category, stage and tag in order, nothing under any other name |
| RegistryClient.QueryLayout | frontend/src/libraries/api/technologies/client.ts:22-41 | the entries come in four consecutive runs: the search, the categories, the stages, the tags |
| RegistryClient.EmptyParamsNoQuery | frontend/src/libraries/api/technologies/client.ts:20-41 | without parameters, or with only empty ones, the URL has no query |
| RegistryClient.AppendEach | frontend/src/libraries/api/technologies/client.ts:27-29 | the loop appends one entry per value, in order |
| RegistryClient.AppendIfAny | frontend/src/libraries/api/technologies/client.ts:26-30 | an absent or empty list appends nothing, otherwise one entry per value |
| RegistryClient.BuildQuery | frontend/src/libraries/api/technologies/client.ts:20-41 | the step-by-step query equals the specification `QueryPairs` |
| RegistryClient.GetTechnologiesSchema | frontend/src/libraries/api/technologies/client.ts:44 | a definition adapting `ParseGetTechnologiesResponse` to `safeParse`: succeeds exactly when the response schema accepts, with its data, and otherwise reports its first issue |
| RegistryClient.GetTechnologies | frontend/src/libraries/api/technologies/client.ts:14-45 | exactly one GET of the registry URL with the built query; the result is `handleResponse` of the response with the list schema |
| RegistryClient.IsJsWhiteSpace | frontend/src/libraries/api/technologies/client.ts:62 | the ECMAScript WhiteSpace and LineTerminator characters that `trim` removes |
| RegistryClient.TrimStart | frontend/src/libraries/api/technologies/client.ts:62 | a suffix of the string whose dropped prefix is all whitespace and whose first character is not; empty if and only if the string is all whitespace |
| RegistryClient.TrimEnd | frontend/src/libraries/api/technologies/client.ts:62 | a prefix of the string whose dropped suffix is all whitespace and whose last character is not; empty if and only if the string is all whitespace |
| RegistryClient.Trim | frontend/src/libraries/api/technologies/client.ts:62 | a non-empty trimmed string starts and ends with non-whitespace |
| RegistryClient.IsBlank | frontend/src/libraries/api/technologies/client.ts:62 | the guard `!name || name.trim().length === 0`; `BlankIffAllWhiteSpace` characterises it |
| RegistryClient.BlankIffAllWhiteSpace | frontend/src/libraries/api/technologies/client.ts:62 | the guard fires if and only if the name is empty or all ECMAScript whitespace |
| RegistryClient.WhitespaceNameGuarded | frontend/src/libraries/api/technologies/client.ts:62-64 | a whitespace-only name passes the name schema, yet delete and update send no request for it |
| RegistryClient.UpperHexDigit | frontend/src/libraries/api/technologies/client.ts:66 | an escape digit is `0`-`9` or `A`-`F` |
| RegistryClient.PercentOctet | frontend/src/libraries/api/technologies/client.ts:66 | an escaped octet is `%`, then the uppercase hex digit of its high four bits, then that of its low four bits |
| RegistryClient.Utf8 | frontend/src/libraries/api/technologies/client.ts:66 | one to four octets, each below 256; a single octet equal to the code point exactly for ASCII |
| RegistryClient.PercentOctets | frontend/src/libraries/api/technologies/client.ts:66 | three characters per octet, the first three the escape of the first octet |
| RegistryClient.EncodeChar | frontend/src/libraries/api/technologies/client.ts:66 | a character stays itself if and only if it is unreserved; otherwise it becomes three characters per UTF-8 octet, starting with `%`; either way only unreserved characters and `%` appear |
| RegistryClient.EncodeURIComponent | frontend/src/libraries/api/technologies/client.ts:66 | the encoding is never shorter than the name |
| RegistryClient.EncodeConcat | frontend/src/libraries/api/technologies/client.ts:66 | encoding works character by character: it distributes over concatenation |
| RegistryClient.SpaceEncoding | frontend/src/libraries/api/technologies/client.ts:66 | a space is encoded as `%20` |
| RegistryClient.UnreservedUnchanged | frontend/src/libraries/api/technologies/client.ts:66 | a name made of unreserved characters is its own encoding |
| RegistryClient.EncodeSpaced | frontend/src/libraries/api/technologies/client.ts:66 | after an unreserved word, only the space is escaped |
| RegistryClient.AsciiEncodingRoundTrip | frontend/src/libraries/api/technologies/client.ts:66 | percent-decoding the encoding of an ASCII name gives the name back |
| RegistryClient.EncodingIsUriSafe | frontend/src/libraries/api/technologies/client.ts:66 | every character of an encoding is unreserved or `%`, so it holds no `/`, `?` or `#` |
| RegistryClient.DotNamesUnescaped | frontend/src/libraries/api/technologies/client.ts:62-66 | the names `.` and `..` pass the blank guard and are encoded as themselves, so their URL ends in a dot-segment |
| RegistryClient.TechnologyUrl | frontend/src/libraries/api/technologies/client.ts:66 | the registry URL, a `/`, then the encoded name; no query, and only unreserved characters and `%` after the `/` |
| RegistryClient.AddRequestBody | frontend/src/libraries/api/technologies/client.ts:55 | the body is an object holding each property of the validated request under its own key |
| RegistryClient.AddBodyRevalidates | frontend/src/libraries/api/technologies/client.ts:48-55 | when every URL in it is one `z.url` yields unchanged, the body sent for a validated add request passes the schema again and yields the same request |
| RegistryClient.AddValidatedRevalidates | frontend/src/libraries/api/technologies/client.ts:48-55 | whenever every string `z.url` yields is stable, the body built from a request the schema accepted passes the schema again with the same result |
| RegistryClient.StageTransitionBody | frontend/src/libraries/api/technologies/client.ts:87 | `null` exactly for no stage change; otherwise an object with the new stage and the ADR link |
| RegistryClient.UpdateRequestBody | frontend/src/libraries/api/technologies/client.ts:87 | the body is an object holding each property of the validated request under its own key, the stage transition as `StageTransitionBody` |
| RegistryClient.UpdateBodyRevalidates | frontend/src/libraries/api/technologies/client.ts:80-87 | when every URL in it is one `z.url` yields unchanged, the body sent for a validated update request passes the schema again and yields the same request |
| RegistryClient.UpdateValidatedRevalidates | frontend/src/libraries/api/technologies/client.ts:80-87 | whenever every string `z.url` yields is stable, the body built from a request the schema accepted passes the schema again with the same result |
| RegistryClient.AddTechnology | frontend/src/libraries/api/technologies/client.ts:47-59 | an invalid request sends nothing and throws a ZodError with the first issue; a valid one sends one PUT of the validated request (defaults filled in), the result is `handleVoidResponse` of the response, and when `z.url` output is stable the body sent revalidates to the same request |
| RegistryClient.DeleteTechnology | frontend/src/libraries/api/technologies/client.ts:61-71 | sends nothing if and only if the name is blank, and then throws `Technology name is required for deletion`; otherwise it sends one DELETE of the encoded name, and the result is `handleVoidResponse` of the response |
| RegistryClient.UpdateTechnology | frontend/src/libraries/api/technologies/client.ts:73-91 | at most one request: a blank name throws `Technology name is required for update` first, then an invalid request throws a ZodError; otherwise one POST of the validated request to the encoded name, and when `z.url` output is stable the body sent revalidates to the same request |
| ApiErrors.DecimalString | frontend/src/libraries/api/errors.ts:19 | `String(status)` is decimal digits without leading zeros |
| ApiErrors.DecimalRoundTrip | frontend/src/libraries/api/errors.ts:19 | the decimal string reads back as the status code |
| ApiErrors.IndexOf | frontend/src/libraries/api/errors.ts:43 | a found index is an occurrence at or after the start; no index means no occurrence there |
| ApiErrors.IncludesText | frontend/src/libraries/api/errors.ts:43 | true if and only if the text occurs somewhere in the string |
| ApiErrors.StatusSuffix | frontend/src/libraries/api/errors.ts:19 | `<statusText> (<status>)`, the part of every thrown message that names the response |
| ApiErrors.ErrorDetails | frontend/src/libraries/api/errors.ts:4-16 | `ClientErrorResponseSchema`: the `detail` of an object whose `detail` is a string or an array, `{}` when that `detail` is an object (zod strips the keys `z.object({})` does not list), else the whole body; a definition, with `ObjectDetailStripped` stating the object case |
| ApiErrors.ObjectDetailStripped | frontend/src/libraries/api/errors.ts:4-16 | a body whose `detail` is an object gives `{}` as the details |
| ApiErrors.FailureTry | frontend/src/libraries/api/errors.ts:13-20 | the failure `try`: a body that is not JSON throws its `SyntaxError`, a JSON body throws the message with its details |
| ApiErrors.FailureCatch | frontend/src/libraries/api/errors.ts:21-27 | the bare `catch`: whatever was thrown, the message with the status and the text body |
| ApiErrors.SuccessTry | frontend/src/libraries/api/errors.ts:30-41 | every message the success branch throws contains `validation failed` |
| ApiErrors.SuccessCatch | frontend/src/libraries/api/errors.ts:42-49 | an error (the validation error or the `SyntaxError`) whose message contains `validation failed` is rethrown as it is; anything else becomes the parse-failed message |
| ApiErrors.HandleResponse | frontend/src/libraries/api/errors.ts:10-50 | not ok: the request-failed message with status text, code and the text body; ok and valid: the data; ok and invalid: the validation message with the first issue's message or `Invalid data format`; ok and not JSON: the `SyntaxError` message if it contains `validation failed`, else the parse-failed message |
| ApiErrors.ValidationMessagePassesThrough | frontend/src/libraries/api/errors.ts:38-45 | the validation message contains `validation failed`, so the `catch` rethrows it unchanged |
| ApiErrors.FailureIgnoresJsonBody | frontend/src/libraries/api/errors.ts:11-28 | for a failed response, the result depends neither on the JSON body nor on the error its parsing raises |
| ApiErrors.FailureMessageNamesStatus | frontend/src/libraries/api/errors.ts:18-26 | a failure message starts with `API request failed: ` and contains the status text and `(<status>)` |
| ApiErrors.VoidSchema | frontend/src/libraries/api/errors.ts:53 | `z.void().nullable()`: accepts exactly `undefined` and `null` |
| ApiErrors.HandleVoidResponse | frontend/src/libraries/api/errors.ts:52-54 | succeeds if and only if the response is ok and its body is `null` or `undefined`; a failed response gives the request-failed message |
| Serializing.SerializeDates | frontend/src/libraries/serealizing.ts:9-26 | the result holds no `Date`; a date becomes its ISO string; arrays keep their length, objects their keys, other values are unchanged |
| Serializing.SerializeArrayElement | frontend/src/libraries/serealizing.ts:14-16 | each array element is serialised in place |
| Serializing.SerializeObjectProperty | frontend/src/libraries/serealizing.ts:18-23 | each property keeps its key and has its value serialised |
| Serializing.DateFreeUnchanged | frontend/src/libraries/serealizing.ts:9-26 | a value without dates comes back equal |
| Serializing.SerializeIdempotent | frontend/src/libraries/serealizing.ts:9-26 | serialising twice is the same as serialising once |
| WireFormat.SerializeFields | frontend/src/libraries/serealizing.ts:18-23 | serialising an object gives the object of its serialised properties, in order |
| WireFormat.SerializeTechnology | frontend/src/libraries/serealizing.ts:9-26 | `serializeDates` turns the in-memory technology into its wire form, every date an ISO string |
| WireFormat.ParseTransitionWire | frontend/src/libraries/api/technologies/schemas.ts:21-25 | the wire form of a transition whose ADR link `z.url` yields unchanged validates to the same transition |
| WireFormat.ParseHistoryWire | frontend/src/libraries/api/technologies/schemas.ts:27-30 | the wire form of a history whose ADR links `z.url` yields unchanged validates to the same history |
| WireFormat.ParseTechnologyWire | frontend/src/libraries/api/technologies/schemas.ts:32-39 | the wire form of a well-formed technology (its URLs ones `z.url` yields unchanged) validates to the same technology |
| WireFormat.SerializedTechnologyValidates | frontend/src/libraries/serealizing.ts:9-26 | serialised with `serializeDates`, then validated with `TechnologySchema`, a well-formed technology (non-empty name, URLs `z.url` yields unchanged) is itself again, provided `Date.parse` reads what `toISOString` writes |
| Colors.ToInt32 | frontend/src/libraries/colors.ts:5-6 | the 32-bit result is congruent to its argument modulo 2^32 |
| Colors.Hash | frontend/src/libraries/colors.ts:4-7 | the unsigned hash is below 2^32 |
| Colors.HashStep | frontend/src/libraries/colors.ts:5-6 | one step as written: the shift wraps to a signed 32-bit value, and `hash & hash` wraps the sum; `HashStepIsModular` states what it computes |
| Colors.HashStepIsModular | frontend/src/libraries/colors.ts:5-6 | one step as written (shift, subtract, add, `hash & hash`) is `31 * h + c` modulo 2^32 |
| Colors.HexDigit | frontend/src/libraries/colors.ts:11 | a lowercase hex digit that reads back as its value |
| Colors.ToHexString | frontend/src/libraries/colors.ts:11 | one digit below 16, two digits below 256 |
| Colors.HexByte | frontend/src/libraries/colors.ts:11 | a group is always two characters |
| Colors.HexByteRoundTrip | frontend/src/libraries/colors.ts:11 | a group is two lowercase hex digits that read back as the byte |
| Colors.Byte | frontend/src/libraries/colors.ts:10 | a masked byte is below 256 |
| Colors.ShiftRightBytes | frontend/src/libraries/colors.ts:10 | `hash >> (i * 8)` for the three shifts used: division by 2^(8i) rounding down, which propagates the sign |
| Colors.ShiftedByte | frontend/src/libraries/colors.ts:10 | the sign-propagating shift and mask pick byte `k` of the 32-bit pattern |
| Colors.TopByteIgnored | frontend/src/libraries/colors.ts:9-11 | the top byte, and so the sign, of the hash does not affect the colour |
| Colors.ColorShape | frontend/src/libraries/colors.ts:3-13 | every colour is `#` and six characters, lowercase hex for a non-empty text |
| Colors.ColorGroups | frontend/src/libraries/colors.ts:8-13 | the `k`-th two-digit group reads back as byte `k` of the hash |
| Colors.ColorOf | frontend/src/libraries/colors.ts:3-13 | white for the empty string, else `#` and the three low bytes of the hash in two-digit groups; `ColorShape` and `ColorGroups` state its shape and digits |
| Colors.GenerateColorFromString | frontend/src/libraries/colors.ts:1-14 | the two loops compute `ColorOf`: white for the empty string, else the three low bytes of the hash |

## Left out

- Network I/O: `fetch` and `Response` are parameters. A `fetch` that rejects (a network error) is not modelled, because the server function always gives a response. Consuming a body stream only once (`response.clone`) is not modelled either.
- Asynchrony, and the orchestration around the client: optimistic store updates, reverting on a failed remote call, toasts and loading state. All of these are UI-side concurrency.
- The wording of zod's built-in messages, `Date.parse`, `z.url()` (what it accepts and what it yields) and `toISOString` are parameters, not implementations. The revalidation results hold for URLs that `z.url` yields unchanged; that `z.url` behaves so is a premise, not proved.
- The wording of the `SyntaxError` that `response.json()` raises is a parameter of the response.
- RegistryClient.AddTechnology: the model's schemas compute only the first issue, so the thrown ZodError carries that one. zod's ZodError holds every issue in `issues` and lists them all in its message, which is what the code that displays a thrown error shows.
- RegistryClient.UpdateTechnology: the thrown ZodError likewise carries only the first issue, where zod's holds and lists every issue.
- The text output of `JSON.stringify` and of `URLSearchParams` is not modelled. A request body is the value handed to `JSON.stringify`, and a query is its list of entries, not the percent-encoded string.
- RegistryClient.AsciiEncodingRoundTrip: the decoding direction is proved for ASCII names only. Beyond ASCII, what is proved is the encoding's shape and that it is URI-safe.
- RegistryClient.EncodeURIComponent: names holding a lone surrogate are outside the model, because Dafny characters are Unicode scalar values. For such a name `encodeURIComponent` throws `URIError` after the blank-name guard, and delete and update send no request.
- `serializeDates` on values outside the JSON model (functions, class instances, `Map`) is not modelled.
- URL resolution is not modelled: `fetch` resolving a dot-segment (the path `/technologies/..` for the name `..`) to another resource is outside the model; `DotNamesUnescaped` shows such names reach it unescaped.
- TechnologyStore.EditedList: one `now` is shared by every record the edit rebuilds; the source calls `new Date()` once per rebuilt record, which differs only when several records share the edited name.
- The user interface, the backend and the earlier superseded versions of these files are not modelled.
