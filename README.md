# dpaparser YAML materialiser, modelled in Dafny

dpaparser turns a YAML document into generic C containers: strings (`gen_string_t`),
ordered association lists (`gen_map_t`), lists of strings (`gen_list_t`), `long` integers
and booleans. It works by pulling tokens from libyaml's tokenizer. `src/yamlparser.c` holds
the pieces this project models:

- the map, list and skip-unknown-mapping assemblers;
- the scalar leaf converters (`parse_integer`, `parse_yaml_integer`, `parse_yaml_boolean`,
  `parse_yaml_string`);
- the release functions `free_yaml_*`;
- the entry point `parse_yaml`.

Module layout:

- `Tokens` (tokens.dfy): the tokens the materialiser tells apart, with every other libyaml
  token kind folded into `Other`. Also the parser context as a value (`Context`: the token
  stream and its cursor, the current text span, the structural state, the `done` flag).
  Reading at or past the end of the stream stands for a failed `yaml_parser_scan`.
- `Containers` (containers.dfy): the containers as datatypes and the caller's `T**` out-slot
  as a `Slot` class. The string, map and list release methods return the data buffers they
  release, so "every owned buffer is released exactly once" can be stated as a multiset
  equality.
- `Scalars` (scalars.dfy): `strtol(value, &end, 0)` as section 7.22.1.4 of ISO C11 describes
  it for base 0, with `long` taken as 64 bits and saturation with ERANGE written out.
  Also `parse_integer`, the inverse `DecimalText`/`Digits` with round-trip lemmas, and the
  `strcmp`-based `yes`/`no` test.
- `MapAssembly`, `ListAssembly`, `SkipUnknown`: each loop's per-token transition
  (`MapStep`, `ListStep`) and the whole loop as a recursive function (`MapRun`, `ListRun`,
  `SkipRun`). Every property of the assemblers is proved as a lemma about these functions.
- `YamlParser` (parser.dfy): `gen_parser_t` as the class `Parser`, whose fields the
  assemblers update in place. Each C loop is a `while` loop proved to end in exactly the
  state and slot content the corresponding function gives.
- `Driver` (driver.dfy): `parse_yaml`. The builder (`parser_func`) and the teardown
  (`free_func`) are function parameters.

The model keeps the source's quirks as written:

- A key committed with a null value records the length of the key read after it
  (:167, :183).
- A value scalar with no pending key is stored under a null key with the last key length
  (:231-232).
- A pending key that has stopped being fresh is dropped without an entry (:169-172).
- `strcmp` compares only up to the first NUL byte.
- The skip loop, entered with `done` already set, stops after one token.
- The skip loop (:348-351) and the map loop (:216-218) act on every end-of-block token,
  including the one that closes an indented block sequence, whose start they do not count.
  The skip therefore stops one level early. The map loop stops inside a sequence-valued
  entry, after pairing the sequence's first scalar with the key.

## Model

| member | source | states |
|---|---|---|
| Containers.FreeYamlInteger | src/yamlparser.c:11-15 | the slot is null afterwards, whether or not it held an integer |
| Containers.FreeYamlBoolean | src/yamlparser.c:17-21 | the slot is null afterwards, whether or not it held a boolean |
| Containers.FreeYamlString | src/yamlparser.c:75-82 | the slot is null afterwards; nothing is released for a null slot, otherwise exactly the string's buffer if it has one |
| Containers.FreeYamlMap | src/yamlparser.c:84-98 | the slot is null afterwards; the released buffers are, as a multiset, exactly the non-null keys and values of all entries: none leaked, none freed twice |
| Containers.FreeYamlList | src/yamlparser.c:100-109 | the slot is null afterwards; the released buffers are, as a multiset, exactly the elements' buffers |
| Scalars.Subject | src/yamlparser.c:46 | the subject sequence strtol recognises in base 0: white space, an optional sign, then a hexadecimal, octal or decimal constant, as (value, end offset), with nothing consumed when there is none |
| Scalars.Constant | src/yamlparser.c:46 | the constant after the sign: "0x"/"0X" with at least one hex digit, a leading 0 for octal, otherwise decimal |
| Scalars.Strtol | src/yamlparser.c:46 | the end offset is the subject's; ERANGE is set exactly when the subject's value is outside the 64-bit `long` range; an in-range value is returned unchanged, one out of range is clamped to LONG_MAX or LONG_MIN on its side |
| Scalars.ParseInteger | src/yamlparser.c:44-57 | a success comes only from a non-empty span and lies in the `long` range |
| Scalars.DecimalRoundTrip | src/yamlparser.c:44-57 | any integer's decimal text, after any leading white space, parses back to that integer if it fits in a `long`, and is rejected as out of range otherwise |
| Scalars.HexRoundTrip | src/yamlparser.c:44-57 | for any integer, its sign, `0x` and its hexadecimal digits, after any white space, parse back to it when it fits a `long`, and are out of range otherwise |
| Scalars.OctalRoundTrip | src/yamlparser.c:44-57 | for any integer, its sign, a leading `0` and its octal digits, after any white space, parse back to it when it fits a `long`, and are out of range otherwise |
| Scalars.OctalExamples | src/yamlparser.c:46-50 | `010` is octal and parses to 8; `08` and `0x` stop after the `0` and are unparsable |
| Scalars.TrailingBytesRejected | src/yamlparser.c:47-50 | a positive decimal number followed by a byte that is not a decimal digit is rejected as unparsable, because strtol stops short of the span's end (after a lone `0`, an `x` can still start a hexadecimal constant) |
| Scalars.UnparsableExamples | src/yamlparser.c:47-50 | the empty span and `12abc` are unparsable |
| Scalars.DecimalExample | src/yamlparser.c:44-57 | `42` parses to 42 |
| Scalars.HexExample | src/yamlparser.c:44-57 | `0X2A` parses to 42 (base 0 accepts upper-case hex prefixes) |
| Scalars.OnePastLongMax | src/yamlparser.c:51-54 | LONG_MAX + 1 is rejected as out of range |
| Scalars.CString | src/yamlparser.c:30-32 | the bytes strcmp compares: a prefix of the span with no NUL, ending at the first NUL if there is one |
| Scalars.BooleanValue | src/yamlparser.c:30-39 | `yes` is true, `no` is false, anything else is rejected, compared as strcmp does; its properties are BooleanAcceptsExactly and BooleanStopsAtNul |
| Scalars.BooleanAcceptsExactly | src/yamlparser.c:30-39 | for a span without NUL bytes: true iff it is `yes`, false iff it is `no`, rejected iff it is neither |
| Scalars.BooleanStopsAtNul | src/yamlparser.c:30-31 | `yes`, a NUL, then any bytes still reads as true, because strcmp stops at the NUL |
| MapAssembly.AfterKey | src/yamlparser.c:166-198 | the locals after a scalar read while expecting a key: it becomes the fresh pending key; an older pending key is committed with a null value if still fresh, and dropped otherwise |
| MapAssembly.MapStep | src/yamlparser.c:158-245 | one token's switch and append; it never moves the cursor or changes the stream. Its effect per token is stated by FreshFlag, ReadsKey, ReadsValue and RejectsNestedMapping, and Parser.MapToken is proved equal to it |
| MapAssembly.MapRun | src/yamlparser.c:148-256 | the map loop from given locals. Its termination and results are stated by MapStopsAtBoundary, MapAppendsOnly and MapReadsPairs, and Parser.ParseYamlMap is proved equal to it |
| MapAssembly.AssembleMap | src/yamlparser.c:128-257 | the state guard, then the map loop from an empty map; stated by MapGuard and AssemblesFlatMapping |
| MapAssembly.MapGuard | src/yamlparser.c:131-132 | outside the "inside a mapping" state the map assembler fails, reads no token and leaves the slot alone |
| MapAssembly.MapAppendsOnly | src/yamlparser.c:174-245 | the map loop always leaves a map in the slot, and entries already committed are never changed: the map only grows at its end |
| MapAssembly.MapStopsAtBoundary | src/yamlparser.c:148-249 | the loop reads up to and including the first end-of-block, stream-end or mapping start; it succeeds iff that token ends the block or stream, `done` is set unless it was an end-of-block, and with no such token it fails at the end of input with `done` set |
| MapAssembly.MapStopsHere | src/yamlparser.c:206-218 | the loop's last token decides success (end-of-block, stream-end) or failure (mapping start), and `done` |
| MapAssembly.ReadsKey | src/yamlparser.c:159-198 | a key marker and key scalar make the scalar the pending key, committing or dropping an older one by the recovery rule |
| MapAssembly.ReadsValue | src/yamlparser.c:222-245 | a value marker and value scalar append one entry pairing the pending key (or null) with a copy of the scalar, and clear the pending key |
| MapAssembly.ReadsPair | src/yamlparser.c:159-245 | a key-value pair of scalars with no key pending appends exactly one entry of copies of both |
| MapAssembly.ReadsKeylessValue | src/yamlparser.c:231-232 | a value scalar with no pending key is stored under a null key with the last key length |
| MapAssembly.ReadsOther | src/yamlparser.c:219 | a token the assembler does not handle only clears the fresh flag |
| MapAssembly.EndsOnBlockEnd | src/yamlparser.c:216-218 | an end-of-block ends the loop successfully with `done` clear and the entries kept |
| MapAssembly.EndsOnStreamEnd | src/yamlparser.c:247-249 | a stream-end ends the loop successfully with `done` set and the entries kept |
| MapAssembly.MapReadsPairs | src/yamlparser.c:148-249 | well-formed input (pairs, then an end-of-block or stream-end) appends exactly one entry per pair, in order, and stops right after the terminator with `done` set iff it was a stream-end |
| MapAssembly.AssemblesFlatMapping | src/yamlparser.c:128-257 | a flat block mapping assembled from the start gives exactly its pairs, copied, in order |
| MapAssembly.CommitsFreshKey | src/yamlparser.c:166-189 | two keys in a row: the first is committed with a null value but with the second key's length, and the second pairs with the value |
| MapAssembly.CommitsKeyWithoutValue | src/yamlparser.c:159-198 | the tokens of `k1:` followed by `k2: v` (a value marker after the first key): the value marker leaves `k1` fresh, so it is committed with a null value and the second key's length, and the second key pairs with the value |
| MapAssembly.DropsStaleKey | src/yamlparser.c:168-172 | a pending key followed by an unhandled token is dropped by the next key, and no entry records it |
| MapAssembly.StoresKeylessValue | src/yamlparser.c:199-245 | a second value scalar after a pair is stored under a null key with the length of the last key |
| MapAssembly.FreshFlag | src/yamlparser.c:146-219 | key, value and end-of-block tokens keep the fresh flag; a key scalar sets it; a value scalar, a stream-end and every unhandled token clear it |
| MapAssembly.RejectsNestedMapping | src/yamlparser.c:206-215 | a block or flow mapping start fails the loop with `done` set, and the map keeps the entries committed so far |
| MapAssembly.DropsTrailingKey | src/yamlparser.c:251-256 | a key still pending when the block ends gets no entry |
| MapAssembly.EndsInsideSequence | src/yamlparser.c:216-218 | a block sequence as a value: its first scalar pairs with the key, and the end-of-block closing the sequence ends the map loop successfully, leaving the mapping's own end-of-block unread |
| ListAssembly.ListStep | src/yamlparser.c:285-330 | one token's switch and append; it never moves the cursor or changes the stream. Parser.ListToken is proved equal to it |
| ListAssembly.ListRun | src/yamlparser.c:275-336 | the list loop from given elements. Its termination and results are stated by ListStopsAtBoundary, ListCollects and ListState, and Parser.ParseYamlList is proved equal to it |
| ListAssembly.AssembleList | src/yamlparser.c:259-337 | the state guard, then the list loop from an empty list; stated by ListGuard and AssemblesBlockSequence |
| ListAssembly.ListGuard | src/yamlparser.c:262-263 | outside the "inside a sequence" state the list assembler fails, reads no token and leaves the slot alone |
| ListAssembly.ListStopsAtBoundary | src/yamlparser.c:275-334 | the loop reads up to and including the first key, block mapping start, end-of-block or stream-end; it succeeds iff that token is an end-of-block or stream-end, `done` is set unless it was an end-of-block, and with no such token it fails at the end of input |
| ListAssembly.ListCollects | src/yamlparser.c:294-330 | the list holds exactly copies of the scalars read before that token, in order, whatever the state |
| ListAssembly.ListState | src/yamlparser.c:291-293 | the state ends as "value" iff a value marker was read (or it already was) |
| ListAssembly.ListStopsHere | src/yamlparser.c:285-308 | the loop's last token decides success and `done`, and appends nothing |
| ListAssembly.ReadsEntry | src/yamlparser.c:294-330 | an entry marker and a scalar make the scalar the current span and append its copy |
| ListAssembly.AssemblesBlockSequence | src/yamlparser.c:259-337 | a block sequence of two scalars gives exactly those two scalars, copied, in order, with `done` clear |
| ListAssembly.RejectsKey | src/yamlparser.c:286-290 | a key inside a sequence fails with `done` set, keeping the elements appended so far |
| SkipUnknown.SkipRun | src/yamlparser.c:339-358 | the skip loop at a given depth; it never changes the stream, never moves the cursor back, and stays within the stream |
| SkipUnknown.SkipMapping | src/yamlparser.c:339-358 | the skip loop from depth one; its results are stated by SkipStops, SkipCloses, SkipRunsOut and SkipStaysOpen, and Parser.SkipUnknownMapping is proved equal to it |
| SkipUnknown.SkipStops | src/yamlparser.c:339-358 | a successful skip has read at least one token, and `done` is set iff the last token was a stream-end |
| SkipUnknown.SkipCloses | src/yamlparser.c:348-356 | a skip that did not stop at a stream-end stopped at the end-of-block that brought the depth back to zero |
| SkipUnknown.SkipRunsOut | src/yamlparser.c:343-347 | a failing skip has used up the input with `done` set, the depth still open and no stream-end read |
| SkipUnknown.SkipStaysOpen | src/yamlparser.c:348-356 | before the last token, the depth never drops to zero or below and no stream-end has been read |
| SkipUnknown.SkipStep | src/yamlparser.c:348-356 | a token that neither ends the stream nor closes the outermost mapping passes the loop on at the new depth |
| SkipUnknown.SkipLast | src/yamlparser.c:352-356 | a stream-end, a token that brings the depth to zero, or any token read with `done` already set is the last one |
| SkipUnknown.SkipsPair | src/yamlparser.c:348-356 | a key-value pair of scalars leaves the depth unchanged |
| SkipUnknown.SkipsNested | src/yamlparser.c:339-358 | a nested mapping inside the skipped one is skipped whole, with the closing end-of-block of both |
| SkipUnknown.SkipsNeutral | src/yamlparser.c:348-356 | tokens that neither open nor close a mapping nor end the stream pass the loop on at the same depth |
| SkipUnknown.StopsOneLevelEarly | src/yamlparser.c:348-356 | a block sequence as a value ends the skip at the sequence's end-of-block, leaving the mapping's own end-of-block unread |
| YamlParser.Parser.constructor | src/yamlparser.c:372-378 | a fresh session: at the start of the stream, no span, inside a mapping, not done |
| YamlParser.Parser.Scan | src/yamlparser.c:150-154 | the next token and the cursor advanced by one, or a failed scan at the end of input |
| YamlParser.Parser.ParseYamlMap | src/yamlparser.c:128-257 | return value, new session and slot content are exactly those of the map assembler function |
| YamlParser.Parser.MapToken | src/yamlparser.c:156-245 | one token's switch and append change the session and the locals exactly as MapStep says |
| YamlParser.Parser.ParseYamlList | src/yamlparser.c:259-337 | return value, new session and slot content are exactly those of the list assembler function |
| YamlParser.Parser.ListToken | src/yamlparser.c:283-330 | one token's switch and append change the session and the elements exactly as ListStep says |
| YamlParser.Parser.SkipUnknownMapping | src/yamlparser.c:339-358 | return value and new cursor and `done` are exactly those of the skip function from depth one |
| YamlParser.Parser.ParseYamlInteger | src/yamlparser.c:59-73 | on success the slot holds the parsed number; on failure `done` is set and the slot is untouched |
| YamlParser.Parser.ParseYamlBoolean | src/yamlparser.c:23-42 | on success the slot holds the truth value of `yes`/`no`; on failure `done` is set and the slot is untouched |
| YamlParser.Parser.ParseYamlString | src/yamlparser.c:111-126 | always succeeds; outside the "value" state the slot is untouched, otherwise it holds a copy of the span and its length |
| Driver.Drive | src/yamlparser.c:360-409 | the teardown runs at most once, and never on success |
| Driver.ParseYaml | src/yamlparser.c:360-409 | return value, out-slot and teardown count are exactly those of Drive |
| Driver.NoDataFound | src/yamlparser.c:390-397 | a stream-end before any block mapping start fails with a null out-slot, and the builder never runs |
| Driver.ScanFails | src/yamlparser.c:384-387 | a stream with neither a block mapping start nor a stream-end fails at the scan with a null out-slot |
| Driver.RunsBuilder | src/yamlparser.c:399-407 | after the first block mapping start the builder gets a fresh session just past it; its success is the result, and on failure the teardown runs exactly once iff it left something in the slot |
| Driver.ParsesFlatDocument | src/yamlparser.c:360-409 | a document holding one flat block mapping, built with the map assembler, gives exactly its pairs, with no teardown |
| Driver.TearsDownPartialMap | src/yamlparser.c:399-407 | a nested mapping after one pair fails the map builder, and the partial one-entry map goes to the teardown once |

## Left out

- Allocation failures (`calloc`, `malloc` and `realloc` returning null) are not modelled. Allocation always succeeds here, so the failure paths that set `done`, and the key leaked by the failing `realloc` at :174-178, are absent.
- YamlParser.Parser.ParseYamlString: does not model the unchecked `malloc` at :121, which dereferences null when allocation fails.
- Scalars.ParseInteger: uses only the ERANGE that `strtol` itself reports. The C reads `errno` without clearing it first, so a stale ERANGE from earlier code together with a text equal to LONG_MIN or LONG_MAX would be rejected there and accepted here.
- `s->value` and `s->length` are one field (`value: seq<byte>`), because they are always assigned together. The model copies the span. In the C, `s->value` points into the token's storage, which `yaml_token_delete` releases. That aliasing, and the dangling pointer it leaves after the loop, are not modelled. The session starts with `.value = 0` at :374, a null pointer, which the model takes as the empty span: where the C would pass NULL to `strtol` or `strcmp` (undefined behaviour) if an integer or boolean were read before any scalar, the model reports the span unparsable or rejected.
- Releasing the key buffer (`free(key)` at :171, :211 and :252) and deleting each token are not tracked. Keys are values in the model. Which keys end up in the map is stated exactly, and the map's own buffers are accounted for by the `free_yaml_*` methods.
- libyaml itself is out of scope: `yaml_parser_initialize` and its failure at :365-368, reading from a `FILE*`, and tokenization. The input is a token sequence, a scan fails only at the end of that sequence, and token kinds the materialiser does not tell apart become `Other`.
- Diagnostics written to stderr are not modelled.
- The generated builders that call these functions (`GEN_UNPACK` and the code generator) are not part of this model. `parse_yaml`'s `parser_func` and `free_func` are function parameters: a builder maps the session to a success flag and slot content, and a teardown maps the slot content to what it leaves behind.
- The state the builder leaves the session in is not returned to `parse_yaml`, because `parse_yaml` does not look at it.
- `long` is fixed at 64 bits, and the C locale's white space is assumed for `strtol`.
