# Hunspell batch bridge — a verified model

This project models `src/check.cpp` of the R package that binds the Hunspell
spell-checker. The file exports five batch operations: `info`, `check`,
`suggest`, `analyze` and `stem`. All five follow one skeleton:

1. load an affix/dictionary pair into a Hunspell handle;
2. open iconv converters for the dictionary's declared encoding;
3. loop over the input words;
4. convert each word and call the engine, or record a default when conversion fails;
5. push one result per word;
6. release the handle.

The linguistic engine, the loader and the character conversion are foreign
code. They are modelled as caller-supplied functions:

- `Engine.Engine` holds `spell`, `suggest`, `analyze` and `stem`. Each is a
  function of the session vocabulary and the engine-encoded word.
- `Engine.Bridge` holds the two conversions for a named encoding. `fromHost`
  is partial (`Option`) and `toHost` is total.
- `Engine.Loader` maps an (affix, dictionary) path pair to an optional `Dictionary`.

The Hunspell object is the class `Engine.Handle`. Its fields are the
declared encoding, the word characters, the engine and the mutable session
vocabulary. A ghost log records every call made on it. A ghost `released`
flag forbids any use after `delete`.

The batch loops are methods in module `Batch` with `while` loops. Each method
is proved against a specification function in `BatchSpec`. Lemmas in the same
module prove:

- the output has one slot per word;
- each slot depends on its own word only;
- a word that does not convert gets the failure default;
- the ignore list adds exactly the words that convert;
- every addition precedes every spell call;
- the handle is released once, as the last call.

`Scenario` works one concrete batch through the check specification.

Three details of the source are kept as written:

- `stem` never checks whether the handle was built. `Batch.Stem` therefore has
  no load-failure path and requires the pair to load. The other four operations
  return `Failure(LoadFailed(...))`.
- The error texts differ between operations, and the model keeps both.
  `info` and `check` say "Failed to load file " followed by the dictionary path.
  `suggest` and `analyze` say "Failed to load " followed by the path.
- `suggest`, `analyze` and `stem` never add to the session. Their engine calls
  therefore see an empty session vocabulary.

## Model

| member | source | states |
|---|---|---|
| `Engine.Handle.constructor` | src/check.cpp:11 | a fresh handle carries the loaded dictionary's encoding, word characters and engine, an empty session vocabulary, and has made no calls |
| `Engine.Handle.Add` | src/check.cpp:40 | adding a word inserts exactly that word into the session vocabulary and is logged |
| `Engine.Handle.Spell` | src/check.cpp:50 | the verdict is the engine's on the current session vocabulary; the vocabulary is unchanged |
| `Engine.Handle.Query` | src/check.cpp:79 | the list is the selected engine operation's on the current vocabulary, in engine order; the vocabulary is unchanged |
| `Engine.Handle.Delete` | src/check.cpp:58 | the handle is released, after which no operation may be called on it |
| `Batch.Info` | src/check.cpp:8-24 | on load failure, an error naming the dictionary and no handle calls; otherwise the path as given, the declared encoding and the word characters converted back to host text, with one release |
| `Batch.Check` | src/check.cpp:27-60 | on load failure, an error and no calls; otherwise the output equals the check specification over the vocabulary built by the ignore loop; the handle's calls are all additions, then all spell calls, then one release |
| `Batch.ConvertList` | src/check.cpp:81-82 | the converted list has as many entries as the engine's list, and entry j is element j of the engine list converted to host text |
| `Batch.RunQueries` | src/check.cpp:75-86 | the output equals the list specification for the query; the session vocabulary is unchanged; one query is logged per word that converts |
| `Batch.Suggest` | src/check.cpp:63-91 | on load failure, an error and no calls; otherwise the list specification for suggest over an empty session, queries in word order, then one release |
| `Batch.Analyze` | src/check.cpp:94-122 | on load failure, an error and no calls; otherwise the list specification for analyze over an empty session, queries in word order, then one release |
| `Batch.Stem` | src/check.cpp:125-151 | with a dictionary that loads, the list specification for stem over an empty session, queries in word order, then one release; no load-failure path exists |
| `BatchSpec.CheckSpecLength` | src/check.cpp:46-56 | the check output has exactly one flag per input word |
| `BatchSpec.CheckSpecAt` | src/check.cpp:48-55 | flag i is false when word i does not convert, and otherwise is the engine's verdict on the converted word i |
| `BatchSpec.CheckSpecSplit` | src/check.cpp:47-56 | checking a concatenated batch gives the concatenation of the two halves' results, so no word affects another slot |
| `BatchSpec.IgnoredContains` | src/check.cpp:37-43 | an engine word is in the session after the ignore loop iff it was there before or some ignore word converts to it |
| `BatchSpec.IgnoreWordAccepted` | src/check.cpp:37-55 | if the engine accepts session words, a checked word that converts like an ignore word is reported correct |
| `BatchSpec.ListSpecLength` | src/check.cpp:75-86 | a list output has exactly one list per input word |
| `BatchSpec.ListSpecAt` | src/check.cpp:76-85 | list i is empty when word i does not convert; otherwise it has the engine list's length, and entry j is the engine's j-th string converted back |
| `BatchSpec.ListSpecSplit` | src/check.cpp:104-117 | querying a concatenated batch gives the concatenation of the two halves' results, so no word affects another position |
| `BatchSpec.AddCallsAreAdds` | src/check.cpp:37-43 | every engine call of the ignore loop is an addition |
| `BatchSpec.SpellCallsAreSpells` | src/check.cpp:47-56 | every engine call of the check loop is a spell call, made against the same vocabulary |
| `BatchSpec.AskCallsAreAsks` | src/check.cpp:133-146 | every engine call of a list loop is that loop's query, made against the same vocabulary |
| `BatchSpec.CheckTraceOrder` | src/check.cpp:37-58 | in a check call no addition follows a spell call, every spell call sees the vocabulary left by the whole ignore loop, and the release is the one and only last call |
| `BatchSpec.ListTraceOrder` | src/check.cpp:75-89 | in a list call every call before the last is the batch's query against an empty session, and the last is the release |
| `Scenario.ColourScenario` | src/check.cpp:46-56 | with an ISO-8859-1 dictionary knowing "color" and the ignore list ["colour"], checking ["color", "colour", an emoji] gives [true, true, false] |

## Left out

- Hunspell's internals (affix rules, lookup, suggestion ranking, analysis, stemming): foreign code. The engine operations are arbitrary functions.
- The iconv conversion (`iconv_from_r`, `iconv_to_r`, `string_from_r`, `string_to_r`): `convert.h` is not part of this model. Conversion is an arbitrary partial function and an arbitrary total function per encoding. The host-to-engine-to-host round trip is a property of iconv, not of this file, so it is not stated.
- Failure to open a converter for an unsupported encoding: `convert.h` is not part of this model, so it is not represented.
- `iconv_close`, `free`, `free_list`: manual memory management. Only the release of the Hunspell handle is tracked, through the ghost log.
- Rcpp marshalling (`StringVector`, `List`, `CharacterVector`, `List::create`, NA strings): host vectors are sequences.
- `Batch.Info`: the engine's `get_wordchars` is modelled as a field of the loaded dictionary.
- Loading: whether `new Hunspell(...)` can yield null is not modelled. Load failure is an abstract `None` from the loader.
- Exceptions thrown in the middle of a loop, and the release on such paths, are not modelled.
- `Batch.Stem`: its `requires` stands for the missing null check. A pair that does not load has no modelled outcome.
