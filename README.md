# Scan-format resolution of SchafferZxingLibrary, in Dafny

This project models `DecodeFormatManager`, the part of the scanning library
that decides which barcode symbologies the decoder should try for a scan
request. A request is an optional list of format-name tokens and an optional
scan-mode name. Callers send it either as an application intent (one
comma-separated string extra) or as a URI (repeated query values).

The model has five modules:

- `Wrappers` (`wrappers.dfy`): `Option`. `None` stands for Java's `null`.
- `BarcodeFormats` (`barcode_formats.dfy`): ZXing's `BarcodeFormat` enum as a
  closed datatype with one constructor per constant, with `name()` and
  `valueOf`. `valueOf` is an exact, case-sensitive lookup over the constants
  in declaration order (`VALUES`), and returns `None` where Java throws
  `IllegalArgumentException`. `Ordinal` and `ValuesAtOrdinal` are proof
  helpers for the completeness of that lookup. They do not model an operation
  the resolver uses.
- `CommaSplit` (`comma_split.dfy`): `Pattern.compile(",").split(s)` with
  Java's limit-0 rules, written out directly. A string with no comma splits
  to itself, so `""` gives `[""]`. Otherwise the result is the pieces between
  commas with the trailing empty pieces dropped. So `"A,"` gives `["A"]`,
  `","` gives `[]`, and `"A,,B"` keeps its empty middle piece.
- `DecodeFormatManager` (`decode_format_manager.dfy`): the fixed symbology
  groups, the `FORMATS_FOR_MODE` table, and the resolution rule `Resolve`. It
  also holds three methods for the three `parseDecodeFormats` overloads. The
  core overload keeps the source's `for` loop: `TryParseAll` accumulates into
  a set and stops at the first token that does not parse. Each method is
  proved equal to `Resolve` applied to the normalised request. The two
  carriers are the datatypes `Intent` and `Uri`.
- `DecodeFormatProperties` (`decode_format_properties.dfy`): the lemmas
  stating what the table, the resolver and the carriers promise.

The resolution rule works as follows:
- A present token list wins outright when every token is a constant name.
  The result is exactly the set of formats named, so duplicates and order do
  not matter.
- When one token is not a constant name, the whole list is discarded and the
  mode decides.
- A mode that is not one of the six names, or no mode at all, gives `None`,
  meaning "decode everything".

The one-dimensional group (`DecodeFormatManager.java:45-57`) is built from
six product and five industrial formats. These are disjoint, so the group has
eleven members, which `OneDimensionalGroupSize` proves.

## Model

| member | source | states |
|---|---|---|
| `BarcodeFormats.Name` | app/src/main/java/com/schaffer/zxinglibrary/decode/DecodeFormatManager.java:97 | `Enum.name()`: the constant's own identifier. Per `NameShape` it is non-empty and made of capitals, digits and underscores; per `NameInjective` distinct constants have distinct names |
| `BarcodeFormats.ValueOf` | app/src/main/java/com/schaffer/zxinglibrary/decode/DecodeFormatManager.java:97 | `BarcodeFormat.valueOf`: by `ValueOfSound` a result carries exactly the token as its name, and by `ValueOfName` every name finds its constant. So `ValueOf(s) == Some(f)` exactly when `Name(f) == s`, and it is `None` (Java throws) otherwise |
| `BarcodeFormats.LookupSound` | app/src/main/java/com/schaffer/zxinglibrary/decode/DecodeFormatManager.java:97 | the name lookup finds only a constant with exactly the requested name, and finds nothing only when no listed constant has that name |
| `BarcodeFormats.ValueOfSound` | app/src/main/java/com/schaffer/zxinglibrary/decode/DecodeFormatManager.java:97 | whatever `valueOf` returns carries exactly the requested name (case-sensitive, no trimming) |
| `BarcodeFormats.ValueOfName` | app/src/main/java/com/schaffer/zxinglibrary/decode/DecodeFormatManager.java:97 | `valueOf` inverts `name()`: every constant is found under its own name |
| `BarcodeFormats.NameInjective` | app/src/main/java/com/schaffer/zxinglibrary/decode/DecodeFormatManager.java:97 | two constants with the same name are the same constant |
| `BarcodeFormats.ValueOfUnknown` | app/src/main/java/com/schaffer/zxinglibrary/decode/DecodeFormatManager.java:97-100 | a string that is no constant's name does not parse (Java throws, and the model returns `None`) |
| `BarcodeFormats.ValueOfRejectsSeparators` | app/src/main/java/com/schaffer/zxinglibrary/decode/DecodeFormatManager.java:97 | a token holding a comma or a space never parses, so whitespace is not trimmed |
| `BarcodeFormats.ParsedTokenShape` | app/src/main/java/com/schaffer/zxinglibrary/decode/DecodeFormatManager.java:97 | a token that parses is non-empty and holds no comma and no space |
| `CommaSplit.Pieces` | app/src/main/java/com/schaffer/zxinglibrary/decode/DecodeFormatManager.java:34 | the pieces between commas: at least one, none containing a comma |
| `CommaSplit.DropTrailingEmpty` | app/src/main/java/com/schaffer/zxinglibrary/decode/DecodeFormatManager.java:79 | the result is a prefix of the input, everything dropped is empty, and the result is empty or ends in a non-empty piece |
| `CommaSplit.Split` | app/src/main/java/com/schaffer/zxinglibrary/decode/DecodeFormatManager.java:79 | a comma-free string splits to itself; otherwise the result is the comma-separated pieces minus the trailing empty ones; no token contains a comma |
| `CommaSplit.JoinOfPieces` | app/src/main/java/com/schaffer/zxinglibrary/decode/DecodeFormatManager.java:79 | joining the pieces with commas gives back the original string |
| `CommaSplit.PiecesOfJoin` | app/src/main/java/com/schaffer/zxinglibrary/decode/DecodeFormatManager.java:79 | the pieces of comma-joined comma-free strings are those strings |
| `CommaSplit.SplitOfJoin` | app/src/main/java/com/schaffer/zxinglibrary/decode/DecodeFormatManager.java:79 | round trip: comma-free tokens ending in a non-empty one (or a single token) come back unchanged from splitting their joined form |
| `CommaSplit.SplitIgnoresTrailingComma` | app/src/main/java/com/schaffer/zxinglibrary/decode/DecodeFormatManager.java:79 | after a non-empty string a trailing comma changes nothing; `","` splits to no tokens and `""` to one empty token |
| `DecodeFormatManager.FormatsForMode` | app/src/main/java/com/schaffer/zxinglibrary/decode/DecodeFormatManager.java:60-70 | a group is found exactly for the six mode names; a found group is non-empty and within the catalogue |
| `DecodeFormatManager.ParseAll` | app/src/main/java/com/schaffer/zxinglibrary/decode/DecodeFormatManager.java:94-102 | a set comes back exactly when every token parses (all-or-nothing) |
| `DecodeFormatManager.ParseAllMembers` | app/src/main/java/com/schaffer/zxinglibrary/decode/DecodeFormatManager.java:94-99 | when every token parses, a format is in the result exactly when some token names it |
| `DecodeFormatManager.TryParseAll` | app/src/main/java/com/schaffer/zxinglibrary/decode/DecodeFormatManager.java:94-102 | the accumulating loop with early exit computes `ParseAll` |
| `DecodeFormatManager.Resolve` | app/src/main/java/com/schaffer/zxinglibrary/decode/DecodeFormatManager.java:92-108 | the resolution rule. A fully valid present list gives exactly the named formats, whatever the mode (`ExplicitListWins`). One bad token gives the mode-only result (`InvalidTokenFallsBackToMode`). The result is present exactly when the list is fully valid or the mode is one of the six (`ResolvePresentExactly`) |
| `DecodeFormatManager.ParseDecodeFormats` | app/src/main/java/com/schaffer/zxinglibrary/decode/DecodeFormatManager.java:92-108 | the core overload returns the resolution of its token list and mode |
| `DecodeFormatManager.IntentTokens` | app/src/main/java/com/schaffer/zxinglibrary/decode/DecodeFormatManager.java:76-80 | the intent's token list: absent when the extra is absent (`IntentWithoutFormatsUsesMode`), otherwise the comma split of the extra. So `""` gives one failing token (`IntentEmptyFormats`), `","` gives none (`IntentLoneComma`), and joined names come back as those names (`IntentJoinedNames`) |
| `DecodeFormatManager.ParseIntentFormats` | app/src/main/java/com/schaffer/zxinglibrary/decode/DecodeFormatManager.java:75-82 | the intent overload resolves the comma-split format extra (absent stays absent) with the mode extra passed unchanged |
| `DecodeFormatManager.UriTokens` | app/src/main/java/com/schaffer/zxinglibrary/decode/DecodeFormatManager.java:85-88 | the URI's token list. Exactly one value is split like the intent extra (`UriSingleValueLikeIntent`, `UriSingleValueSplitLikeRepeated`). Several values are passed unsplit (`UriRepeatedValuesNotSplit`), and an empty list stays an empty list (`UriNoValuesGivesEmptySet`) |
| `DecodeFormatManager.ParseUriFormats` | app/src/main/java/com/schaffer/zxinglibrary/decode/DecodeFormatManager.java:84-90 | the URI overload resolves a single value comma-split and several values unsplit, with the mode parameter passed unchanged |
| `DecodeFormatProperties.ModeTableKeys` | app/src/main/java/com/schaffer/zxinglibrary/decode/DecodeFormatManager.java:63-69 | the table's keys are exactly the six mode names |
| `DecodeFormatProperties.ModeGroupsWellFormed` | app/src/main/java/com/schaffer/zxinglibrary/decode/DecodeFormatManager.java:39-69 | every group in the table is non-empty and drawn from the catalogue |
| `DecodeFormatProperties.OneDimensionalGroupSize` | app/src/main/java/com/schaffer/zxinglibrary/decode/DecodeFormatManager.java:45-57 | product (6) and industrial (5) groups are disjoint, so the one-dimensional group has 11 members |
| `DecodeFormatProperties.ModeGroups` | app/src/main/java/com/schaffer/zxinglibrary/decode/DecodeFormatManager.java:39-69 | each mode name selects its group: product six, product plus industrial, and the four singletons |
| `DecodeFormatProperties.ExplicitListWins` | app/src/main/java/com/schaffer/zxinglibrary/decode/DecodeFormatManager.java:93-99 | a fully valid list gives exactly the formats its tokens name, whatever the mode |
| `DecodeFormatProperties.TokenOrderIrrelevant` | app/src/main/java/com/schaffer/zxinglibrary/decode/DecodeFormatManager.java:94-99 | two lists with the same tokens, in any order and with any repetition, resolve alike |
| `DecodeFormatProperties.InvalidTokenFallsBackToMode` | app/src/main/java/com/schaffer/zxinglibrary/decode/DecodeFormatManager.java:95-107 | one unparsable token gives the mode-only result, never a partial set |
| `DecodeFormatProperties.EmptyListGivesEmptySet` | app/src/main/java/com/schaffer/zxinglibrary/decode/DecodeFormatManager.java:93-99 | a present but empty list gives the empty set, not absent |
| `DecodeFormatProperties.AbsentOrUnknownModeGivesAbsent` | app/src/main/java/com/schaffer/zxinglibrary/decode/DecodeFormatManager.java:104-107 | no list and no mode, or no list and an unknown mode, give absent |
| `DecodeFormatProperties.ResolvePresentExactly` | app/src/main/java/com/schaffer/zxinglibrary/decode/DecodeFormatManager.java:92-108 | the result is present exactly when the list is present and fully valid or the mode is one of the six; it always lies within the catalogue |
| `DecodeFormatProperties.ParseAllAppend` | app/src/main/java/com/schaffer/zxinglibrary/decode/DecodeFormatManager.java:96-97 | parsing one more token adds its format, or fails when that token does not parse |
| `DecodeFormatProperties.TwoNamesResolve` | app/src/main/java/com/schaffer/zxinglibrary/decode/DecodeFormatManager.java:96-99 | the names of two formats resolve to the set of those two, whatever the mode |
| `DecodeFormatProperties.ExplicitListOverModeExample` | app/src/main/java/com/schaffer/zxinglibrary/decode/DecodeFormatManager.java:122-123 | `["QR_CODE", "AZTEC"]` gives `{QR_CODE, AZTEC}` under any mode |
| `DecodeFormatProperties.RepeatedNameExample` | app/src/main/java/com/schaffer/zxinglibrary/decode/DecodeFormatManager.java:94-99 | `["EAN_8", "EAN_8"]` gives `{EAN_8}` |
| `DecodeFormatProperties.UnknownNameFallsBackExample` | app/src/main/java/com/schaffer/zxinglibrary/decode/DecodeFormatManager.java:100-105 | `["NOT_A_FORMAT"]` with the QR mode gives `{QR_CODE}` |
| `DecodeFormatProperties.OneDimensionalModeExample` | app/src/main/java/com/schaffer/zxinglibrary/decode/DecodeFormatManager.java:56-64 | with no list, the one-dimensional mode gives product plus industrial |
| `DecodeFormatProperties.IntentWithoutFormatsUsesMode` | app/src/main/java/com/schaffer/zxinglibrary/decode/DecodeFormatManager.java:76-81 | an intent with no format extra resolves by its mode alone |
| `DecodeFormatProperties.IntentEmptyFormats` | app/src/main/java/com/schaffer/zxinglibrary/decode/DecodeFormatManager.java:78-81 | an empty format extra becomes one empty token, which fails, so the mode decides |
| `DecodeFormatProperties.IntentLoneComma` | app/src/main/java/com/schaffer/zxinglibrary/decode/DecodeFormatManager.java:79 | a format extra of `","` becomes no tokens and selects the empty set |
| `DecodeFormatProperties.IntentSpacesNotTrimmed` | app/src/main/java/com/schaffer/zxinglibrary/decode/DecodeFormatManager.java:79 | `" EAN_8"` is not trimmed, fails, and the mode decides |
| `DecodeFormatProperties.IntentJoinedNames` | app/src/main/java/com/schaffer/zxinglibrary/decode/DecodeFormatManager.java:75-82 | valid names joined with commas resolve as the list of those names does, to exactly the formats named |
| `DecodeFormatProperties.UriSingleValueLikeIntent` | app/src/main/java/com/schaffer/zxinglibrary/decode/DecodeFormatManager.java:86-87 | a single URI value is split exactly as the intent's format extra is |
| `DecodeFormatProperties.UriSingleValueSplitLikeRepeated` | app/src/main/java/com/schaffer/zxinglibrary/decode/DecodeFormatManager.java:85-89 | one joined value of comma-free tokens resolves the same as those tokens given as repeated values |
| `DecodeFormatProperties.UriEanExample` | app/src/main/java/com/schaffer/zxinglibrary/decode/DecodeFormatManager.java:85-89 | `"EAN_13,EAN_8"` as one value and as two values both give `{EAN_13, EAN_8}` |
| `DecodeFormatProperties.UriRepeatedValuesNotSplit` | app/src/main/java/com/schaffer/zxinglibrary/decode/DecodeFormatManager.java:85-89 | among several values none is split, so a value holding a comma fails the whole list and the mode decides |
| `DecodeFormatProperties.UriNoValuesGivesEmptySet` | app/src/main/java/com/schaffer/zxinglibrary/decode/DecodeFormatManager.java:85-99 | a present but empty list of URI values gives the empty set, and the mode is not consulted |

## Left out

- Android's `Intent.getStringExtra`, `Uri.getQueryParameters` and `Uri.getQueryParameter` are outside this model. The carriers are datatypes with optional fields holding what those accessors return under the keys `SCAN_FORMATS` and `SCAN_MODE`. What the platform returns for a missing parameter is also outside the model. If it returns an empty list, `UriNoValuesGivesEmptySet` shows that the mode is ignored.
- A `null` element in the URI value list is left out, and so is the resulting `NullPointerException` from `valueOf(null)`. That exception is not caught at line 100 and is not a designed behaviour. Tokens are always strings here.
- The regular-expression engine is left out. The comma split is written out directly with the limit-0 rules of `Pattern.split`.
- ZXing's `BarcodeFormat` is treated only as a closed enum of its seventeen constants. Its decoders are outside this model.
- The groups and the mode table are values. Java returns the shared static `EnumSet` objects, so a caller that mutated one would change the table. That aliasing is not modelled.
- The remaining `Scan` string keys are left out: the action, camera id, character set, size, duration, prompt, result and history keys. They carry no logic.
- Resolving the same request twice gives the same set because nothing is stored between calls. The model states this through each method's postcondition, which equates its result with the function `Resolve`. There is no separate lemma.
