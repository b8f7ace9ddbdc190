# IdFunction vaccination-status lookup, modelled in Dafny

IdFunction is a single HTTP endpoint, `GET /id/{id?}`. It takes a national
ID (13 characters) or a passport number (one letter then eight digits),
checks the identifier's syntax and looks it up in a static JSON dataset of
vaccination records. It answers 400 with `{Error, Message}` for a missing
or malformed identifier. It answers 200 with `{Message, VaccinationData}`
for a valid one. It answers 500 when the dataset cannot be read or parsed.

The model is pure: one function per step of the handler in
`Function/Functions/ID.cs`, plus lemmas. No step of the source has a loop
or mutable state of its own.

- `wrappers.dfy`, module `Wrappers`: `Option` (a C# reference that may be
  null) and `Result` (a step that may fail).
- `id_function.dfy`, module `IdFunction`: the records, the validation
  verdict, the outcome of a request, and the operations
  `ValidateInput`, `ResponseMessage`, `FirstMatchIndex`,
  `GetVaccinationInfo` and `Run`.
- `id_function_properties.dfy`, module `IdFunctionProperties`: lemmas
  relating operations to each other, and the documented examples.

The dataset is a parameter of `Run`: `Success(records)` when the file could
be read and parsed, or `Failure(DatasetUnavailable | DatasetMalformed)`.
A C# `string` is a Dafny `string`, a sequence of Unicode scalar values.
For strings within the Basic Multilingual Plane, `|s|` is the source's
`s.Length`.

The validation is kept as written, lenient case included. Any 13-character
identifier passes, letters too, although the usage hint asks for a
"numerical 13 digit ID" (`ThirteenLettersAccepted`). The condition parses as
`Length == 13 || (Length == 9 && regex)`. Grouping it the other way would
reject every 13-character identifier, so the leniency comes from the
missing digit check, not from operator precedence.

The regular expression `^[A-Za-z][0-9]{8}$` is modelled with .NET's meaning
of `$`, which also matches before a final newline
(`PassportPatternMatches`). The length-9 guard makes that difference
unobservable: for 9 characters the test is exactly "ASCII letter, then eight
ASCII digits" (`IsPassportNumber`).

## Model

| member | source | states |
|---|---|---|
| IdFunction.ValidateInput | Function/Functions/ID.cs:111-128 | Any identifier of length 13 is valid whatever its characters. One of length 9 is valid iff its first character is A-Z or a-z and the other eight are 0-9. Every other length is invalid. The error message is null exactly when the identifier is valid, and every failure carries the fixed usage hint. |
| IdFunction.ResponseMessage | Function/Functions/ID.cs:59-61 | The message is exactly a prefix followed by the identifier verbatim: its length is the prefix's plus the identifier's, and it ends with the identifier. The prefix is "Received ID: " iff the length is 13, and "Received Passport: " iff it is not. |
| IdFunction.FirstMatchIndex | Function/Functions/ID.cs:153 | `FirstOrDefault` stops at the first record, in dataset order, whose identifier equals the input (exact, case-sensitive; a null identifier never matches). It finds nothing iff no record matches. |
| IdFunction.GetVaccinationInfo | Function/Functions/ID.cs:153-157 | If some record matches, the result is the first matching record. Otherwise it is the synthesised record: identifier = input, not vaccinated, date, name and clinic null. Either way the identifier equals the input. |
| IdFunction.Run | Function/Functions/ID.cs:44-105 | An absent or empty identifier gives 400 "Invalid input" with the usage hint. The outcome is 400 iff the identifier is empty or invalid, and every 400 carries "Invalid input" and the usage hint. A valid identifier gives 500 iff the dataset cannot be read or parsed, and 200 iff it is supplied. A 200 carries the response message and the lookup result, whose identifier is the input. |
| IdFunctionProperties.ValidIff | Function/Functions/ID.cs:115 | An identifier is valid iff its length is 13 or it is a passport number. |
| IdFunctionProperties.ThirteenLettersAccepted | Function/Functions/ID.cs:115 | A 13-character identifier made only of letters passes validation. |
| IdFunctionProperties.PassportExamples | Function/Functions/ID.cs:115-126 | "A12345678" passes validation. "12345678A" fails, and its error message is the usage hint. |
| IdFunctionProperties.RejectedIgnoresDataset | Function/Functions/ID.cs:47-75 | An empty or invalid identifier gives the same 400 outcome for every dataset, including an unavailable one, so the lookup is not reached. |
| IdFunctionProperties.OkMessageKind | Function/Functions/ID.cs:59-98 | On a 200 outcome the message is "Received ID: " + id iff the identifier has 13 characters, and "Received Passport: " + id iff it is a passport number. |
| IdFunctionProperties.FirstMatchIndexAppend | Function/Functions/ID.cs:153 | For a dataset a + b, the match index is a's match index if a has one. Otherwise it is |a| plus b's match index, or nothing. |
| IdFunctionProperties.GetVaccinationInfoAppend | Function/Functions/ID.cs:153-157 | A lookup in a + b returns a's match if a has one, and otherwise what a lookup in b alone returns. |
| IdFunctionProperties.LookupUnique | Function/Functions/ID.cs:153 | When no two records share an identifier, the lookup returns the one record that matches, wherever it is in the dataset. |
| IdFunctionProperties.KnownIdExample | Function/Functions/ID.cs:80-98 | With a one-record dataset holding "1234567890123", that ID gives 200 with "Received ID: 1234567890123" and exactly that record. |
| IdFunctionProperties.UnknownIdExample | Function/Functions/ID.cs:153-157 | With the same dataset, "9999999999999" gives 200 with the synthesised record: that identifier, not vaccinated, no date, name or clinic. |
| IdFunctionProperties.FailureExamples | Function/Functions/ID.cs:47-54 | A valid passport number with an unreadable dataset gives 500. An absent identifier gives 400 "Invalid input" with the usage hint even when the dataset is malformed. |

## Left out

- Reading the dataset file and building its path from `HOME` (ID.cs:136-147): I/O. The dataset is passed to `Run` as a `Result`.
- JSON parsing with Newtonsoft (ID.cs:150): a foreign library call. Its failures are `DatasetMalformed`. A JSON `null` document, or a `null` array element placed before the first matching record (or anywhere, when no record matches), makes the lookup throw, which gives 500; a `null` element after the first match is never read. The model's dataset is a sequence of records, so those two cases are not represented.
- JSON serialisation of the 200 body (ID.cs:90): a foreign library call. The body is the structured `Ok(message, vaccinationData)` instead of indented JSON text, and the content type `application/json` is not modelled.
- `Regex.IsMatch` (ID.cs:115): the regex engine is replaced by the character predicate `PassportPatternMatches`, which states what this one pattern matches.
- Exceptions and the catch-all handler (ID.cs:101-105): only a failing dataset is modelled, as `ServerError`. No other step of the handler can throw for a non-null identifier and a sequence of records.
- Identifiers with characters outside the Basic Multilingual Plane: C#'s `Length` counts a surrogate pair as two, but a Dafny `char` is a Unicode scalar value and cannot be a lone surrogate. Such identifiers are not represented. For example, "😀" followed by eleven digits has `Length` 13 and is accepted by the source, but the model gives it length 12.
- Logging (ID.cs:49, 69, 77, 103), `async`/`Task`, the Azure Functions trigger attributes and the ASP.NET result types: these are platform plumbing with no effect on the decision.
- Idempotence of repeated requests: every operation is a Dafny function, so the same identifier and the same dataset always give the same outcome. No lemma is needed for that.
