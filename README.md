# SociableWeaver `Field`, modelled in Dafny

SociableWeaver builds GraphQL documents from Swift values. A `Field` is a leaf of a
selection set. It holds four things:

- its raw `name`, taken from a type's description or a coding key;
- `nameRepresentable`, the name as it will be printed, which is the raw name
  converted to a case style (lower case at construction);
- an optional `alias`;
- an optional, ordered list of arguments.

Three fluent calls change a field in place and return the same object:

- `caseStyle(_:)` re-derives the printed name from the raw name.
- `alias(_:)` overwrites the alias.
- `argument(key:value:)` appends an argument, creating the list if it is absent.

`description` and `debugDescription` both render the field through
`buildDescription`. That function does a four-way dispatch on whether an alias
and/or arguments are present.

## Layout

- `wrappers.dfy`: `Option`, standing for Swift's `T?`.
- `case_styles.dfy`: `CaseStyleOption` and the converter type for `String.convert(with:)`.
- `field_formatter.dfy`: the field formatter. It lays out `alias: name(key1: value1, key2: value2)`. The `Argument` datatype is a key plus already-encoded value text.
- `field.dfy`: `FieldState`, the four stored properties as a value, with one transition function per configuration call, and `buildDescription`. Also the class `Field`, whose constructors and methods change its fields in place. Each method is specified by its transition: `State() == WithX(old(State()), …)`.
- `field_properties.dfy`: lemmas about the transitions and about rendering.
- `field_scenarios.dfy`: fields built through chained calls, as the doc comment and the tests build them, with the exact text each renders.

The object invariant `Field.Valid()` has two parts:

- the argument list is absent or non-empty;
- the printed name equals the converter applied to the raw name and the last case style requested. That style is held in a ghost field.

Both constructors establish `Valid()`, and every method keeps it.

## Model

| member | source | states |
|---|---|---|
| Fields.Field.FromType | Sources/SociableWeaver/Helpers/Field.swift:20-30 | a field built from a type: raw name is the type's description, printed name is that description lower-cased, no alias, no arguments |
| Fields.Field.FromKey | Sources/SociableWeaver/Helpers/Field.swift:32-35 | a field built from a coding key: raw name is the key's string, printed name is that string lower-cased, no alias, no arguments |
| Fields.Field.CaseStyle | Sources/SociableWeaver/Helpers/Field.swift:45-48 | the printed name becomes the raw name converted with the given style; raw name, alias and arguments are unchanged; the same object is returned; the invariant is kept |
| Fields.Field.Alias | Sources/SociableWeaver/Helpers/Field.swift:56-59 | the alias becomes the given string; nothing else changes; the same object is returned |
| Fields.Field.Argument | Sources/SociableWeaver/Helpers/Field.swift:67-77 | the argument list becomes the previous arguments (none if absent) followed by exactly the new one; names and alias are unchanged; the same object is returned; the list stays non-empty |
| Fields.Field.Description | Sources/SociableWeaver/Helpers/Field.swift:87-89 | the text `buildDescription` gives for the current state: the printed name when there is neither alias nor arguments, text beginning `alias: ` when aliased; it only reads the field, so rendering changes nothing and gives the same text twice |
| Fields.Field.DebugDescription | Sources/SociableWeaver/Helpers/Field.swift:86-93 | `debugDescription` is the same text as `description` |
| Fields.BuildDescription | Sources/SociableWeaver/Helpers/Field.swift:98-108 | with neither alias nor arguments the text is exactly the printed name; with an alias it begins `alias: `; with arguments it ends with `)` |
| FieldFormatter.JoinAppend | Sources/SociableWeaver/Helpers/Field.swift:83-84 | adding an argument to a non-empty list adds `, key: value` after the existing joined text, which is kept as it was |
| FieldFormatter.JoinEmptyIff | Sources/SociableWeaver/Helpers/Field.swift:83-84 | the joined argument text is empty if and only if there are no arguments |
| FieldProperties.CaseStyleLastWins | Sources/SociableWeaver/Helpers/Field.swift:45-48 | of two `caseStyle` calls the last one decides the printed name, so repeating a style changes nothing; raw name, alias and arguments are untouched |
| FieldProperties.CaseStyleIgnoresRenderedName | Sources/SociableWeaver/Helpers/Field.swift:46 | the new printed name comes from the raw name alone, whatever the printed name was before |
| FieldProperties.AliasLastWins | Sources/SociableWeaver/Helpers/Field.swift:56-59 | of two `alias` calls the last one wins, and only the alias differs from the state before |
| FieldProperties.AliasRendersAsPrefix | Sources/SociableWeaver/Helpers/Field.swift:98-105 | an aliased field renders as `alias: ` followed by what the same field renders without an alias |
| FieldProperties.ArgumentAppends | Sources/SociableWeaver/Helpers/Field.swift:67-77 | one `argument` call appends exactly that argument at the end, yields a well-formed list, and changes no other property |
| FieldProperties.ArgumentsInCallOrder | Sources/SociableWeaver/Helpers/Field.swift:67-77 | after a sequence of `argument` calls, the list is the earlier arguments followed by the new ones in call order. It is still well formed. It is absent only if it was absent and no call was made. Nothing else changes |
| FieldProperties.ConfigurationCallsCommute | Sources/SociableWeaver/Helpers/Field.swift:45-77 | `alias` and `argument` calls commute, and `caseStyle` commutes with each of them, since each call writes a different property |
| FieldProperties.DescriptionFollowsGrammar | Sources/SociableWeaver/Helpers/Field.swift:98-108 | whenever the argument list is absent or non-empty, the four-way dispatch renders the grammar form: an optional `alias: `, then the name, then a parenthesised argument list only if there are arguments |
| FieldProperties.ValidFieldRendersGrammar | Sources/SociableWeaver/Helpers/Field.swift:87-108 | every field object in a valid state renders as `[alias: ]name[(arguments)]` |
| FieldProperties.EmptyArgumentListBreaksGrammar | Sources/SociableWeaver/Helpers/Field.swift:70-74 | an empty argument list, which the source never creates, would render as `post()` instead of `post`, so the non-empty invariant is needed |
| FieldProperties.ArgumentListRendersLast | Sources/SociableWeaver/Helpers/Field.swift:98-105 | a field with arguments renders as the text without them followed by `(…)` |
| FieldProperties.FirstArgumentOpensList | Sources/SociableWeaver/Helpers/Field.swift:72-74 | the first `argument` call adds `(key: value)` at the end of the rendered text |
| FieldProperties.NextArgumentExtendsList | Sources/SociableWeaver/Helpers/Field.swift:70-71 | a later `argument` call inserts `, key: value` before the closing parenthesis and keeps the rest of the text |
| FieldProperties.ArgumentsRenderInCallOrder | Sources/SociableWeaver/Helpers/Field.swift:67-77 | on a field with no arguments, a non-empty sequence of `argument` calls renders as before followed by the argument list in call order |
| FieldScenarios.AliasedPostWithId | Sources/SociableWeaver/Helpers/Field.swift:80-84 | `post` aliased `newPost` with argument `id: 1` renders `newPost: post(id: 1)` |
| FieldScenarios.NameWithStringArgument | Tests/SociableWeaverTests/SociableWeaverTests.swift:56-70 | `name` with argument `value: "Nick"` renders `name(value: "Nick")` |
| FieldScenarios.TwoArgumentsInCallOrder | Sources/SociableWeaver/Helpers/Field.swift:67-77 | two `argument` calls render as `post(id: 1, category: TECHNOLOGY)`, in call order (the `, ` separator is assumed; see Left out) |
| FieldScenarios.LastCallsWin | Sources/SociableWeaver/Helpers/Field.swift:45-59 | after interleaved repeated `caseStyle` and `alias` calls, the field renders as the last alias, `: `, and the raw name converted with the last style |

## Left out

- `String.convert(with:)` is not part of this model. A field receives the converter as a constructor argument and keeps it in the `const` field `convert`. The Swift class has no such field; it calls one global function. The lemmas and the class assume nothing about the converter. Three scenarios (`AliasedPostWithId`, `NameWithStringArgument`, `TwoArgumentsInCallOrder`) each require that the converter lower-cases their one name to the expected text. The style list in `CaseStyleOption` beyond `Lowercase` matters to no proof.
- The code of `GQLFieldFormatter` is not shown. `field_formatter.dfy` stands in for its three `formatField` overloads with an assumed layout. The one-argument form, `alias: name(key: value)`, follows the doc comment of `Field` and the expected strings in the tests. With an empty argument list this formatter would print `name()`; the invariant rules that state out.
- `FieldFormatter.JoinArguments`: the `, ` between several arguments is assumed, because no example in the library's documentation or tests puts two arguments on one node. `JoinAppend`, `NextArgumentExtendsList`, `ArgumentsRenderInCallOrder` and the text expected by `TwoArgumentsInCallOrder` depend on that separator.
- Argument values (`Argument`, `ArgumentValueRepresentable`: quoting and escaping of strings, upper-casing of enum cases, lists, nested objects) are not part of this model. A value is its already-encoded GraphQL text.
- `String(describing: type)` and `CodingKey.stringValue` are runtime reflection. The constructors receive the resulting string.
- Directives (`include`/`skip`), `Object`, `Fragment`, `FragmentReference`, `InlineFragment`, `MetaField` and `Operation`/`Weave` are not part of this model. `Field` as written has no directive methods.
- The `Weavable` and `CustomStringConvertible` conformances are not modelled as protocols. `description` and `debugDescription` are functions that read the field, so rendering cannot change it, and rendering twice gives the same text.
- The doc comments of `caseStyle(_:)` and `argument(key:value:)` say "Sets the alias of this field". That text was copied from `alias(_:)`. The model follows the code.
