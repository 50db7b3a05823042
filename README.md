# fxx core, modelled in Dafny

`fxx` is a thin adapter over the `go.uber.org/fx` dependency-injection container. This project models its core as plain data:

- **Annotations** (`annotations.dfy`). An annotation is a by-group or by-name selection criterion with an `optional` flag. The model covers the struct tag each annotation becomes (`group:"g"` or `name:"n"`, then ` optional:"true"` when optional). It also reads that tag back the way the container does, with a model of Go's `reflect.StructTag.Lookup` and `Get` (`struct_tag.dfy`): `key:"value"` items separated by spaces, each value a double-quoted Go literal that `strconv.Unquote` decodes.
- **WithAnnotated** (`adapter.dfy`). Given N annotations and a user function of arity M, it lays out a parameter bag: an anonymous `fx.In`, then `Field0..Field{M-1}` of the user's parameter types, the first N slots tagged. It returns a one-parameter wrapper with the user's result types. The wrapper forwards bag member `i + 1` to parameter `i`. A non-function target yields a zero-argument function whose one result is the "must be called with a function" error. Type synthesis is modelled by descriptors (`Reflect.Type`, `Reflect.Field`). The synthesised function is modelled by a `FuncValue`, whose meaning is `Call`. The imperative loops are methods (`BuildSlots`, `CollectOuts`, `ForwardArgs`), each proved against that specification.
- **Config providers** (`config_field.dfy`). `ProvideConfig(file, u)` provides `u` under the name `configFileAnnotationPrefix + file` and into the shared group `configFileGroup`. Its effect is modelled on a small registry (`container.dfy`): a map from name to capability and, per group, a sequence in registration order. The disk helper folds its options over a class standing for `provideConfigFileOptions`, so the last `ProvideConfigFileWithName` wins. A read failure gives an error option that registers nothing.
- **Config field extractor** (`config_field.dfy`). Folding the options gives either a by-name request (`prefix + file`) or a by-group request. The extractor is adapted through WithAnnotated with exactly one annotation. When invoked, it picks the named capability, or the last group member, or fails with "no config files were provided" on an empty group. The container finds that input by reading the `name` and `group` items of the slot's tag (`Container.Resolve`). The extractor then decodes a single-field record `Config` tagged with the caller's tag. The result is the field with a nil error, or the zero value with "unable to unmarshal config file: <cause>".
- **The earlier revision** (`legacy_config_field.dfy`). `ProvideConfigFile`, its disk helper (always registered under the path) and `WithConfigField` come from `with_config_field.go`. The extractor closure there is a copy of the one in `extract_config_field.go`. So `WithConfigField` is proved to build the same adapted extractor as `ExtractConfigField` (`ConfigField.Extractor`).

Calls the model does not contain are parameters:
- Reading a file is a `ReadResult` input.
- A decoding capability is a datatype holding a function from the record type to decode into, to a decoded value or a failure cause.
- JSON/YAML decoding is a decoder parameter of the disk helper.

## Model

| member | source | states |
|---|---|---|
| `Annotations.Annotation.IsOptional` | with_annotated.go:25-30 | the result is optional and keeps the kind and the group or name (same for nameAnnotation, lines 46-51) |
| `Annotations.IsOptionalIdempotent` | with_annotated.go:46-51 | applying IsOptional twice equals applying it once; it changes nothing exactly when the flag is already set |
| `Annotations.GroupAnnotation` | with_annotated.go:33-37 | a group annotation carrying exactly `g`, not optional |
| `Annotations.NameAnnotation` | with_annotated.go:54-58 | a name annotation carrying exactly `n`, not optional |
| `Annotations.TagOf` | with_annotated.go:113-130 | an annotated slot's tag is never empty |
| `Annotations.TagOfShape` | with_annotated.go:114-130 | the tag is `group:"g"` / `name:"n"` with the value verbatim, followed by a single space and `optional:"true"` exactly when optional |
| `Annotations.TagRoundTrip` | with_annotated.go:119-130 | for a group or name with no quote, backslash or newline, Go's tag reader gives back that value under the kind's key, `true` under `optional` exactly when optional, and nothing under any other key |
| `Annotations.QuoteTruncatesName` | with_annotated.go:122 | as written, the name `p" x:"y` reads back as `p` under `name`, and adds a forged item `x` with value `y` |
| `Annotations.BadEscapeHidesName` | with_annotated.go:122 | as written, a required name annotation holding `\c` (a backslash before a letter Go's literals do not escape) makes every lookup in the tag find nothing |
| `Annotations.ByteEscapeReadsAs` | with_annotated.go:122 | as written, a required name annotation holding `\x` and the two hexadecimal digits of a character below 0x80 reads back with that character in their place, and has no other item |
| `Annotations.QuotedTagRoundTrip` | with_annotated.go:119-130 | with the value written as a Go literal (quote, backslash and newline escaped), every group or name reads back exactly, with `optional` as before and no other key; for a value needing no escape this tag is the verbatim one |
| `Annotations.TagOfQuoteAmbiguity` | with_annotated.go:119-127 | because the value is inserted verbatim, a group name containing `"` gives the same tag as a different, optional annotation |
| `Annotations.Join` | with_annotated.go:130 | `strings.Join`: no parts give the empty string, otherwise the result starts with the first part |
| `Adapter.Decimal` | with_annotated.go:107 | `%d` of a natural: a non-empty string of decimal digits, of one digit exactly when the number is below 10 |
| `Adapter.DecimalInjective` | with_annotated.go:107 | `%d` prints different numbers differently, so the names `Field<i>` are distinct |
| `Adapter.BuildSlots` | with_annotated.go:100-133 | M+1 members: anonymous `In` first, then `Field<i>` with the i-th parameter type in order; slot i is tagged iff i < N, with TagOf of annotation i |
| `Adapter.SlotsWellFormed` | with_annotated.go:101-133 | the bag has M+1 members and no two share a name |
| `Adapter.ExtraAnnotationsIgnored` | with_annotated.go:106-113 | annotations beyond the function's arity do not change the bag |
| `Adapter.CollectOuts` | with_annotated.go:135-138 | the wrapper's result types equal the user function's, in order |
| `Adapter.Adapt` | with_annotated.go:90-152 | a typed non-function gives `func() error` that always fails with NotAFunction; a function gives a one-input function whose input is a struct of M+1 members, with the user's result types, forwarding M arguments to the user's function |
| `Adapter.Call` | with_annotated.go:142-149 | the failing wrapper returns only its error; a forwarding wrapper returns the user function's results on bag members 1..M, in position order |
| `Adapter.WithAnnotated` | with_annotated.go:90-152 | the imperative construction returns exactly the wrapper `Adapt` specifies, for functions and non-functions |
| `Adapter.ForwardArgs` | with_annotated.go:143-147 | the user function's argument i is bag member i+1, for all i < M |
| `Adapter.Invoke` | with_annotated.go:142-149 | invoking the wrapper returns the user function's results for the forwarded arguments, unchanged; the failing wrapper returns its error |
| `Adapter.AdaptForwards` | with_annotated.go:135-149 | the wrapper has exactly one input, the bag; its outputs are the user's; calling it calls the user function with bag member i+1 as argument i |
| `Adapter.AdaptNonFunction` | with_annotated.go:95-99 | a target whose type is not a function type yields a zero-argument function returning only the error "WithAnnotated returned function must be called with a function" |
| `ConfigField.ConfigNameInjective` | extract_config_field.go:63 | different files are registered under different names |
| `ConfigField.ProvideConfigFileOption.ApplyTo` | extract_config_field.go:26-30 | ProvideConfigFileWithName(name) sets the record's name to `name` and changes nothing else |
| `ConfigField.ResolveProvideOptions` | extract_config_field.go:37-42 | the registration name starts as the path and the options run in order, so the last ProvideConfigFileWithName wins (RegisteredName) |
| `ConfigField.ProvideConfigFileFromDisk` | extract_config_field.go:32-47 | a read failure gives an error naming the file and registers nothing; otherwise ProvideConfig under the resolved name with a capability over the bytes read |
| `ConfigField.ProvideConfig` | extract_config_field.go:60-75 | an option list whose every entry provides `u`, under exactly the two keys: the name `prefix+file` and the group `configFileGroup` |
| `ConfigField.ProvideConfigEffect` | extract_config_field.go:60-75 | applying ProvideConfig maps `prefix+file` to `u` and appends `u` to `configFileGroup`, leaving the rest unchanged; a taken name is a conflict |
| `ConfigField.ProvideInOrder` | extract_config_field.go:60-75 | providing distinct files in order names each one's capability, appends the capabilities to the group in registration order and keeps earlier names |
| `ConfigField.ExtractConfigFieldOption.ApplyTo` | extract_config_field.go:83-87 | ExtractConfigFieldFromFile(file) sets the record's file to `file` and changes nothing else |
| `ConfigField.ResolveExtractOptions` | extract_config_field.go:106-109 | with no option the extractor reads the group; otherwise the last ExtractConfigFieldFromFile's file wins (SourceFile) |
| `ConfigField.RequestTag` | extract_config_field.go:114-120 | the extractor's one slot is tagged `name:"<prefix><file>"` on the by-name path and `group:"<configFileGroup>"` otherwise |
| `ConfigField.RequestReadsByName` | extract_config_field.go:114-116 | for a file with no quote, backslash or newline, the container reads the name `prefix+file` and no group from the extractor's `Field0` |
| `ConfigField.RequestReadsByGroup` | extract_config_field.go:117-119 | on the group path, the container reads the group `configFileGroup` and no name from `Field0` |
| `ConfigField.RequestBag` | extract_config_field.go:154 | the extractor's bag is `In` then `Field0` of the requested type carrying the request's tag |
| `ConfigField.ExtractorSignature` | extract_config_field.go:111-122 | the adapted extractor takes one bag whose `Field0` is `Unmarshal` by name or `[]Unmarshal` by group, and returns (the requested type, error) |
| `ConfigField.ExtractConfigField` | extract_config_field.go:105-155 | the imperative construction returns exactly the extractor adapted with one annotation for SourceFile(options) |
| `ConfigField.SelectFromGroup` | extract_config_field.go:127-135 | an empty group is the "no config files were provided" error; otherwise the pick is the group's last member |
| `ConfigField.DecodeInto` | extract_config_field.go:138-151 | two results: a `Config` field value with a nil error, or the zero value of the requested type with an unmarshal error |
| `ConfigField.Extract` | extract_config_field.go:123-152 | the closure (`ExtractorBody` is it as a function value): results are empty exactly for an argument of the wrong kind; otherwise (value, nil), or (zero value, error) where the error is "no config files" only for an empty group by group, else an unmarshal error |
| `ConfigField.DecodeOutcome` | extract_config_field.go:138-151 | decoding into the single-field record gives (field value, nil error) on success and (zero value, "unable to unmarshal config file: <cause>") on failure; the error is nil exactly on success |
| `ConfigField.ExtractByName` | extract_config_field.go:114-126 | by name, for a file with no quote, backslash or newline, the extractor decodes with the capability registered under `prefix+file` whatever else is registered; a missing name supplies nothing |
| `ConfigField.ExtractByGroup` | extract_config_field.go:127-135 | by group, an empty group returns the zero value and "no config files were provided"; otherwise the group's last member is used |
| `ConfigField.MostRecentWins` | extract_config_field.go:135 | after providing files in order, group extraction decodes with the most recently provided capability, with the group delivered in registration order (see "## Left out") |
| `ConfigField.GroupPickAnyOrder` | extract_config_field.go:127-135 | whatever order the group is delivered in, group extraction fails with "no config files" only when it is empty, and otherwise decodes with one of the group's registered members |
| `ConfigField.NamedPickIgnoresOthers` | extract_config_field.go:114-126 | after providing distinct files in order, all registrations succeed, and extraction by any one file's name (with no quote, backslash or newline) decodes with that file's capability |
| `ConfigField.ThreeProvidersScenario` | extract_config_field_test.go:42-65 | with providers a, b, c decoding to "oops", "hello world", "not ok", extraction by "b" yields "hello world" |
| `ConfigField.ForgedFileTakesOthersCapability` | extract_config_field.go:116 | as written, extraction from file `p" x:"y` is served the capability registered for file `p`, and nothing when `p` has none |
| `ConfigField.ForgedFileScenario` | extract_config_field.go:63 | files `b` and `b" x:"y` both provided: extraction from the second decodes with the first's capability |
| `ConfigField.ByteEscapeTakesOthersCapability` | extract_config_field.go:116 | as written, extraction from file `p\x` + two hex digits of `c` is served the capability registered for file `p` + `c`, and nothing when that file has none |
| `ConfigField.ByteEscapeScenario` | extract_config_field.go:63 | files `A` and `\x41` both provided: extraction from the second decodes with the first's capability |
| `ConfigField.BadEscapeFileNotFound` | extract_config_field.go:116 | as written, extraction from a file whose name holds `\c` supplies nothing, whatever is registered |
| `ConfigField.WindowsPathScenario` | extract_config_field.go:37-38 | the disk helper's file `C:\cfg\app.json` is registered under its path, yet extraction from that file supplies nothing |
| `ConfigField.QuotedExtractByName` | extract_config_field.go:114-126 | with the name written as a Go literal, extraction by name decodes with the capability registered for that very file, whatever characters its name holds, nothing when it is missing, and agrees with the verbatim tag for names needing no escape |
| `ConfigField.ThreeProvidersByGroup` | extract_config_field.go:127-135 | with the same three providers and the group delivered in registration order, group extraction yields "not ok" |
| `LegacyConfigField.ProvideConfigFile` | with_config_field.go:39-54 | an option list whose every entry provides `u`, under exactly the name `prefix+file` and the group `configFileGroup` |
| `LegacyConfigField.ProvideConfigFileEffect` | with_config_field.go:39-54 | ProvideConfigFile registers `u` under `prefix+file` and appends it to `configFileGroup`; it is the same option as ProvideConfig |
| `LegacyConfigField.ProvideConfigFileFromDisk` | with_config_field.go:20-29 | a read failure gives an error naming the file and registers nothing; otherwise the capability is registered under the path itself |
| `LegacyConfigField.WithConfigFieldOption.ApplyTo` | with_config_field.go:62-66 | WithConfigFieldFromFile(file) sets the record's file to `file` and changes nothing else |
| `LegacyConfigField.ResolveOptions` | with_config_field.go:62-72 | with no option the extractor reads the group; otherwise the last WithConfigFieldFromFile's file wins |
| `LegacyConfigField.WithConfigField` | with_config_field.go:68-118 | builds the same adapted extractor as ExtractConfigField for the resolved file |
| `LegacyConfigField.WithConfigFieldSelection` | with_config_field.go:87-114 | by name, for a file with no quote, backslash or newline, the named capability (nothing if missing); by group, zero value and "no config files were provided" when empty, else the last member; decoding as in DecodeOutcome |
| `LegacyConfigField.WithConfigFieldSignature` | with_config_field.go:85-117 | the extractor is wrapped with exactly one annotation, matching its single input, and returns (the requested type, error) |

## Left out

- hook.go: a one-line mapping of `OnStart`/`OnStop` into `fx.Hook` with no logic. reflectutil/error.go: the `error` type and its nil value, which are `Reflect.ErrorType` and `Reflect.NilError` here.
- ProvideJSONConfigFile and ProvideYAMLConfigFile: they only choose `json.Unmarshal` or `yaml.Unmarshal`. Those are foreign decoders, so the disk helper takes the decoder as a parameter instead.
- Runtime type synthesis (`reflect.StructOf`, `FuncOf`, `MakeFunc`, `Field`, `Call`) is modelled by descriptors and by `Call`. Reflection panics on ill-typed calls are not modelled; `Invoke` requires arguments that fit.
- Container resolution is reduced to `Container.Resolve`: by-name and by-group lookup of capabilities. Type-based resolution, optional slots resolving to zero values, "missing dependencies" messages and lifecycle are the container's behaviour and are not modelled. A missing name is `None` in `ConfigField.Run`.
- Container.Resolve: hands a group to the extractor in registration order. fx does not promise any order for a value group (the dig library under it documents groups as unordered and may shuffle them), and the source only takes the last element of whatever slice it receives. So `ConfigField.MostRecentWins` and `ConfigField.ThreeProvidersByGroup` hold only for a container that keeps registration order; `ConfigField.GroupPickAnyOrder` states what holds for every delivered order.
- Adapter.Adapt: an untyped nil target is not modelled. In Go, `reflect.ValueOf(nil).Type()` panics at with_annotated.go:94, before the kind check on line 95, so `WithAnnotated(...)(nil)` fails while the wrapper is being built. `Target.OtherTarget` always carries a type, so only targets that have a type are modelled, and `Adapter.AdaptNonFunction` covers just those.
- Container.Register: reports a name registered twice as `DuplicateName`. This stands in for the container's own conflict error, whose text is not modelled.
- File I/O and JSON/YAML decoding are inputs: a `ReadResult`, and a capability returning a decoded value or a cause.
- `%w` error chains: a wrapped error keeps only its cause's message text (`Reflect.Error`, `Reflect.Message`).
- ConfigField.Extract: an argument of the wrong kind would make Go's type assertion panic. It yields an empty result here. The container never supplies such an argument (`Container.Resolve` gives a capability for a name and a list for a group).
- Annotations.TagRoundTrip: requires a group or name with no `"`, `\` or newline. The source inserts values verbatim, so for other values the tag does not read back (see "## Findings"; a quote can also forge an `optional` item, `Annotations.TagOfQuoteAmbiguity`).
- ConfigField.ExtractByName: stated only for file names with no `"`, `\` or newline. For other names the verbatim tag misreads the name; the Findings lemmas show what happens then, and `ConfigField.QuotedExtractByName` states the intended pick for every name.
- ConfigField.NamedPickIgnoresOthers: its pick is stated only for a file name with no `"`, `\` or newline, for the same reason as ConfigField.ExtractByName.
- LegacyConfigField.WithConfigFieldSelection: its by-name case is stated only for a file name with no `"`, `\` or newline, for the same reason as ConfigField.ExtractByName.
- StructTag.Unquote: a `\x` or octal escape of a byte of 0x80 or more is read as a failure. Go writes that raw byte into the name, and a string of characters cannot hold a lone byte, so file names containing such an escape are not modelled: Go may decode them to another file's name where the model finds none. For the same reason, names that are not valid UTF-8 (for which Go substitutes U+FFFD) are not modelled. The other numeric escapes (`\x` and octal below 0x80, `\u`, `\U`) are decoded as Go decodes them.
- Container.Resolve: reads only the `name` and `group` items. The container's comma options in a group tag (such as `,flatten`), its handling of `optional`, and its own validation of names are not modelled.
- Adapter.Call: a variadic user function is not modelled. Go's `NumIn` counts the `...T` parameter, but the wrapper is built non-variadic (with_annotated.go:141), so the `Call` at line 148 would re-pack or panic. A typed nil function is not modelled either; calling it panics at line 148.
- Adapter.WithAnnotated: a nil annotation is not modelled. Go calls `annos[i].isAnnotation()` on it at with_annotated.go:116 and panics while the wrapper is being built; an `Annotation` here is always a value.
- ConfigField.ResolveProvideOptions: a nil option is not modelled. Calling `options[i](o)` on it at extract_config_field.go:41 panics; an option here is always a `ProvideConfigFileWithName` value.
- ConfigField.ResolveExtractOptions: a nil option is not modelled. Calling `options[i](o)` on it at extract_config_field.go:108 panics; an option here is always an `ExtractConfigFieldFromFile` value.
- LegacyConfigField.ResolveOptions: a nil option is not modelled. Calling `options[i](o)` on it at with_config_field.go:71 panics; an option here is always a `WithConfigFieldFromFile` value.
- ConfigField.ProvideConfig: a nil capability is not modelled. The extractor would panic calling it at extract_config_field.go:145.
- ConfigField.ExtractConfigField: a nil `in` is not modelled. `reflect.TypeOf(nil)` gives a nil result type (extract_config_field.go:111) and `reflect.FuncOf` panics on it (line 122); the same holds for WithConfigField at with_config_field.go:74 and 85.
- ConfigField.ExtractConfigField: returns the adapted extractor itself. Go returns `fx.Provide` of it (extract_config_field.go:154, with_config_field.go:117); registering the extractor as a provider of the requested type is container behaviour and is not modelled.
- Both Go files declare the same package symbols. Each is modelled as its own module (`ConfigField`, `LegacyConfigField`), with its own constants.

## Findings

| source | as written | input that shows it | evidently intended | confidence | as-written member | corrected member |
|---|---|---|---|---|---|---|
| extract_config_field.go:116 (with with_annotated.go:122) | the file name is put verbatim between the quotes of `name:"..."`, and Go's tag reader ends the value at the first `"` | files `b` and `b" x:"y` both provided; extraction from `b" x:"y` | extraction from a file uses that file's capability | not executed | `ConfigField.ForgedFileScenario` | `ConfigField.QuotedExtractByName` |
| extract_config_field.go:116 (with with_annotated.go:122) | a backslash in the file name is read as an escape by `strconv.Unquote`; `\c` is not a valid escape, so the tag yields no name | disk file `C:\cfg\app.json` provided under its path; extraction from that file | the file is found by its path | not executed | `ConfigField.WindowsPathScenario` | `ConfigField.QuotedExtractByName` |
| extract_config_field.go:116 (with with_annotated.go:122) | `strconv.Unquote` decodes `\x41` in the name to `A` | files `A` and `\x41` both provided; extraction from `\x41` | extraction from a file uses that file's capability | not executed | `ConfigField.ByteEscapeScenario` | `ConfigField.QuotedExtractByName` |
