# HttpButler core, modelled in Dafny

HttpButler turns C# interfaces marked `[HttpButler]` into HTTP clients. A source generator
writes an implementation class for each such interface. At run time, the options object
registers the interfaces and the framework services into a service collection. Each generated
method resolves its route template against its arguments and calls the HTTP client service.

This project models the pieces of that system that compute something, and proves what they promise:

- **Route resolution** (`RouteParser`, `PathResolveService`, `PathResolveExamples`).
  - The two-state template scanner `GetRouteParameters`.
  - The substitution pass of `ResolveUri`: case-insensitive property lookup, `Uri.EscapeDataString`, and the copying of the literal slices.
  - The parse cache, a static dictionary in the source, held here by one service instance.
  - The two unit-test resolutions.
- **Name-based GUIDs** (`DeterministicGuid`, `Utf8`).
  - The in-place byte-order swap.
  - The hashed buffer: 16 namespace bytes followed by the UTF-8 bytes of the name.
  - The version 5 and RFC 4122 variant stamps (section 4.3 of RFC 4122).
  - Truncation of the digest to a `Guid`.
- **Options** (`HttpButlerOptions`, `JsonOptionsResolver`).
  - The interface table, where the first registration wins.
  - The per-implementation JSON options table, which rejects duplicate keys.
  - The overwritable default options.
  - `Register`, which adds a service only when its type is absent.
  - The immutable JSON options lookup with its fallback.
- **Generated source text** (`InterfaceModel`, `StringBuilderHelper`, `ClassBuilder`).
  - The records the generator extracts.
  - The `StringBuilder` extension methods.
  - The class builder with its nesting level, and the rules that choose the query and body arguments of each call.

Imperative source code is modelled imperatively:

- the scanner and the substitution pass are loops over `seq`;
- the swap works in place on an `array`;
- the options, the service collection, the parse cache, the string builder and the class builder are classes whose methods update their fields.

Each of these methods is proved against a functional specification: `ParseFrom`/`ParseRoute`, `Substituted`/`Resolve`, `Swapped`, `RegisterInterfaces`, and the `...Text` renderings. The lemmas state the properties of those specifications.

Modelling choices:

- A parameter object is the ordered sequence of its public properties, each a name with an optional string value.
- The name comparison `OrdinalIgnoreCase` folds ASCII letters.
- `Uri.EscapeDataString` is written out: UTF-8 encoding (section 3 of RFC 3629), then percent-encoding of every byte outside the unreserved set of section 2.3 of RFC 3986, with upper-case hexadecimal.
- SHA-1 is a function parameter of `FromString`.
- `Environment.NewLine` is `"\n"`.

## Model

| member | source | states |
|---|---|---|
| CaseFolding.FoldChar | HttpButler/Services/PathResolveService.cs:52-53 | an ASCII lower-case letter folds to the upper-case letter 32 code points below; every other character folds to itself |
| CaseFolding.EqualsIgnoreCaseIsEquivalence | HttpButler/Services/PathResolveService.cs:52-53 | property-name matching is reflexive, symmetric and transitive |
| CaseFolding.FoldCharSame | HttpButler/Services/PathResolveService.cs:52-53 | two characters match exactly when they are equal or differ only in ASCII letter case |
| Utf8.EncodeChar | HttpButler/Utils/DeterministicGuid.cs:24 | a character takes 1 to 4 bytes; a single byte exactly below U+0080, holding the code; otherwise a lead byte of at least 0xC0 and continuation bytes of the form 10xxxxxx |
| Utf8.Encode | HttpButler/Utils/DeterministicGuid.cs:24-25 | a string's UTF-8 byte count lies between its length and four times its length |
| Utf8.EncodeAppend | HttpButler/Utils/DeterministicGuid.cs:40 | encoding a concatenation concatenates the encodings |
| Utf8.EncodeAscii | HttpButler/Utils/DeterministicGuid.cs:40 | an ASCII string encodes to one byte per character, equal to its code |
| UriEscaping.HexDigit | HttpButler/Services/PathResolveService.cs:34 | every hexadecimal digit written is an unreserved character |
| UriEscaping.HexValue | HttpButler/Services/PathResolveService.cs:34 | a recognised hexadecimal digit has a value below 16 |
| UriEscaping.HexValueOfDigit | HttpButler/Services/PathResolveService.cs:34 | reading back a written digit gives its value |
| UriEscaping.EncodeByte | HttpButler/Services/PathResolveService.cs:34 | a byte becomes one character or a three-character escape, using only unreserved characters and "%" |
| UriEscaping.PercentEncode | HttpButler/Services/PathResolveService.cs:34 | the escaped text is between one and three characters per byte, all unreserved or "%" |
| UriEscaping.PercentRoundTrip | HttpButler/Services/PathResolveService.cs:34 | percent-decoding the escaped text gives back exactly the bytes that were escaped |
| UriEscaping.EscapeDataString | HttpButler/Services/PathResolveService.cs:34 | an escaped value holds only unreserved characters and "%" |
| UriEscaping.EscapeRoundTrip | HttpButler/Services/PathResolveService.cs:34 | decoding an escaped value gives the UTF-8 bytes of the value, so no two values escape alike |
| UriEscaping.EscapeUnreservedIsIdentity | HttpButler/Services/PathResolveService.cs:34 | a value made only of unreserved characters is left as it is |
| UriEscaping.EscapeHasNoDelimiters | HttpButler/Services/PathResolveService.cs:34 | a substituted value never contains a brace, "/", "?", "&", "#", "=", a space or "+" |
| RouteParser.IndexOfFrom | HttpButler/Services/PathResolveService.cs:67-91 | finds the first offset at or after the start that holds the character, and finds none only when there is none |
| RouteParser.ParseRoute | HttpButler/Services/PathResolveService.cs:55-94 | the parse lists closed placeholders, in order, not overlapping and within the template, with the offset of each "{" and the exact text up to the next "}"; no "{" before or between them is ever followed by a "}" (none is missed) |
| RouteParser.PendingSkip | HttpButler/Services/PathResolveService.cs:90 | inside a placeholder, a character other than "}" (a "{" included) goes into the name and ends nothing |
| RouteParser.ParseFromSkip | HttpButler/Services/PathResolveService.cs:71-80 | outside a placeholder, a character other than "{" (a stray "}" included) is ignored |
| RouteParser.ParseFromOpen | HttpButler/Services/PathResolveService.cs:73-78 | outside a placeholder, a "{" opens one at its own offset |
| RouteParser.PendingClose | HttpButler/Services/PathResolveService.cs:83-87 | inside a placeholder, a "}" adds the entry (name between the braces, offset of the "{") and the scan resumes outside |
| RouteParser.GetRouteParameters | HttpButler/Services/PathResolveService.cs:55-94 | the loop with its flag, index and cleared name buffer returns exactly ParseRoute of the template |
| RouteParser.ScanFinds | HttpButler/Services/PathResolveService.cs:65-93 | scanning the rest of the template from any reachable state of the loop yields the entries found so far followed by ParseFrom of the rest |
| RouteParser.ParseFromWellFormed | HttpButler/Services/PathResolveService.cs:65-87 | every entry of a scan is a closed placeholder at or after its start, ending before the next entry starts |
| RouteParser.ClosedIsPlaceholder | HttpButler/Services/PathResolveService.cs:83-87 | a "{" and the first "}" after it enclose a name that holds no "}" |
| RouteParser.ParseFromComplete | HttpButler/Services/PathResolveService.cs:65-93 | a scan misses no closed placeholder |
| RouteParser.CompleteUnclosed | HttpButler/Services/PathResolveService.cs:91-93 | an unterminated trailing "{" yields no entry and no error |
| RouteParser.ParseFromClosed | HttpButler/Services/PathResolveService.cs:73-87 | the next closed placeholder heads the scan, and the scan goes on after its "}" |
| RouteParser.ParseFromUnique | HttpButler/Services/PathResolveService.cs:55-94 | any list of ordered closed placeholders that misses none is exactly the scan's result |
| RouteParser.ParseRouteUnique | HttpButler/Services/PathResolveService.cs:55-94 | a list is the parse of a template if and only if it is well formed and complete for that template |
| RouteParser.NoBraceNoParams | HttpButler/Services/PathResolveService.cs:71-80 | a template without "{" has no placeholders |
| PathResolveService.FindPropertyFirst | HttpButler/Services/PathResolveService.cs:33 | `First` returns the first property whose name matches ignoring case, and fails only when no property matches |
| PathResolveService.EscapedValues | HttpButler/Services/PathResolveService.cs:29-34 | a successful lookup yields one value per placeholder |
| PathResolveService.EscapedValuesSpec | HttpButler/Services/PathResolveService.cs:29-34 | on success, each value is the escaped value of the first property matching its placeholder; on failure, the error belongs to the first placeholder whose property is missing or null, and all earlier placeholders resolve |
| PathResolveService.EscapedValuesFirstError | HttpButler/Services/PathResolveService.cs:29-34 | the first placeholder that cannot be resolved decides the failure |
| PathResolveService.EscapedValuesAllOk | HttpButler/Services/PathResolveService.cs:29-34 | when every placeholder resolves, the values are theirs, in placeholder order |
| PathResolveService.LiteralStartBounds | HttpButler/Services/PathResolveService.cs:31-43 | every literal slice `path[lastStart..end]` the loop takes, and the trailing slice, lies within the template |
| PathResolveService.SubstituteRouteParams | HttpButler/Services/PathResolveService.cs:25-45 | the substitution loop returns the literal slices with each placeholder replaced by its escaped value, or the error of the first unresolvable placeholder |
| PathResolveService.PathResolveService.constructor | HttpButler/Services/PathResolveService.cs:12 | the cache starts empty and consistent |
| PathResolveService.PathResolveService.GetOrAdd | HttpButler/Services/PathResolveService.cs:20-21 | returns the parse of the route; a miss stores it, a hit changes nothing; every entry stays the parse of its route |
| PathResolveService.PathResolveService.ResolveUri | HttpButler/Services/PathResolveService.cs:14-50 | the result is Resolve of the template and the parameters; a null parameter object leaves the cache untouched, otherwise the cache gains the template's parse |
| PathResolveService.CacheOnlyGrows | HttpButler/Services/PathResolveService.cs:20-21 | resolving keeps every cached entry, so a cache hit gives what a fresh parse gives |
| PathResolveService.ResolveFailsIff | HttpButler/Services/PathResolveService.cs:33-34 | resolution fails if and only if some placeholder has no matching property or a null value |
| PathResolveService.EscapedValuesPointwise | HttpButler/Services/PathResolveService.cs:29-34 | two parameter objects that agree on every placeholder give the same values |
| PathResolveService.FindPropertyIgnoresUnmatched | HttpButler/Services/PathResolveService.cs:33 | a property whose name does not match leaves a lookup unchanged |
| PathResolveService.UnusedPropertyIrrelevant | HttpButler/Services/PathResolveService.cs:28-45 | a property that no placeholder names does not change the result |
| PathResolveService.ResolveWithoutPlaceholders | HttpButler/Services/PathResolveService.cs:18-49 | a template without "{" comes back unchanged, whatever the parameters |
| PathResolveService.Braced | HttpButler/Services/PathResolveService.cs:39 | each placeholder's text is its name between braces |
| PathResolveService.PlaceholderText | HttpButler/Services/PathResolveService.cs:39 | the `+ 2` step skips exactly the "{name}" text of a placeholder |
| PathResolveService.SpliceBraced | HttpButler/Services/PathResolveService.cs:36-43 | splicing each placeholder's own "{name}" back into a well-formed parse gives the template |
| PathResolveService.SpliceBracedIsIdentity | HttpButler/Services/PathResolveService.cs:36-43 | the literal slices and the placeholders together cover the whole template, so the substitution loses and duplicates nothing |
| PathResolveExamples.ParseOnePlaceholder | HttpButler/Services/PathResolveService.cs:55-94 | a template with one placeholder between brace-free literals parses to that placeholder at the length of the prefix |
| PathResolveExamples.ParseTwoPlaceholders | HttpButler/Services/PathResolveService.cs:55-94 | two placeholders separated by brace-free literals parse to both, in order, at their offsets |
| PathResolveExamples.ParsePhotoRoute | HttpButler.Test/PathResolveServiceTest.cs:15 | "/users/{userId}/photos/{photoId}" parses to userId at 7 and photoId at 23 |
| PathResolveExamples.ParseUserRoute | HttpButler.Test/PathResolveServiceTest.cs:35 | "/users/{userId}/photos" parses to userId at 7 |
| PathResolveExamples.ResolveOnePlaceholder | HttpButler/Services/PathResolveService.cs:28-45 | one placeholder resolves to prefix, escaped value, suffix |
| PathResolveExamples.TwoDistinctValues | HttpButler/Services/PathResolveService.cs:33-34 | two properties with names that differ ignoring case each supply their own placeholder |
| PathResolveExamples.ResolveTwoPlaceholders | HttpButler/Services/PathResolveService.cs:28-45 | two placeholders resolve to the three literals with the two escaped values between them |
| PathResolveExamples.PhotoValues | HttpButler.Test/PathResolveServiceTest.cs:16-20 | "A01" and "7d36b9155" need no escaping, and "userId" and "photoId" differ ignoring case |
| PathResolveExamples.ResolvePhotoRoute | HttpButler.Test/PathResolveServiceTest.cs:9-26 | the first unit test: the photo template with userId "A01" and photoId "7d36b9155" gives "/users/A01/photos/7d36b9155" |
| PathResolveExamples.ResolveUserRoute | HttpButler.Test/PathResolveServiceTest.cs:28-45 | the second unit test: "/users/{userId}/photos" with userId "A01" gives "/users/A01/photos" |
| DeterministicGuid.ToByteArray | HttpButler/Utils/DeterministicGuid.cs:15 | the .NET layout of a Guid is 16 bytes |
| DeterministicGuid.Le16RoundTrip | HttpButler/Utils/DeterministicGuid.cs:15 | a 16-bit field read back from its little-endian bytes is itself |
| DeterministicGuid.Decode16RoundTrip | HttpButler/Utils/DeterministicGuid.cs:57 | two bytes read as a 16-bit field and written again are the same bytes |
| DeterministicGuid.FromToByteArray | HttpButler/Utils/DeterministicGuid.cs:57 | `new Guid(bytes)` reads back the Guid whose layout the bytes are |
| DeterministicGuid.ToFromByteArray | HttpButler/Utils/DeterministicGuid.cs:57 | the Guid read from 16 bytes has exactly those bytes as its layout |
| DeterministicGuid.NetworkOrder | HttpButler/Utils/DeterministicGuid.cs:9 | the big-endian form of a Guid is 16 bytes |
| DeterministicGuid.SwapIndex | HttpButler/Utils/DeterministicGuid.cs:68-79 | the swap moves bytes only among the first eight and leaves the rest where they are |
| DeterministicGuid.Swapped | HttpButler/Utils/DeterministicGuid.cs:68-79 | the swapped bytes keep the length and every byte from offset 8 on |
| DeterministicGuid.SwappedByBytes | HttpButler/Utils/DeterministicGuid.cs:70-78 | bytes 0-3 reversed, 4 and 5 exchanged, 6 and 7 exchanged, and the rest kept, is the swap |
| DeterministicGuid.SwapByteOrder | HttpButler/Utils/DeterministicGuid.cs:68-79 | the in-place exchanges leave the array holding the swap of its old contents |
| DeterministicGuid.SwappedInvolution | HttpButler/Utils/DeterministicGuid.cs:17-18 | swapping twice restores the bytes, so one routine converts both ways |
| DeterministicGuid.SwappedPrefix | HttpButler/Utils/DeterministicGuid.cs:54-55 | swapping the first 16 bytes of the digest is swapping the digest and keeping 16 bytes |
| DeterministicGuid.NetworkOrderIsSwapped | HttpButler/Utils/DeterministicGuid.cs:15-18 | the swap turns the .NET layout into the big-endian form |
| DeterministicGuid.NetworkOrderInjective | HttpButler/Utils/DeterministicGuid.cs:57 | two Guids are equal exactly when their big-endian forms are |
| DeterministicGuid.NetworkOrderOfLayout | HttpButler/Utils/DeterministicGuid.cs:54-57 | the Guid built from swapped bytes has those bytes, unswapped, as its big-endian form |
| DeterministicGuid.NamespaceBytes | HttpButler/Utils/DeterministicGuid.cs:10 | the namespace bytes are 16 |
| DeterministicGuid.NamespaceBytesValue | HttpButler/Utils/DeterministicGuid.cs:14-18 | the namespace bytes are the hexadecimal pairs of "9a692101-09fa-41ce-8c0f-97d36b915581", in text order |
| DeterministicGuid.InitNamespaceBytes | HttpButler/Utils/DeterministicGuid.cs:12-19 | the static constructor's buffer, the layout swapped in place, holds the namespace bytes |
| DeterministicGuid.HashInput | HttpButler/Utils/DeterministicGuid.cs:24-40 | the hashed input is `16 + byteCount` long and starts with the namespace bytes |
| DeterministicGuid.NameBasedGuidVersion | HttpButler/Utils/DeterministicGuid.cs:48-50 | the high nibble of byte 6 is 5 with its low nibble kept, and the top bits of byte 8 are 10 with its low six bits kept |
| DeterministicGuid.NameBasedGuidDeterministic | HttpButler/Utils/DeterministicGuid.cs:54-57 | one digest determines one Guid |
| DeterministicGuid.FromString | HttpButler/Utils/DeterministicGuid.cs:21-65 | the result is the name-based Guid of the SHA-1 of the first `16 + byteCount` buffer bytes, whatever the rented array holds beyond them |
| DeterministicGuid.StampedDigestIsNameBased | HttpButler/Utils/DeterministicGuid.cs:48-57 | a Guid whose big-endian form is the first 16 bytes of the stamped digest is that digest's name-based Guid |
| JsonOptionsResolver.JsonOptionsResolver.GetJsonOptions | HttpButler/Services/JsonOptionsResolver.cs:33-39 | a present key gives its dictionary entry; any other key gives the default |
| JsonOptionsResolver.Create | HttpButler/Services/JsonOptionsResolver.cs:11-15 | the serializer's shared default with an empty dictionary |
| JsonOptionsResolver.CreateWithDefault | HttpButler/Services/JsonOptionsResolver.cs:17-20 | the given default with an empty dictionary |
| JsonOptionsResolver.CreateWithDictionary | HttpButler/Services/JsonOptionsResolver.cs:22-25 | the given dictionary with a newly created options object as the default |
| JsonOptionsResolver.CreateWithBoth | HttpButler/Services/JsonOptionsResolver.cs:27-31 | the given default and dictionary, kept as they are |
| JsonOptionsResolver.EmptyDictionaryGivesDefault | HttpButler/Services/JsonOptionsResolver.cs:11-20 | a resolver built without a dictionary answers every key with its default |
| JsonOptionsResolver.GetJsonOptionsSource | HttpButler/Services/JsonOptionsResolver.cs:33-39 | every answer is the default or a dictionary entry, and an answer other than the default is the entry of that key |
| HttpButlerOptions.GetType | HttpButler/HttpButlerOptions.cs:75 | the lookup finds a type of the assembly with that full name, and finds none only when no type has it |
| HttpButlerOptions.AddIfAbsent | HttpButler/HttpButlerOptions.cs:124-134 | afterwards a descriptor for the service type is present |
| HttpButlerOptions.ServiceCollection.Add | HttpButler/HttpButlerOptions.cs:144 | the descriptor is appended at the end |
| HttpButlerOptions.ServiceCollection.AddUnlessPresent | HttpButler/HttpButlerOptions.cs:127-134 | the descriptor is appended only when its service type is absent |
| HttpButlerOptions.HttpButlerOptions.constructor | HttpButler/HttpButlerOptions.cs:18-23 | empty tables, and a newly created options object as the default |
| HttpButlerOptions.HttpButlerOptions.AddHttpInterface | HttpButler/HttpButlerOptions.cs:71-83 | an absent interface is recorded with the given implementation, or else with the type named `{Namespace}.gHttpButler_{Name}`; a present one is never overwritten; JSON options are added only when given; returns the same object, or the duplicate-key failure |
| HttpButlerOptions.HttpButlerOptions.AddDefaultJsonOptions | HttpButler/HttpButlerOptions.cs:90-94 | replaces the default, changes nothing else, and returns the same object |
| HttpButlerOptions.HttpButlerOptions.AddInterfaceJsonOptions | HttpButler/HttpButlerOptions.cs:111-116 | adds the options under `gHttpButler_{Name}`; a key already present fails and leaves the table unchanged; otherwise returns the same object |
| HttpButlerOptions.HttpButlerOptions.Register | HttpButler/HttpButlerOptions.cs:122-165 | the collection ends as the framework services added if absent, then each interface in insertion order added scoped if absent, stopping at the first null implementation with that error |
| HttpButlerOptions.AddInterfaces | HttpButler/HttpButlerOptions.cs:136-164 | each configured interface, in insertion order, is added scoped unless already present; a null implementation stops the loop with its error; the collection and error are those of RegisterInterfaces |
| HttpButlerOptions.RegisterErrorSticks | HttpButler/HttpButlerOptions.cs:136-144 | once the loop has thrown, later interfaces change nothing |
| HttpButlerOptions.RegisterInterfacesAppends | HttpButler/HttpButlerOptions.cs:136-164 | registration only appends; the descriptors present before stay, in place |
| HttpButlerOptions.AddIfAbsentKeepsDistinct | HttpButler/HttpButlerOptions.cs:124-134 | a checked addition never creates a second descriptor for a service type |
| HttpButlerOptions.RegisterKeepsDistinct | HttpButler/HttpButlerOptions.cs:122-165 | starting from distinct service types, Register keeps them distinct |
| HttpButlerOptions.InterfacesKeepDistinct | HttpButler/HttpButlerOptions.cs:136-144 | the interface loop keeps service types distinct |
| HttpButlerOptions.RegisterCovers | HttpButler/HttpButlerOptions.cs:136-144 | after a loop that did not throw, every configured interface has a descriptor |
| HttpButlerOptions.RegisterFrameworkCovers | HttpButler/HttpButlerOptions.cs:127-134 | after the first three steps the three framework services are present |
| HttpButlerOptions.RegisterInterfacesWhenPresent | HttpButler/HttpButlerOptions.cs:141-142 | interfaces already present are skipped, so nothing is added and nothing fails |
| HttpButlerOptions.ContainsServiceGrows | HttpButler/HttpButlerOptions.cs:124-125 | a service present in a prefix is present in the whole collection |
| HttpButlerOptions.RegisterTwiceAddsNothing | HttpButler/HttpButlerOptions.cs:122-165 | a second Register after a successful one adds nothing and does not fail |
| HttpButlerOptions.RegisteredResolverLookup | HttpButler/HttpButlerOptions.cs:113-114 | the installed resolver answers an interface's key with the options added for it, and every other key as before |
| HttpButlerOptions.JsonOptionsKeyIgnoresNamespace | HttpButler/HttpButlerOptions.cs:113 | two interfaces share a JSON options key exactly when their simple names are equal, whatever their namespaces |
| InterfaceModel.ParseHttpMethod | HttpButler.Generator/InterfaceImplementationGenerator.cs:185-199 | the verb is the attribute name without its first four and last nine characters, when that is a verb name, and none otherwise |
| InterfaceModel.ParseAttributeName | HttpButler.Generator/InterfaceImplementationGenerator.cs:185-199 | "Http<Verb>Attribute" parses back to its verb |
| StringBuilderHelper.StringBuilder.Append | HttpButler.Generator/StringBuilderHelper.cs:11-13 | the text is appended |
| StringBuilderHelper.StringBuilder.AppendLine | HttpButler.Generator/StringBuilderHelper.cs:13 | the text and a line terminator are appended |
| StringBuilderHelper.StringBuilder.AppendEmptyLine | HttpButler.Generator/ClassBuilder.cs:168 | a line terminator alone is appended |
| StringBuilderHelper.StringBuilder.AppendRepeat | HttpButler.Generator/StringBuilderHelper.cs:89 | the character is appended the given number of times |
| StringBuilderHelper.Repeat | HttpButler.Generator/StringBuilderHelper.cs:89 | `count` characters, each the given one |
| StringBuilderHelper.IndentationAdds | HttpButler.Generator/StringBuilderHelper.cs:88-89 | level `n` indents by exactly `4*n` spaces, and levels add up |
| StringBuilderHelper.AppendIdentation | HttpButler.Generator/StringBuilderHelper.cs:88-89 | appends the indentation of the given level, four spaces per level; the level defaults to 1 |
| StringBuilderHelper.DefaultWrittenIff | HttpButler.Generator/StringBuilderHelper.cs:74-82 | a parameter is written as bare `Type Name` exactly when it has no explicit default; otherwise ` = Default` follows |
| StringBuilderHelper.JoinSnoc | HttpButler.Generator/StringBuilderHelper.cs:74 | one more text adds one separator before it, none before the first |
| StringBuilderHelper.ParameterTexts | HttpButler.Generator/StringBuilderHelper.cs:74-82 | one rendered text per parameter, in order |
| StringBuilderHelper.ParametersTextIsJoin | HttpButler.Generator/StringBuilderHelper.cs:69-86 | the parameter list is the parameter texts joined by ", ": none before the first, none after the last, empty for no parameters |
| StringBuilderHelper.AppendParameters | HttpButler.Generator/StringBuilderHelper.cs:69-86 | the loop with its first-parameter counter appends ParametersText of the parameters, the joined list of ParametersTextIsJoin |
| StringBuilderHelper.LinesAppend | HttpButler.Generator/StringBuilderHelper.cs:23-29 | the lines of a split list are the lines of each part, one after the other |
| StringBuilderHelper.LinesCount | HttpButler.Generator/StringBuilderHelper.cs:23-29 | items that render as one line each give one line per item |
| StringBuilderHelper.LineCountAppend | HttpButler.Generator/StringBuilderHelper.cs:23-29 | the line terminators of a concatenation are those of its parts |
| StringBuilderHelper.OneLine | HttpButler.Generator/StringBuilderHelper.cs:29 | a text written with AppendLine is one line exactly when it holds no line terminator |
| StringBuilderHelper.FieldTextIsOneLine | HttpButler.Generator/StringBuilderHelper.cs:24-29 | a field declaration is one line |
| StringBuilderHelper.FieldsTextLines | HttpButler.Generator/StringBuilderHelper.cs:21-32 | one declaration line per field |
| StringBuilderHelper.AppendFieldDeclaration | HttpButler.Generator/StringBuilderHelper.cs:21-32 | appends `private readonly T n;` at level 1 for each field, in field order |
| StringBuilderHelper.NamespaceIsOneLine | HttpButler.Generator/StringBuilderHelper.cs:10-13 | `namespace X;` and a line terminator: one line |
| StringBuilderHelper.AppendNamespace | HttpButler.Generator/StringBuilderHelper.cs:10-13 | appends the namespace declaration |
| StringBuilderHelper.ClassDeclarationIsOneLine | HttpButler.Generator/StringBuilderHelper.cs:15-19 | `public class C : I` and a line terminator: one line |
| StringBuilderHelper.AppendClassDeclaration | HttpButler.Generator/StringBuilderHelper.cs:15-19 | appends the class declaration |
| StringBuilderHelper.AppendNullableContext | HttpButler.Generator/StringBuilderHelper.cs:7-8 | appends `#nullable enable` and a line terminator |
| StringBuilderHelper.AppendClassConstructor | HttpButler.Generator/StringBuilderHelper.cs:34-57 | appends the signature and braces at level 1, with one `this.field = param;` line at level 2 per mapping, in order |
| StringBuilderHelper.AppendMethod | HttpButler.Generator/StringBuilderHelper.cs:59-67 | appends `public async R Name(params)` at level 1 and a line terminator |
| ClassBuilder.Filter | HttpButler.Generator/ClassBuilder.cs:93-94 | a parameter is kept exactly when it is in the list and passes the test, and no more are kept than were given |
| ClassBuilder.Names | HttpButler.Generator/ClassBuilder.cs:103 | the names of the parameters, in order |
| ClassBuilder.PlainParameterIsQuery | HttpButler.Generator/ClassBuilder.cs:93-94 | a parameter without attributes goes to the query and never to the body |
| ClassBuilder.OpenKeyLines | HttpButler.Generator/ClassBuilder.cs:40-45 | an opening brace is one line with a line break, none without |
| ClassBuilder.ClosedKeyLines | HttpButler.Generator/ClassBuilder.cs:52-58 | a closing brace is one line with a line break, none without |
| ClassBuilder.AnonymousTextLines | HttpButler.Generator/ClassBuilder.cs:61-74 | an anonymous object spans two lines more than it has fields: `new`, the opening brace, and one per field |
| ClassBuilder.CallArgumentCount | HttpButler.Generator/ClassBuilder.cs:155-162 | a POST call gets four arguments and every other call three, starting with the factory key and the route |
| ClassBuilder.QueryArgumentIff | HttpButler.Generator/ClassBuilder.cs:93-158 | the third argument is `qParams` exactly when some parameter goes to the query, and `null` otherwise |
| ClassBuilder.BodyArgumentIff | HttpButler.Generator/ClassBuilder.cs:110-162 | a POST call's fourth argument is `bParams` exactly when some parameter goes to the body, and `null` otherwise |
| ClassBuilder.NullableAsWrittenNeverHolds | HttpButler.Generator/ClassBuilder.cs:142 | when the return type's text is exactly "System.Threading.Tasks.Task<" + T + ">", the check as written never selects the nullable variant, whatever T is |
| ClassBuilder.NullableTodoCounterexample | HttpButler.Generator/ClassBuilder.cs:142 | GetTodoAsync, returning Task<Todo?>, has a nullable result that the check as written misses |
| ClassBuilder.CallHeadAsWritten | HttpButler.Generator/ClassBuilder.cs:137-153 | the call head as the source writes it: for a Task<T> method the verb is followed by "WithNullableResult<" exactly when the return type's text ends in "?"; a plain Task method awaits the verb's call with no type argument |
| ClassBuilder.CallHeadAsWrittenIff | HttpButler.Generator/ClassBuilder.cs:137-153 | the builder's call head equals the one the source writes exactly when the method is a plain Task method or the two nullable tests agree |
| ClassBuilder.CalledMethodIff | HttpButler.Generator/ClassBuilder.cs:137-153 | the `WithNullableResult` variant is called exactly for a Task<T> method whose T ends in "?"; the verb is always kept |
| ClassBuilder.CallHeadNamesCalledMethod | HttpButler.Generator/ClassBuilder.cs:137-153 | a Task<T> call returns the awaited typed call `<T>`, and a plain Task call only awaits |
| ClassBuilder.ArgumentsWritten | HttpButler.Generator/ClassBuilder.cs:155-162 | the argument text written piece by piece is the call arguments joined by ", " |
| ClassBuilder.QueryDeclaredIff | HttpButler.Generator/ClassBuilder.cs:93-106 | `qParams` is declared exactly when some parameter goes to the query |
| ClassBuilder.BodyDeclaredIff | HttpButler.Generator/ClassBuilder.cs:108-131 | `bParams` is declared exactly for a POST with some parameter going to the body |
| ClassBuilder.BodyValueShape | HttpButler.Generator/ClassBuilder.cs:125-128 | one body parameter is passed by name; several are wrapped in an anonymous object |
| ClassBuilder.ClassBuilder.constructor | HttpButler.Generator/ClassBuilder.cs:5-9 | level 0 and an empty builder |
| ClassBuilder.ClassBuilder.AppendOpenKey | HttpButler.Generator/ClassBuilder.cs:40-48 | appends "{" (with a line break if asked) and goes one level deeper |
| ClassBuilder.ClassBuilder.AppendClosedKey | HttpButler.Generator/ClassBuilder.cs:50-59 | goes one level shallower first, then appends the indentation of the new level and "}" |
| ClassBuilder.ClassBuilder.AppendAnonymous | HttpButler.Generator/ClassBuilder.cs:61-74 | appends `new`, the braces at the current level and one `field,` line per field one level deeper, in order; the level is unchanged |
| ClassBuilder.ClassBuilder.AppendRoute | HttpButler.Generator/ClassBuilder.cs:87-90 | appends the route constant, with the route copied verbatim |
| ClassBuilder.ClassBuilder.AppendQueryParams | HttpButler.Generator/ClassBuilder.cs:93-106 | appends the `qParams` declaration only when there are query parameters |
| ClassBuilder.ClassBuilder.AppendBodyParams | HttpButler.Generator/ClassBuilder.cs:108-132 | appends the `bParams` declaration only for a POST with body parameters, and reports whether it did |
| ClassBuilder.ClassBuilder.AppendCall | HttpButler.Generator/ClassBuilder.cs:134-164 | appends the call statement with its chosen variant and arguments |
| ClassBuilder.ClassBuilder.BuildMethod | HttpButler.Generator/ClassBuilder.cs:76-169 | appends the method's signature, its braced body one level deeper, and a blank line; the level is restored |
| ClassBuilder.ClassBuilder.AppendClassHead | HttpButler.Generator/ClassBuilder.cs:13-30 | appends the nullable context, namespace, declaration, opening brace, fields and constructor; one level deeper |
| ClassBuilder.ClassBuilder.BuildMethods | HttpButler.Generator/ClassBuilder.cs:32-33 | appends every method in order at the current level, which is unchanged |
| ClassBuilder.ClassBuilder.BuildClass | HttpButler.Generator/ClassBuilder.cs:11-38 | returns the builder's text, which is the class rendering; the nesting level ends where it started |
| ClassBuilder.Generate | HttpButler.Generator/ClassBuilder.cs:5-38 | a new builder's class text is the class rendered from level 0 |

## Left out

- Reflection: `GetType().GetProperties()`, `GetValue` and `ToString`. A parameter object is given as its properties, in declaration order, each with an optional string value.
- The final `new Uri(route, UriKind.RelativeOrAbsolute)`: ResolveUri returns the route string.
- `OrdinalIgnoreCase` beyond ASCII: only the letters a-z and A-Z are folded.
- The parse cache is keyed by the route string, not by the 128-bit name-based GUID of the route, so GUID collisions are not modelled.
- The concurrency of `ConcurrentDictionary`: the cache is a sequential map.
- SHA-1: FromString takes the hash function as a parameter.
- The stackalloc/ArrayPool choice: the bytes past `16 + byteCount` in a rented array are a parameter that the result is proved not to depend on.
- Lone surrogates: the GUID name and the property values passed to `Uri.EscapeDataString` are Dafny strings of scalar values, so a .NET string holding a lone surrogate is not modelled in either place.
- Parsing the Guid text in the static constructor: the namespace Guid is given by its fields.
- The Guid fields are unsigned: .NET's `int` and `short` fields are read only through their bytes.
- DeterministicGuid.SwapByteOrder: its contract states the resulting sequence; that this is a permutation follows from SwappedInvolution but is not stated as a multiset equality.
- `HttpButlerOptions.RegisterHttpInterfaces`, the generic overloads and `ServiceCollectionExtension.cs` need assembly scanning and type arguments. The generic `AddHttpInterface<TIface>` overloads reduce to the modelled AddHttpInterface.
- The `AddHttpClient`, `RouteAttribute` and `new Uri` part of the Register loop (HttpButlerOptions.cs:149-163) is not modelled.
  - The loop also appends the descriptors that `AddHttpClient` registers, among them one `IConfigureOptions<HttpClientFactoryOptions>` per interface. These descriptors are not tracked, so RegisterKeepsDistinct, InterfacesKeepDistinct and RegisterCovers speak of the tracked descriptors only.
  - `new Uri(route.Path)` throws on a relative interface-level route after that interface was added. The model goes on to the next interface.
- The cache is a static field in the source (PathResolveService.cs:12). Here it is a field of one PathResolveService instance, so sharing entries between instances is not modelled. Every entry is the parse of its key either way.
- Exception messages and types: failures are values (`NullImplementation`, `DuplicateJsonOptionsKey`, `MissingParameter`, `NullParameterValue`).
- The options dictionaries are values: aliasing of the dictionary handed to a JsonOptionsResolver is not modelled.
- `Environment.NewLine` is "\n".
- A negative indentation level: levels are natural numbers; AppendClosedKey requires a level of at least 1, which BuildClass always meets.
- `TypeModel` (InterfaceModel.cs:43-51) is not part of this model.
- InterfaceModel.MethodModel: this model follows the seven fields the generator passes (InterfaceImplementationGenerator.cs:107-115) and ClassBuilder.cs reads, not the five-field record at InterfaceModel.cs:13-20.
- ClassBuilder.ClassBuilder.BuildMethod: the second `AppendOpenKey(sb)` at ClassBuilder.cs:84 names no variable in scope and is not modelled; with it, every method body would open one level more than it closes.
- PUT and DELETE calls get no body argument, because the builder passes one only for POST.
- The HttpMethod enum values are inferred from the attribute names, and `Enum.TryParse`'s acceptance of numeric or differently cased strings is not modelled in InterfaceModel.ParseHttpMethod.
- Roslyn symbol extraction: the records are given.
- Several consecutive literal `Append` calls in ClassBuilder.cs are merged into a single `Append` of their concatenation (the call head, the body argument). The text written is the same.
- The interface loop of Register (HttpButlerOptions.cs:136-164) is written as the module-level method HttpButlerOptions.AddInterfaces, which Register calls.
- ClassBuilder.ClassBuilder.AppendCall: the nullable-result variant is chosen by NullableResult (the generic argument ends in '?'), not by the test at ClassBuilder.cs:142 (the return type's text ends in '?'); BuildMethod, BuildMethods, BuildClass and Generate inherit this. CallHeadAsWritten is the source's call head, and CallHeadAsWrittenIff states exactly where the two differ.
- Sections of BuildClass and BuildMethod are written as helper methods of the class: AppendClassHead, BuildMethods, AppendRoute, AppendQueryParams, AppendBodyParams and AppendCall. Each writes what the corresponding lines write.

## Findings

| source | as written | input that shows it | evidently intended | confidence | as-written member | corrected member |
|---|---|---|---|---|---|---|
| HttpButler.Generator/ClassBuilder.cs:142 | the nullable-result variant is chosen when the last character of the return type's display text is '?' | `Task<Todo?> GetTodoAsync(int todoId)` (IJsonPlaceHolderTodo.cs:18): the return type's text ends in '>', so `Get<HttpButler.TestApi.Services.Todo?>` is written instead of `GetWithNullableResult<HttpButler.TestApi.Services.Todo?>` | test whether the awaited type T (the generic argument) ends in '?' | not executed | ClassBuilder.NullableTodoCounterexample, ClassBuilder.CallHeadAsWritten | ClassBuilder.CalledMethodIff, ClassBuilder.ClassBuilder.AppendCall |
