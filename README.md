# oss-weather core, modelled in Dafny

This project models the checkable core of the OSS Weather app, a
NativeScript weather client with Android (Glance) and iOS (SwiftUI) home
screen widgets. It covers five groups, one Dafny module per source file:

1. **The widget-layout expression language.**
   - `MapboxExpressions`: the Mapbox-style evaluator of `["op", ...]` arrays over JSON-like values.
   - `ExpressionCompiler`: compiles those arrays to Kotlin, Swift, JavaScript and TypeScript text.
   - `SharedUtils`: the `{{binding}}` template helpers.
   - `HtmlRenderer`: the HTML preview renderer.
   - `SvelteGenerator`: the NativeScript Svelte generator.
   - `SwiftGenerator`: the SwiftUI generator's string helpers.
   - `ModifierBuilders`: the colour, dimension, Glance modifier and CSS builders.
   - `Strings` and `JsValues`: the JavaScript built-ins and value semantics these rely on.
2. **The weather-code and unit mappers.**
   - `Icon`: the icon service, with its fallback table and lookup cache.
   - `OpenMeteo`, `MeteoFrance` and `AccuWeather`: the providers.
   - `Formatter`: the display formatters.
   - `UtilsCommon`: `nearest`, indexed colours and the France bounding box.
   - `AirQuality`: the AQI interpolation.
3. **The encoders.**
   - `Gadgetbridge`: the "WeatherGz" big-endian byte buffers.
   - `GadgetbridgeAndroid`: the Android JSON document with its windows.
   - `Api`: the URL query-string builder, the network state, the request guard and the default headers.
4. **The stores and in-place data structures.**
   - `WeatherData`: the merging of provider answers and the property visibility rules.
   - `Favorites`: the favourites with their parallel key list.
   - `WidgetConfigManager`: the app's widget configuration maps.
   - `WidgetDataManager`: the forecast lists handed to widgets.
   - `WeatherWidgetManager`: the Android active ids, data cache and configurations.
   - `WidgetSettings`: the iOS settings store.
5. **The scheduling and state rules.**
   - `TimelineProvider`: the iOS timeline schedule.
   - `GlanceReceiver`: the Android id remap on restore and the next clock tick.
   - `OfflineCache`: the OkHttp interceptor that marks responses "public, only-if-cached" when offline (section 5.2.1.7 of RFC 9111).
   - `Locale`: language resolution and the current language.

The source's own form is kept:
- Pure code is datatypes, functions and lemmas.
- Code that mutates state is classes whose fields are the source's mutable state, for example `Favorites.FavoritesStore`, `Icon.IconService`, `WeatherWidgetManager.WidgetManager`, `WidgetSettings.WidgetSettingsStore`, `Gadgetbridge.ByteBuffer` and `Api.NetworkService`.
- Loops are methods with invariants, proved against specification functions.

Persistence stands for the application settings, SharedPreferences or user defaults. It is modelled as fields holding maps, or what decoding a stored text yields. Clocks, the network, file listings and native calls are parameters.

JavaScript numbers are real numbers. Rounding, truncating divisions and 32-bit or 64-bit conversions are written out where the source relies on them.

Every operation computes what the source computes, including the defects listed under "## Findings". Where a defect has an evidently intended fix, the fixed definition is kept beside it under the same name with the suffix `Corrected` (for example `MeteoFrance.WindBearing` and `MeteoFrance.WindBearingCorrected`). The properties are proved of the code as written where they hold, and of the corrected definition otherwise, with a counterexample lemma for the code as written.

## Model

| member | source | states |
|---|---|---|
| MapboxExpressions.IsExpressionExactly | widget-layouts/mapbox-expressions.ts:13-15 | a value is an expression exactly when it is a non-empty array whose first element is a string |
| MapboxExpressions.Walk | widget-layouts/mapbox-expressions.ts:56-62 | an empty path gives the starting value; a non-empty path from undefined or null gives undefined |
| MapboxExpressions.Get | widget-layouts/mapbox-expressions.ts:40-42 | "get" throws exactly when its argument is not a string (prop.split fails) |
| MapboxExpressions.Clamp | widget-layouts/mapbox-expressions.ts:126-128 | a substring bound is clamped into 0..length |
| MapboxExpressions.Substring | widget-layouts/mapbox-expressions.ts:120-129 | a substring is never longer than the string |
| MapboxExpressions.Evaluate | widget-layouts/mapbox-expressions.ts:21-34 | null and undefined evaluate to null; strings, numbers and booleans and every non-expression evaluate to themselves |
| MapboxExpressions.GetDataPrefix | widget-layouts/mapbox-expressions.ts:45-49 | a "data." path is walked inside context.data when that is truthy |
| MapboxExpressions.WalkStopsAtNullish | widget-layouts/mapbox-expressions.ts:56-60 | once an intermediate value is undefined or null the whole path is undefined |
| MapboxExpressions.HasIffGet | widget-layouts/mapbox-expressions.ts:66-69 | "has" succeeds exactly when "get" does, and is true iff the value is not undefined, null or '' |
| MapboxExpressions.UnknownOperator | widget-layouts/mapbox-expressions.ts:159-161 | any other operator evaluates to undefined |
| MapboxExpressions.AllAnyAreConjunctionDisjunction | widget-layouts/mapbox-expressions.ts:98-101 | "all" is the conjunction and "any" the disjunction of the arguments' truthiness |
| MapboxExpressions.CaseFirstTruthy | widget-layouts/mapbox-expressions.ts:104-110 | "case" gives the value paired with the first truthy condition |
| MapboxExpressions.CaseNoMatch | widget-layouts/mapbox-expressions.ts:111-116 | with no truthy condition "case" gives the last argument for an odd argument count, else null |
| MapboxExpressions.NotEqualsNegates | widget-layouts/mapbox-expressions.ts:90-93 | "!=" succeeds exactly when "==" does and gives the opposite boolean |
| MapboxExpressions.PrimitiveEquality | widget-layouts/mapbox-expressions.ts:90-91 | two string, number or boolean literals are "==" exactly when they are the same value |
| MapboxExpressions.IsExpression | widget-layouts/mapbox-expressions.ts:13-15 | a non-empty array whose first element is a string |
| MapboxExpressions.GetPath | widget-layouts/mapbox-expressions.ts:40-62 | the property path split on '.', walked from context.data or from the context (its properties are GetDataPrefix and WalkStopsAtNullish) |
| MapboxExpressions.Op | widget-layouts/mapbox-expressions.ts:36 | the operator is the expression's first element |
| MapboxExpressions.ArgCount | widget-layouts/mapbox-expressions.ts:36 | the arguments are the elements after the operator |
| MapboxExpressions.Arg | widget-layouts/mapbox-expressions.ts:36-41 | a missing argument reads as undefined; a present one is an element of the expression |
| MapboxExpressions.ToNumeric | widget-layouts/mapbox-expressions.ts:72-89 | the number JavaScript converts null, a boolean or a number to |
| MapboxExpressions.IsNumeric | widget-layouts/mapbox-expressions.ts:72-89 | the operands the model converts to numbers itself |
| MapboxExpressions.Plus | widget-layouts/mapbox-expressions.ts:72-73 | two strings are concatenated and two numbers added |
| MapboxExpressions.Arith | widget-layouts/mapbox-expressions.ts:72-79 | +, -, * and / on the evaluated operands |
| MapboxExpressions.StrictEquals | widget-layouts/mapbox-expressions.ts:90-93 | === on anything but two arrays or objects is equality of the values |
| MapboxExpressions.StrLess | widget-layouts/mapbox-expressions.ts:82-89 | the lexicographic order JavaScript's < uses on two strings |
| MapboxExpressions.CompareReals | widget-layouts/mapbox-expressions.ts:82-89 | the four numeric comparisons |
| MapboxExpressions.Relational | widget-layouts/mapbox-expressions.ts:82-89 | any comparison with undefined is false |
| MapboxExpressions.ToInteger | widget-layouts/mapbox-expressions.ts:120-128 | substring's bounds: a number truncates towards zero, undefined, null and booleans give 0 or 1, and strings, arrays and objects are left to the runtime |
| MapboxExpressions.EvalArg | widget-layouts/mapbox-expressions.ts:73 | evaluateExpression(args[i], context), with a missing argument evaluating to null |
| MapboxExpressions.EvalAll | widget-layouts/mapbox-expressions.ts:98-99 | args.every: false at the first falsy argument, true otherwise |
| MapboxExpressions.EvalAny | widget-layouts/mapbox-expressions.ts:100-101 | args.some: true at the first truthy argument, false otherwise |
| MapboxExpressions.EvalCase | widget-layouts/mapbox-expressions.ts:104-117 | the value of the first truthy condition, else the fallback when the argument count is odd, else null |
| MapboxExpressions.EvalSubstring | widget-layouts/mapbox-expressions.ts:120-129 | String(value or '') cut by substring with the start and, when given, start + length |
| MapboxExpressions.SplitAfterFirst | widget-layouts/mapbox-expressions.ts:42-48 | splitting "head.rest" on '.', when head holds no '.', gives head and then the pieces of rest |
| SharedUtils.MatchAt | widget-layouts/generators/shared-utils.ts:115 | a match of the binding pattern at a position is a "{{", one or more characters other than '}', then "}}" |
| SharedUtils.MatchAtComplete | widget-layouts/generators/shared-utils.ts:115 | every binding span starting at a position is the one found there |
| SharedUtils.BindingFromIff | widget-layouts/generators/shared-utils.ts:115 | the scan finds a binding from a position exactly when some binding span starts at or after it |
| SharedUtils.HasTemplateBindingIff | widget-layouts/generators/shared-utils.ts:113-116 | hasTemplateBinding holds exactly when the text contains a "{{...}}" span without '}' inside |
| SharedUtils.PiecesConcat | widget-layouts/generators/shared-utils.ts:281 | the pieces split at the bindings, joined, give the template back |
| SharedUtils.PiecesWithoutBinding | widget-layouts/generators/shared-utils.ts:281 | a text without a binding splits into one piece |
| SharedUtils.WholeBinding | widget-layouts/generators/shared-utils.ts:264 | a piece matches as a whole binding exactly when it is "{{", text without '}', "}}", and the result is that text trimmed |
| SharedUtils.GetSingleBinding | widget-layouts/generators/shared-utils.ts:262-266 | a missing or empty template has no single binding |
| SharedUtils.SingleBindingOfBinding | widget-layouts/generators/shared-utils.ts:262-266 | "{{x}}" gives x trimmed |
| SharedUtils.WholeBindingOfBraces | widget-layouts/generators/shared-utils.ts:264-265 | "{{x}}" matches as a whole binding with value x trimmed |
| SharedUtils.SingleBindingRejectsText | widget-layouts/generators/shared-utils.ts:262-266 | a binding followed by text is not a single binding |
| SharedUtils.ToSegments | widget-layouts/generators/shared-utils.ts:283-295 | empty pieces are skipped and every segment is a non-empty text or a trimmed binding |
| SharedUtils.ParseTemplate | widget-layouts/generators/shared-utils.ts:279-298 | every segment of a parsed template is well formed |
| SharedUtils.ParseTemplatePlainText | widget-layouts/generators/shared-utils.ts:279-298 | a template without binding is one text segment, or none when empty |
| SharedUtils.GetSettingKey | widget-layouts/generators/shared-utils.ts:134-136 | the key is what follows the first 16 characters, empty for a shorter value |
| SharedUtils.SettingKeyRoundTrip | widget-layouts/generators/shared-utils.ts:124-136 | "config.settings." + key is a setting reference whose key is key |
| SharedUtils.NormalizePropertyPath | widget-layouts/generators/shared-utils.ts:207-220 | a trimmed path with a data./item./size./config. prefix is kept; any other gets "data." when asked |
| SharedUtils.NormalizePropertyPathIdempotent | widget-layouts/generators/shared-utils.ts:207-220 | normalising twice is normalising once |
| SharedUtils.NormalizeKeepsPrefixedPath | widget-layouts/generators/shared-utils.ts:207-216 | a prefixed path without surrounding space is unchanged |
| SharedUtils.PropertyNameIsLastSegment | widget-layouts/generators/shared-utils.ts:231-234 | the property name is a suffix of the path without '.' |
| SharedUtils.SanitizeIdentifier | widget-layouts/generators/shared-utils.ts:148-150 | same length, only [A-Za-z0-9_] characters, and those kept in place |
| SharedUtils.SanitizeIdentifierIdempotent | widget-layouts/generators/shared-utils.ts:148-150 | sanitising twice is sanitising once |
| SharedUtils.RemoveFirstHash | widget-layouts/generators/shared-utils.ts:438 | replace('#', '') removes at most one character |
| SharedUtils.ParseHexColor | widget-layouts/generators/shared-utils.ts:437-443 | an accepted colour is six upper-case hex digits |
| SharedUtils.ParseHexColorAcceptsHash | widget-layouts/generators/shared-utils.ts:437-443 | six hex digits, with or without '#', give the digits upper-cased |
| SharedUtils.RemoveFirstHashNoHash | widget-layouts/generators/shared-utils.ts:438 | a text without '#' is unchanged |
| SharedUtils.ToPlatformFontWeight | widget-layouts/generators/shared-utils.ts:461-505 | an absent or unknown weight gives the platform's normal weight; "bold" in any case gives the platform's bold |
| SharedUtils.Indent | widget-layouts/generators/shared-utils.ts:513-515 | level times spacesPerLevel spaces |
| SharedUtils.FirstClose | widget-layouts/generators/shared-utils.ts:115 | the first '}' at or after a position, with no '}' between: where the pattern's [^}]+ run ends |
| SharedUtils.BindingSpan | widget-layouts/generators/shared-utils.ts:115 | "{{", a non-empty run without '}', then "}}" |
| SharedUtils.BindingFrom | widget-layouts/generators/shared-utils.ts:115 | the pattern matches at or after a position |
| SharedUtils.HasTemplateBinding | widget-layouts/generators/shared-utils.ts:113-116 | a non-empty string in which the pattern matches (its property is HasTemplateBindingIff) |
| SharedUtils.ReplaceBindings | widget-layouts/generators/expression-compiler.ts:466-471 | template.replace with the binding pattern and the global flag: each binding replaced by the slot for its inner text |
| SharedUtils.ReplaceFrom | widget-layouts/generators/expression-compiler.ts:466-471 | the replacement scan from a position, leftmost match first |
| SharedUtils.ReplaceWithoutBinding | widget-layouts/generators/expression-compiler.ts:466-471 | a text without a binding comes out of the replacement unchanged |
| SharedUtils.Pieces | widget-layouts/generators/shared-utils.ts:281 | the split gives at least one piece |
| SharedUtils.SliceThree | widget-layouts/generators/shared-utils.ts:281 | three consecutive slices put back together give the text they cut |
| SharedUtils.WellFormedSegment | widget-layouts/generators/shared-utils.ts:283-295 | text segments are never empty and binding names carry no outer white space |
| SharedUtils.IsSettingReference | widget-layouts/generators/shared-utils.ts:124-126 | the value starts with "config.settings." |
| SharedUtils.HasKnownPrefix | widget-layouts/generators/shared-utils.ts:209-213 | the path starts with data., item., size. or config. |
| SharedUtils.IsItemPath | widget-layouts/generators/shared-utils.ts:242-244 | the trimmed path starts with "item." |
| SharedUtils.GetPropertyName | widget-layouts/generators/shared-utils.ts:231-234 | the last '.'-separated segment (its property is PropertyNameIsLastSegment) |
| SharedUtils.IsThemeColor | widget-layouts/generators/shared-utils.ts:411-428 | the colour is one of the six theme colour names |
| SharedUtils.IsHexDigit | widget-layouts/generators/shared-utils.ts:439 | a character in [0-9A-Fa-f] |
| SharedUtils.NormalWeight | widget-layouts/generators/shared-utils.ts:461-505 | the normal weight each platform falls back to |
| SharedUtils.Spaces | widget-layouts/generators/shared-utils.ts:513-515 | ' '.repeat(count): count spaces |
| ExpressionCompiler.EscapeKotlinJsPerChar | widget-layouts/generators/expression-compiler.ts:484-485 | the Kotlin and JavaScript escape works character by character: backslash, quote and newline are escaped, others kept |
| ExpressionCompiler.UnescapeEscapeKotlinJs | widget-layouts/generators/expression-compiler.ts:484-485 | the Kotlin/JavaScript escape is undone by reading the escapes back: every string round-trips |
| ExpressionCompiler.UnescapeEscapeSwiftCorrected | widget-layouts/generators/expression-compiler.ts:486-491 | corrected, with the interpolation marker kept by position instead of through a placeholder, the Swift escape round-trips every string |
| ExpressionCompiler.EscapeSwiftAgrees | widget-layouts/generators/expression-compiler.ts:486-491 | on text without an underscore the placeholder cannot clash, and the escape as written equals the corrected one |
| ExpressionCompiler.EscapeSwiftReadsBack | widget-layouts/generators/expression-compiler.ts:486-491 | the Swift escape as written reads back to the original text whenever the text has no underscore |
| ExpressionCompiler.EscapeSwiftPlaceholderClash | widget-layouts/generators/expression-compiler.ts:488-491 | as written, a literal "__SWIFT_INTERP__" in the text comes out as an interpolation "\(" and does not read back |
| ExpressionCompiler.PlaceholderKept | widget-layouts/generators/expression-compiler.ts:488-491 | the corrected escape keeps the text "__SWIFT_INTERP__" as it is |
| ExpressionCompiler.EscapeSwiftPlain | widget-layouts/generators/expression-compiler.ts:486-491 | a text without backslash, quote or underscore is unchanged by the Swift escape as written |
| ExpressionCompiler.EscapeSwiftCorrectedPlain | widget-layouts/generators/expression-compiler.ts:490 | a text without backslash or quote is unchanged by the corrected Swift escape |
| ExpressionCompiler.EscapeStringReadsBack | widget-layouts/generators/expression-compiler.ts:482-497 | escapeString round-trips on Kotlin, JavaScript and TypeScript for every text, and on Swift for every text without an underscore |
| ExpressionCompiler.CompileGet | widget-layouts/generators/expression-compiler.ts:175-202 | item., data. and config. paths are kept; other paths get "data." when asked |
| ExpressionCompiler.CompileGetSize | widget-layouts/generators/expression-compiler.ts:177-186 | size.w becomes size.w.value in Kotlin, w in Swift, and stays size.w in JavaScript |
| ExpressionCompiler.CompileHas | widget-layouts/generators/expression-compiler.ts:207-219 | has is the compiled path with .isNotEmpty() (Kotlin), !….isEmpty (Swift) or the three JavaScript comparisons |
| ExpressionCompiler.TernaryCase | widget-layouts/generators/expression-compiler.ts:339-344 | the nested ternary ends with the fallback and starts with the first condition |
| ExpressionCompiler.BuildTernary | widget-layouts/generators/expression-compiler.ts:354-358 | the backward loop builds exactly the nested ternary of the pairs |
| ExpressionCompiler.WhenArms | widget-layouts/generators/expression-compiler.ts:324 | one "condition -> value" arm per pair, in order |
| ExpressionCompiler.CaseFor | widget-layouts/generators/expression-compiler.ts:318-362 | without pairs every platform emits the fallback |
| ExpressionCompiler.InterpolatePlainText | widget-layouts/generators/expression-compiler.ts:460-475 | a template without bindings is quoted as it is on Kotlin and Swift, and back-quoted with a space before the closing back-quote on JavaScript |
| ExpressionCompiler.InterpolateCorrectedPlainText | widget-layouts/generators/expression-compiler.ts:460-475 | corrected, a template without bindings is quoted or back-quoted exactly as it is, and Kotlin and Swift agree with the code as written |
| ExpressionCompiler.InterpolateOneBinding | widget-layouts/generators/expression-compiler.ts:465-471 | "{{x}}" becomes "${data.x}" (Kotlin), "\(data.x)" (Swift) or `${data.x} ` with the extra space (JavaScript) |
| ExpressionCompiler.OneBindingReplaced | widget-layouts/generators/expression-compiler.ts:466 | the binding replacement applies the slot function to the binding text |
| ExpressionCompiler.InterpolateTrailingSpace | widget-layouts/generators/expression-compiler.ts:471 | as written, the JavaScript template literal gets a space before its closing back-quote ("" gives "` `") |
| ExpressionCompiler.CompileLiteral | widget-layouts/generators/expression-compiler.ts:76-82 | a string literal is quoted and escaped in value context and emitted raw in condition context |
| ExpressionCompiler.Compile | widget-layouts/generators/expression-compiler.ts:65-104 | null and undefined compile to the platform's null, literals to their literal form |
| ExpressionCompiler.CompileArgs | widget-layouts/generators/expression-compiler.ts:365-376 | one compiled text per argument |
| ExpressionCompiler.CasePairs | widget-layouts/generators/expression-compiler.ts:292-298 | one pair per condition/value couple of the arguments |
| ExpressionCompiler.CompilePropertyValue | widget-layouts/generators/expression-compiler.ts:510-526 | undefined gives the default (or ''), a literal with a formatter is formatted, anything else is compiled |
| ExpressionCompiler.StringLiteral | widget-layouts/generators/expression-compiler.ts:77-82 | a string is emitted raw in a condition and quoted and escaped in a value |
| ExpressionCompiler.ArithmeticParenthesised | widget-layouts/generators/expression-compiler.ts:225-233 | arithmetic compiles to "(left op right)" with both sides in value context |
| ExpressionCompiler.GetKeepsPrefixedPath | widget-layouts/generators/expression-compiler.ts:110-111 | a get of a data., config. or item. path compiles to that path |
| ExpressionCompiler.PrefixedPathKept | widget-layouts/generators/expression-compiler.ts:191-198 | compileGet keeps data., config. and item. paths |
| ExpressionCompiler.CaseWithoutPairs | widget-layouts/generators/expression-compiler.ts:287-303 | a case with only a fallback compiles to the fallback; an empty case gives the default fallback |
| ExpressionCompiler.CaseIsTernary | widget-layouts/generators/expression-compiler.ts:328-362 | on Swift and JavaScript ["case", c, v, fb] compiles to "c ? v : fb" with c in condition context |
| ExpressionCompiler.TernaryOnePair | widget-layouts/generators/expression-compiler.ts:335-337 | one pair gives "c ? v : fallback" |
| ExpressionCompiler.CaseOfPairs | widget-layouts/generators/expression-compiler.ts:287-315 | a case with a fallback compiles to the platform form of its pairs and fallback |
| ExpressionCompiler.OnePair | widget-layouts/generators/expression-compiler.ts:292-298 | ["case", c, v, fb] has the one pair (c compiled as a condition, v as a value) |
| ExpressionCompiler.UnknownOperator | widget-layouts/generators/expression-compiler.ts:162-164 | an unknown operator compiles to the comment "/* unknown op: op */" |
| ExpressionCompiler.InValue | widget-layouts/generators/expression-compiler.ts:230-231 | the options used for operands compiled as values: the same options with the value context |
| ExpressionCompiler.InCondition | widget-layouts/generators/expression-compiler.ts:244-245 | the options used for operands compiled as conditions: condition context and no formatter |
| ExpressionCompiler.NullLiteral | widget-layouts/generators/expression-compiler.ts:71-73 | the literal a missing or null operand compiles to: nil in Swift, null on the other platforms |
| ExpressionCompiler.EscapeKotlinJs | widget-layouts/generators/expression-compiler.ts:484-485 | the Kotlin and JavaScript escape of a literal body as three successive replacements (its read-back partner is UnescapeEscapeKotlinJs) |
| ExpressionCompiler.EscapeKotlinJsChar | widget-layouts/generators/expression-compiler.ts:484-485 | the escape of one character: backslash, quote and newline escaped, any other character kept |
| ExpressionCompiler.EscapeKotlinJsOne | widget-layouts/generators/expression-compiler.ts:484-485 | the three replacements applied to a one-character string give that character's escape |
| ExpressionCompiler.UnescapeKotlinJs | widget-layouts/generators/expression-compiler.ts:484-485 | how a Kotlin or JavaScript compiler reads the escaped body back; the partner of the escape |
| ExpressionCompiler.EscapeSwift | widget-layouts/generators/expression-compiler.ts:486-491 | the Swift escape as written: park each interpolation marker in a placeholder, escape backslashes and quotes, then turn every placeholder into a marker |
| ExpressionCompiler.EscapeQuoting | widget-layouts/generators/expression-compiler.ts:490 | the middle pass of the Swift escape: backslashes then quotes escaped |
| ExpressionCompiler.EscapeSwiftCorrected | widget-layouts/generators/expression-compiler.ts:486-491 | the Swift escape with the marker kept by position, so that text equal to the placeholder is not turned into a marker |
| ExpressionCompiler.UnescapeSwift | widget-layouts/generators/expression-compiler.ts:486-491 | how Swift reads the escaped body back, leaving each interpolation marker as it is |
| ExpressionCompiler.MarkerReadsBack | widget-layouts/generators/expression-compiler.ts:491 | an interpolation marker reads back as itself |
| ExpressionCompiler.AsWrittenOnPlaceholder | widget-layouts/generators/expression-compiler.ts:488-491 | text equal to the placeholder is escaped as written into an interpolation marker |
| ExpressionCompiler.PlaceholderPlain | widget-layouts/generators/expression-compiler.ts:488 | the placeholder holds no backslash and no quote |
| ExpressionCompiler.ReplaceAllWhole | widget-layouts/generators/expression-compiler.ts:491 | replacing a whole non-empty text that equals the pattern yields the replacement |
| ExpressionCompiler.QuotingPlaceholder | widget-layouts/generators/expression-compiler.ts:490 | the middle pass leaves the placeholder unchanged |
| ExpressionCompiler.QuotingAppend | widget-layouts/generators/expression-compiler.ts:490 | the middle pass distributes over concatenation |
| ExpressionCompiler.QuotingChar | widget-layouts/generators/expression-compiler.ts:490 | the middle pass on one character is its escape, and it never produces an underscore from another character |
| ExpressionCompiler.RestoreParked | widget-layouts/generators/expression-compiler.ts:490-491 | a parked marker comes out of the last two passes as an interpolation marker |
| ExpressionCompiler.RestoreChar | widget-layouts/generators/expression-compiler.ts:490-491 | a character other than an underscore comes out of the last two passes as its own escape |
| ExpressionCompiler.EscapeString | widget-layouts/generators/expression-compiler.ts:482-496 | the per-platform escape: Swift uses its own escape, every other platform the Kotlin and JavaScript one (EscapeStringReadsBack is its read-back partner) |
| ExpressionCompiler.SplitWithoutSeparator | widget-layouts/generators/expression-compiler.ts:178-179 | text without a dot splits into itself alone |
| ExpressionCompiler.KotlinCase | widget-layouts/generators/expression-compiler.ts:318-326 | the Kotlin case is a when block as soon as there is one pair, and the fallback alone otherwise |
| ExpressionCompiler.DefaultFallback | widget-layouts/generators/expression-compiler.ts:302-304 | the fallback of a case with an even argument count: the formatter applied to the empty string, or an empty literal |
| ExpressionCompiler.KotlinSlot | widget-layouts/generators/expression-compiler.ts:466 | a binding in a Kotlin or JavaScript template becomes an interpolation of data.name |
| ExpressionCompiler.SwiftSlot | widget-layouts/generators/expression-compiler.ts:468 | a binding in a Swift template becomes an interpolation of data.name |
| ExpressionCompiler.Interpolate | widget-layouts/generators/expression-compiler.ts:460-472 | the template as written per platform; InterpolatePlainText and InterpolateOneBinding state what it yields, and the JavaScript template keeps a trailing space |
| ExpressionCompiler.InterpolateCorrected | widget-layouts/generators/expression-compiler.ts:460-472 | the template with the JavaScript back-quote closed right after the text |
| ExpressionCompiler.SlotText | widget-layouts/generators/expression-compiler.ts:466-471 | the quoted slots spell out the platform interpolation syntax |
| ExpressionCompiler.CompileLookup | widget-layouts/generators/expression-compiler.ts:110-114 | get and has throw exactly when the property name is not a string |
| ExpressionCompiler.CompileBinary | widget-layouts/generators/expression-compiler.ts:225-254 | arithmetic compiles its operands as values and is parenthesised; a comparison compiles them as conditions (ArithmeticParenthesised states the result) |
| ExpressionCompiler.CompileNot | widget-layouts/generators/expression-compiler.ts:260-263 | the negation succeeds exactly when its operand compiles, and it is wrapped in a negated parenthesis |
| ExpressionCompiler.CompileJoined | widget-layouts/generators/expression-compiler.ts:265-277 | all and any join their compiled conditions with the boolean operators in parentheses; concat joins values with a plus |
| ExpressionCompiler.CompileCaseChange | widget-layouts/generators/expression-compiler.ts:379-405 | upcase and downcase succeed exactly when the operand compiles as a value |
| ExpressionCompiler.CompileFormat | widget-layouts/generators/expression-compiler.ts:440-455 | format compiles the value and calls the platform date formatter with the pattern |
| ExpressionCompiler.CompileInterpolate | widget-layouts/generators/expression-compiler.ts:460-472 | interpolate throws exactly when the template is not a string |
| ExpressionCompiler.CompileArg | widget-layouts/generators/expression-compiler.ts:65-73 | an operand past the end compiles as the null literal |
| ExpressionCompiler.CompileCase | widget-layouts/generators/expression-compiler.ts:287-316 | the case compiles its pairs then its fallback; CaseWithoutPairs states the result without pairs |
| ExpressionCompiler.CaseMethod | widget-layouts/generators/expression-compiler.ts:379-405 | the platform method for upper and lower case |
| ExpressionCompiler.FormatCall | widget-layouts/generators/expression-compiler.ts:440-455 | the platform date-formatting call for a value and a pattern |
| ExpressionCompiler.CompileSubstring | widget-layouts/generators/expression-compiler.ts:407-435 | substring with and without a length, Swift through prefix and suffix, the others through substring |
| ExpressionCompiler.Expr | widget-layouts/generators/expression-compiler.ts:107 | an expression is an array whose first item is the operator |
| ExpressionCompiler.BinaryDispatch | widget-layouts/generators/expression-compiler.ts:116-130 | arithmetic and comparison operators go to the binary compiler |
| ExpressionCompiler.CaseDispatch | widget-layouts/generators/expression-compiler.ts:141-142 | the case operator goes to the case compiler |
| ExpressionCompiler.GetDispatch | widget-layouts/generators/expression-compiler.ts:110-111 | the get operator goes to the property lookup |
| ExpressionCompiler.TrimFixedPrefix | widget-layouts/generators/expression-compiler.ts:191-193 | a path that starts with item. counts as an item path |
| HtmlRenderer.ResolveColor | widget-layouts/renderers/html-renderer.ts:96-102 | a falsy colour gives '', a "#" colour is kept, a string gives '' only when empty, and a truthy non-string throws |
| HtmlRenderer.ThemeColorsResolveToHex | widget-layouts/renderers/html-renderer.ts:101 | every theme colour name resolves to a "#" colour |
| HtmlRenderer.EscapeHtmlPerChar | widget-layouts/renderers/html-renderer.ts:128-130 | the chain of five replacements escapes character by character |
| HtmlRenderer.EscapeHtmlSafe | widget-layouts/renderers/html-renderer.ts:128-130 | escaped text contains no <, >, " or ' |
| HtmlRenderer.UnescapeEscapeHtml | widget-layouts/renderers/html-renderer.ts:128-130 | reading the five entities back gives the original text: escaping loses nothing |
| HtmlRenderer.BindingText | widget-layouts/renderers/html-renderer.ts:113-121 | the text of one binding contains no <, >, " or ' |
| HtmlRenderer.UnresolvableBinding | widget-layouts/renderers/html-renderer.ts:109-121 | a binding whose path does not resolve, or resolves to null or undefined, renders as '' |
| HtmlRenderer.ResolveBindingPlainText | widget-layouts/renderers/html-renderer.ts:107-122 | a text without bindings is unchanged |
| HtmlRenderer.DigitRun | widget-layouts/renderers/html-renderer.ts:145 | the run of digits at the start of a text |
| HtmlRenderer.ParseNumber | widget-layouts/renderers/html-renderer.ts:145 | a number of the comparison pattern is a non-empty prefix |
| HtmlRenderer.ParseOperator | widget-layouts/renderers/html-renderer.ts:145 | an operator is a prefix and one of <=, >=, <, >, ==, != |
| HtmlRenderer.SafeEvaluateDefault | widget-layouts/renderers/html-renderer.ts:176-178 | a text that is no literal, no comparison and has no connective evaluates to true |
| HtmlRenderer.SafeEvaluateLiterals | widget-layouts/renderers/html-renderer.ts:137-142 | "true" and "false", with surrounding white space, give their boolean |
| HtmlRenderer.SafeEvaluateComparison | widget-layouts/renderers/html-renderer.ts:145-165 | "x op y" on numerals gives the comparison of the numbers |
| HtmlRenderer.ParseComparisonOf | widget-layouts/renderers/html-renderer.ts:145-149 | "x op y" parses into its two numbers and the operator |
| HtmlRenderer.OrFirstSplit | widget-layouts/renderers/html-renderer.ts:168-175 | in the corrected order (JavaScript precedence), a text with "\|\|" is the disjunction of its parts, each shorter |
| HtmlRenderer.AndFirstSplit | widget-layouts/renderers/html-renderer.ts:168-171 | as written, a text with "&&" is the conjunction of its parts, each shorter, before any "\|\|" is looked at |
| HtmlRenderer.AsWrittenSplitsOnAnd | widget-layouts/renderers/html-renderer.ts:168-171 | as written, "true\|\|false&&false" is split on "&&" first |
| HtmlRenderer.CorrectedSplitsOnOr | widget-layouts/renderers/html-renderer.ts:168-175 | with JavaScript precedence it is split on "\|\|" first |
| HtmlRenderer.PrecedenceCounterexample | widget-layouts/renderers/html-renderer.ts:168-175 | "true\|\|false&&false" is false as written and true with JavaScript precedence |
| HtmlRenderer.IdentifierValue | widget-layouts/renderers/html-renderer.ts:188-211 | an identifier is kept or replaced by "true" or "false" |
| HtmlRenderer.SelectLayoutFirstMatch | widget-layouts/renderers/html-renderer.ts:223-233 | the layout of the first variant whose condition holds is selected |
| HtmlRenderer.SelectLayoutDefault | widget-layouts/renderers/html-renderer.ts:223-233 | when no condition holds the widget's own layout is selected |
| HtmlRenderer.PairPx | widget-layouts/renderers/html-renderer.ts:244-251 | a defined horizontal or vertical value sets both sides in px, an undefined one nothing |
| HtmlRenderer.BuildStyles | widget-layouts/renderers/html-renderer.ts:237-298 | the box styles come first; it throws exactly when flex is null or a truthy background colour is not a string |
| HtmlRenderer.FinishingStyles | widget-layouts/renderers/html-renderer.ts:280-296 | the flex, background and radius styles throw under the same two conditions |
| HtmlRenderer.PaddingHorizontalStyles | widget-layouts/renderers/html-renderer.ts:244-247 | paddingHorizontal sets padding-left and padding-right to the same px value |
| HtmlRenderer.StylesToString | widget-layouts/renderers/html-renderer.ts:303-307 | one style prints as "key: value" |
| HtmlRenderer.Declarations | widget-layouts/renderers/html-renderer.ts:304-306 | one "key: value" per style, in order |
| HtmlRenderer.ForEachCount | widget-layouts/renderers/html-renderer.ts:561-562 | the number of rendered items is at most the items and at most a positive limit |
| HtmlRenderer.RenderItems | widget-layouts/renderers/html-renderer.ts:564-573 | item i is rendered with the item and index i in its context |
| HtmlRenderer.RenderForEach | widget-layouts/renderers/html-renderer.ts:552-576 | it throws exactly when items is not a string (items.split) |
| HtmlRenderer.ForEachBounds | widget-layouts/renderers/html-renderer.ts:552-576 | a path that is no array renders ''; otherwise the first count items are rendered and joined |
| HtmlRenderer.RenderConditional | widget-layouts/renderers/html-renderer.ts:578-588 | the then branch when the condition holds, the else branch when it fails, '' when that branch is missing; a condition that is not a string makes evaluateCondition throw inside its try, so it counts as true |
| HtmlRenderer.NonStringVisibleIf | widget-layouts/renderers/html-renderer.ts:313-314 | a truthy visibleIf that is not a string never hides the element, because evaluateCondition's catch answers true |
| HtmlRenderer.EscapeHtml | widget-layouts/renderers/html-renderer.ts:128-130 | the five replacements, & first; what they give is stated by EscapeHtmlPerChar, EscapeHtmlSafe and UnescapeEscapeHtml |
| HtmlRenderer.EscapeHtmlChar | widget-layouts/renderers/html-renderer.ts:128-130 | a character is kept exactly when it is none of &, <, >, " and '; otherwise it becomes an entity "&...;" |
| HtmlRenderer.EscapeHtmlOne | widget-layouts/renderers/html-renderer.ts:128-130 | the chain of five replacements on one character gives that character's entity or the character itself |
| HtmlRenderer.UnescapeHtml | widget-layouts/renderers/html-renderer.ts:128-130 | the inverse reading of the five entities, never longer than its input; UnescapeEscapeHtml makes it the partner of escapeHtml |
| HtmlRenderer.UnescapeHead | widget-layouts/renderers/html-renderer.ts:128-130 | an escaped character followed by any text reads back as that character |
| HtmlRenderer.DataMember | widget-layouts/renderers/html-renderer.ts:116 | value.data?.[part]: undefined when data is null or undefined |
| HtmlRenderer.ResolveParts | widget-layouts/renderers/html-renderer.ts:109-120 | the path walk: "item" reads context.item, an object steps to value[part] ?? value.data?.[part], anything else stops; its outcomes are stated by UnresolvableBinding and BindingText |
| HtmlRenderer.ResolveBinding | widget-layouts/renderers/html-renderer.ts:107-123 | every {{path}} replaced; stated by UnresolvableBinding, ResolveBindingPlainText and BindingText |
| HtmlRenderer.SpaceRun | widget-layouts/renderers/html-renderer.ts:145 | the leading white space, stopping at the first non-space |
| HtmlRenderer.ParseComparison | widget-layouts/renderers/html-renderer.ts:145-149 | a match yields one of the six operators and, on the left, the number the number pattern reads at the start |
| HtmlRenderer.ParseRightSide | widget-layouts/renderers/html-renderer.ts:145 | a matched right side carries one of the six operators |
| HtmlRenderer.ParseRightSideOf | widget-layouts/renderers/html-renderer.ts:145 | an operator followed by a numeral parses into that operator and number |
| HtmlRenderer.ComparisonOfParts | widget-layouts/renderers/html-renderer.ts:145-149 | a number followed by a right side parses as the comparison of the two |
| HtmlRenderer.OperatorPrefix | widget-layouts/renderers/html-renderer.ts:145 | an operator followed by a digit is read as that operator, the two-character ones tried first |
| HtmlRenderer.NumberPrefix | widget-layouts/renderers/html-renderer.ts:145 | a numeral followed by no digit and no dot is read back as its value and its whole length |
| HtmlRenderer.DigitRunOfDigits | widget-layouts/renderers/html-renderer.ts:145 | a run of digits followed by a non-digit is read up to its end |
| HtmlRenderer.Compare | widget-layouts/renderers/html-renderer.ts:151-164 | the six cases of the switch; SafeEvaluateComparison states the result on numerals |
| HtmlRenderer.SafeEvaluateWith | widget-layouts/renderers/html-renderer.ts:136-179 | the evaluator, with the connective split first as a parameter; stated by SafeEvaluateLiterals, SafeEvaluateComparison, AndFirstSplit, OrFirstSplit and SafeEvaluateDefault |
| HtmlRenderer.EvaluateTrimmed | widget-layouts/renderers/html-renderer.ts:140-178 | literals, then comparison, then connectives, else true; stated by TrimmedStep and LogicalStep |
| HtmlRenderer.EvaluateLogical | widget-layouts/renderers/html-renderer.ts:168-178 | the && split, then the \|\| split, then true; stated by AndFirstSplit and OrFirstSplit |
| HtmlRenderer.Combine | widget-layouts/renderers/html-renderer.ts:168-175 | every() over the parts for &&, some() for \|\|; stated by CombineOne and CombineTwo |
| HtmlRenderer.SafeEvaluate | widget-layouts/renderers/html-renderer.ts:136-179 | the evaluator as written; PrecedenceCounterexample shows where it differs from JavaScript |
| HtmlRenderer.SafeEvaluateCorrected | widget-layouts/renderers/html-renderer.ts:168-175 | the evaluator with JavaScript precedence; PrecedenceCounterexample shows it answers true where the written one answers false |
| HtmlRenderer.TrimPadded | widget-layouts/renderers/html-renderer.ts:138 | trim() removes surrounding white space from a word |
| HtmlRenderer.TrimmedStep | widget-layouts/renderers/html-renderer.ts:138-141 | an already trimmed text is evaluated as it stands |
| HtmlRenderer.LogicalStep | widget-layouts/renderers/html-renderer.ts:140-166 | a trimmed text that starts with no digit and is no literal goes to the connectives |
| HtmlRenderer.TrueValue | widget-layouts/renderers/html-renderer.ts:141 | "true" evaluates to true |
| HtmlRenderer.FalseValue | widget-layouts/renderers/html-renderer.ts:142 | "false" evaluates to false |
| HtmlRenderer.CombineOne | widget-layouts/renderers/html-renderer.ts:168-175 | one part combines to that part's value |
| HtmlRenderer.CombineTwo | widget-layouts/renderers/html-renderer.ts:168-175 | two parts: both for &&, either for \|\| |
| HtmlRenderer.SplitTwo | widget-layouts/renderers/html-renderer.ts:168-175 | text around one separator, neither side holding it, splits into the two sides |
| HtmlRenderer.RunEnd | widget-layouts/renderers/html-renderer.ts:196-205 | the identifier run [a-zA-Z0-9_.] from a position: all path characters, ending at a non-path character or the end |
| HtmlRenderer.TrimDots | widget-layouts/renderers/html-renderer.ts:188 | the run without trailing dots, where the word boundary closes the match; it ends with a non-dot |
| HtmlRenderer.ReplaceIdentifiers | widget-layouts/renderers/html-renderer.ts:188-211 | each identifier replaced through IdentifierValue, other characters kept |
| HtmlRenderer.EvaluateCondition | widget-layouts/renderers/html-renderer.ts:184-218 | a context without a size answers true (the catch); otherwise the replaced text is evaluated |
| HtmlRenderer.SizeTexts | widget-layouts/renderers/html-renderer.ts:186 | the width and height texts, or nothing where reading them throws |
| HtmlRenderer.FirstIndex | widget-layouts/renderers/html-renderer.ts:224-229 | the index of the first element that holds, every earlier one failing, or the length when none holds |
| HtmlRenderer.SelectLayout | widget-layouts/renderers/html-renderer.ts:223-232 | the result is the default layout or one of the variants' layouts; SelectLayoutFirstMatch and SelectLayoutDefault say which |
| HtmlRenderer.Px | widget-layouts/renderers/html-renderer.ts:242 | a value printed with the "px" suffix |
| HtmlRenderer.OptionalPx | widget-layouts/renderers/html-renderer.ts:241-243 | at most one property, the key with the value in px |
| HtmlRenderer.BoxStyles | widget-layouts/renderers/html-renderer.ts:240-279 | the padding, margin and size styles: at most twelve properties |
| HtmlRenderer.AfterHorizontalPadding | widget-layouts/renderers/html-renderer.ts:248-279 | the styles after paddingHorizontal: at most nine properties |
| HtmlRenderer.SizeStyle | widget-layouts/renderers/html-renderer.ts:267-279 | width or height: at most one property |
| HtmlRenderer.SetProp | widget-layouts/renderers/html-renderer.ts:566-570 | the spread sets the key to the value and leaves every other key as it was |
| HtmlRenderer.ItemContext | widget-layouts/renderers/html-renderer.ts:566-570 | the item context holds the item and the index, every other key as in the context |
| HtmlRenderer.SliceEnd | widget-layouts/renderers/html-renderer.ts:562 | slice(0, limit) keeps at most the items and at most a non-negative limit |
| HtmlRenderer.RenderItem | widget-layouts/renderers/html-renderer.ts:564-572 | one item rendered with its item context, '' without a template |
| HtmlRenderer.ConditionHolds | widget-layouts/renderers/html-renderer.ts:184-218 | evaluateCondition on any value: a non-string condition answers true; stated by NonStringVisibleIf and RenderConditional |
| HtmlRenderer.ElementVisible | widget-layouts/renderers/html-renderer.ts:313-314 | visible === false or a failing visibleIf hides the element; stated by NonStringVisibleIf |
| SvelteGenerator.WordEnd | widget-layouts/generators/nativescript-svelte-generator.ts:129 | the end of an identifier: every character up to it is a word character and the one at it is not |
| SvelteGenerator.NormalizeToken | widget-layouts/generators/nativescript-svelte-generator.ts:138-142 | a single identifier is kept when it is item, data or size and otherwise gets the prefix, literal words included, which changes it; corrected, the literal words are kept too |
| SvelteGenerator.NormalizeKeepsDottedPath | widget-layouts/generators/nativescript-svelte-generator.ts:144-147 | a dotted path without parentheses is kept as it is |
| SvelteGenerator.PrefixIdentifiersPlain | widget-layouts/generators/nativescript-svelte-generator.ts:127-135 | text without a letter or underscore is left unchanged by the identifier rewrite |
| SvelteGenerator.PrefixIdentifiersWord | widget-layouts/generators/nativescript-svelte-generator.ts:129-135 | each identifier is replaced by its prefixed form (as written also after a '.', corrected not) and the rewrite continues after it |
| SvelteGenerator.PrefixIdentifiersChar | widget-layouts/generators/nativescript-svelte-generator.ts:129 | a character that does not start an identifier is copied |
| SvelteGenerator.NormalizePropertyNameCounterexample | widget-layouts/generators/nativescript-svelte-generator.ts:127-135 | as written "(item.temp)" becomes "(item.data.temp)"; corrected it is unchanged |
| SvelteGenerator.ItemTempReplaced | widget-layouts/generators/nativescript-svelte-generator.ts:129-135 | the rewrite of "(item.temp)": unchanged when corrected, "(item.data.temp)" as written |
| SvelteGenerator.NormalizeLiteralCounterexample | widget-layouts/generators/nativescript-svelte-generator.ts:138-142 | as written "true" becomes "data.true", because only the parenthesised branch skips literal words; corrected it is unchanged |
| SvelteGenerator.ConvertBinding | widget-layouts/generators/nativescript-svelte-generator.ts:103-106 | a missing text or a text without binding becomes its JSON string |
| SvelteGenerator.SpanHasBinding | widget-layouts/generators/nativescript-svelte-generator.ts:93-96 | a text holding a "{{...}}" span has a binding |
| SvelteGenerator.ConvertSpanned | widget-layouts/generators/nativescript-svelte-generator.ts:114-119 | a text with a binding that is not a single binding becomes a template literal |
| SvelteGenerator.ConvertSingleBinding | widget-layouts/generators/nativescript-svelte-generator.ts:108-112 | "{{x}}" becomes x trimmed and normalised |
| SvelteGenerator.MixedReplacement | widget-layouts/generators/nativescript-svelte-generator.ts:118 | the replacement turns "t{{x}}" into t followed by the replacement of x |
| SvelteGenerator.ConvertMixedText | widget-layouts/generators/nativescript-svelte-generator.ts:114-119 | "t{{x}}" becomes the template literal of t followed by ${x trimmed and normalised} |
| SvelteGenerator.EscapeMixedText | widget-layouts/generators/nativescript-svelte-generator.ts:116-117 | text without back-quote or dollar sign is unchanged by the two escapes |
| SvelteGenerator.MixedNotSingle | widget-layouts/generators/nativescript-svelte-generator.ts:109 | text before the binding means it is not a single binding |
| SvelteGenerator.MixedTemplateBody | widget-layouts/generators/nativescript-svelte-generator.ts:115-118 | the body of the template literal of "t{{x}}" is t followed by the interpolation of x |
| SvelteGenerator.BackticksEscaped | widget-layouts/generators/nativescript-svelte-generator.ts:116 | after the escape every back-quote is preceded by a backslash |
| SvelteGenerator.AlnumOnly | widget-layouts/generators/nativescript-svelte-generator.ts:179 | removing the non-alphanumeric characters never lengthens the token |
| SvelteGenerator.AlnumOnlyAppend | widget-layouts/generators/nativescript-svelte-generator.ts:179 | the removal works character by character across a concatenation |
| SvelteGenerator.AlnumOnlyChars | widget-layouts/generators/nativescript-svelte-generator.ts:179 | every character left is alphanumeric |
| SvelteGenerator.AlnumOnlyOfAlnum | widget-layouts/generators/nativescript-svelte-generator.ts:179 | an alphanumeric token is kept whole |
| SvelteGenerator.ColorTokenToVar | widget-layouts/generators/nativescript-svelte-generator.ts:177-181 | "color" followed by the token's alphanumeric characters, the first upper-cased and the rest kept |
| SvelteGenerator.ColorTokenIgnoresSeparator | widget-layouts/generators/nativescript-svelte-generator.ts:179 | a separator character in the token does not change the variable name |
| SvelteGenerator.ColorTokenOfAlnum | widget-layouts/generators/nativescript-svelte-generator.ts:177-181 | an alphanumeric token t gives "color" + t with its first character upper-cased |
| SvelteGenerator.TernaryStep | widget-layouts/generators/nativescript-svelte-generator.ts:276-280 | each condition/value pair wraps the rest as "c ? v : rest" |
| SvelteGenerator.TernaryEnds | widget-layouts/generators/nativescript-svelte-generator.ts:273-282 | the nested ternary starts with the first condition and ends with the fallback |
| SvelteGenerator.WithFallback | widget-layouts/generators/nativescript-svelte-generator.ts:266-283 | the corrected case always has an odd number of parts (null is added as fallback to an even count) |
| SvelteGenerator.Case | widget-layouts/generators/nativescript-svelte-generator.ts:269-282 | the backward loop: no arguments give "null", an odd count nests every pair from the first condition to the fallback, an even count drops the first argument and pairs the rest |
| SvelteGenerator.CaseCorrected | widget-layouts/generators/nativescript-svelte-generator.ts:269-282 | corrected, the loop builds the nested ternary of the pairs with null as the missing fallback |
| SvelteGenerator.CaseEvenCounterexample | widget-layouts/generators/nativescript-svelte-generator.ts:273-280 | c1 v1 c2 v2 gives "v1 ? c2 : v2" as written instead of "c1 ? v1 : c2 ? v2 : null" |
| SvelteGenerator.CompileGet | widget-layouts/generators/nativescript-svelte-generator.ts:248-265 | size., data. and item. paths are kept, other paths get the context prefix, non-strings become JSON |
| SvelteGenerator.CompileArgs | widget-layouts/generators/nativescript-svelte-generator.ts:245 | one compiled text per argument |
| SvelteGenerator.CompileBinary | widget-layouts/generators/nativescript-svelte-generator.ts:284-301 | comparisons and arithmetic compile to "left op right" |
| SvelteGenerator.CompileCaseShape | widget-layouts/generators/nativescript-svelte-generator.ts:266-283 | a case with a fallback compiles to the nested ternary of its compiled arguments, from the first condition to the fallback |
| SvelteGenerator.CompileCaseEven | widget-layouts/generators/nativescript-svelte-generator.ts:273-282 | a case with an even, non-zero argument count compiles to the nested ternary of its arguments from the second on, losing the first condition |
| SvelteGenerator.CompileCaseEmpty | widget-layouts/generators/nativescript-svelte-generator.ts:269 | a case without arguments compiles to null |
| SvelteGenerator.AttrNames | widget-layouts/generators/nativescript-svelte-generator.ts:310-317 | one or two attribute names; a property outside the renaming map keeps its name |
| SvelteGenerator.EachAttr | widget-layouts/generators/nativescript-svelte-generator.ts:375-378 | one attribute name gives "name={value}" |
| SvelteGenerator.Attribute | widget-layouts/generators/nativescript-svelte-generator.ts:308 | null and undefined give no attribute |
| SvelteGenerator.AttributeColors | widget-layouts/generators/nativescript-svelte-generator.ts:415-418 | an attribute records at most one colour variable |
| SvelteGenerator.VisibleConstant | widget-layouts/generators/nativescript-svelte-generator.ts:320-348 | visible or visibleIf true gives no attribute, false gives visibility="hidden" |
| SvelteGenerator.VisibleTrueString | widget-layouts/generators/nativescript-svelte-generator.ts:341-347 | visible "true" is normalised to the prefixed path prefix.true, so the comparison with "true" never holds and a visibility binding is emitted |
| SvelteGenerator.SizeEqualSides | widget-layouts/generators/nativescript-svelte-generator.ts:351-366 | size sets width and height to the same expression |
| SvelteGenerator.SimpleTokenChars | widget-layouts/generators/nativescript-svelte-generator.ts:161-163 | a simple token has no binding, is no hex colour and no data path |
| SvelteGenerator.ColorTokenAttribute | widget-layouts/generators/nativescript-svelte-generator.ts:415-419 | a colour token becomes its colour variable, which is recorded |
| SvelteGenerator.HexColorAttribute | widget-layouts/generators/nativescript-svelte-generator.ts:408-411 | a hex colour is quoted as it is and nothing is recorded |
| SvelteGenerator.PaddingVerticalBothSides | widget-layouts/generators/nativescript-svelte-generator.ts:424-427 | a number for paddingVertical sets paddingTop and paddingBottom to it |
| SvelteGenerator.KeyColor | widget-layouts/generators/nativescript-svelte-generator.ts:188-196 | each colour key contributes at most one variable |
| SvelteGenerator.Part | widget-layouts/generators/nativescript-svelte-generator.ts:198-209 | a child, the item template or a branch is undefined or smaller than the element, which bounds the recursion |
| SvelteGenerator.ElementColorsShape | widget-layouts/generators/nativescript-svelte-generator.ts:186-210 | every name collected from an element is a colour variable |
| SvelteGenerator.NestedColorsShape | widget-layouts/generators/nativescript-svelte-generator.ts:203-209 | every name collected from the template and branches is a colour variable |
| SvelteGenerator.ChildrenColorsShape | widget-layouts/generators/nativescript-svelte-generator.ts:198-201 | every name collected from the children is a colour variable |
| SvelteGenerator.BackgroundColor | widget-layouts/generators/nativescript-svelte-generator.ts:215-218 | the top-level background contributes at most one variable |
| SvelteGenerator.UsedColors.constructor | widget-layouts/generators/nativescript-svelte-generator.ts:186 | the set of used colours starts empty |
| SvelteGenerator.UsedColors.BuildAttribute | widget-layouts/generators/nativescript-svelte-generator.ts:307-446 | the attribute, and the used colours grow by the token's variable |
| SvelteGenerator.UsedColors.CollectFromElement | widget-layouts/generators/nativescript-svelte-generator.ts:186-210 | the used colours grow by exactly the element's colours |
| SvelteGenerator.UsedColors.CollectChildren | widget-layouts/generators/nativescript-svelte-generator.ts:198-201 | the loop over the children adds exactly their colours |
| SvelteGenerator.UsedColors.CollectNested | widget-layouts/generators/nativescript-svelte-generator.ts:203-209 | the item template and the conditional branches add their colours |
| SvelteGenerator.UsedColors.CollectFromLayout | widget-layouts/generators/nativescript-svelte-generator.ts:213-231 | the used colours grow by the background, root and variant colours |
| SvelteGenerator.UsedColors.CollectRoot | widget-layouts/generators/nativescript-svelte-generator.ts:221-223 | the layout root adds its colours |
| SvelteGenerator.UsedColors.CollectVariantList | widget-layouts/generators/nativescript-svelte-generator.ts:226-230 | a variants array adds its layouts' colours, anything else nothing |
| SvelteGenerator.UsedColors.CollectVariants | widget-layouts/generators/nativescript-svelte-generator.ts:227-229 | the loop over the variants adds exactly their layouts' colours |
| SvelteGenerator.PrefixWord | widget-layouts/generators/nativescript-svelte-generator.ts:129-135 | an identifier is kept exactly when it is a literal word, a run of digits or a context root; otherwise it gets the prefix and a dot, so it never gets shorter |
| SvelteGenerator.PrefixIdentifiers | widget-layouts/generators/nativescript-svelte-generator.ts:129-135 | the replacement over the rest of the text never shortens it; PrefixIdentifiersWord and PrefixIdentifiersChar state each step |
| SvelteGenerator.NormalizeWith | widget-layouts/generators/nativescript-svelte-generator.ts:124-154 | text without parentheses that is not a simple token is kept; a simple token is kept exactly when it is a context root, or also a literal word in the corrected form |
| SvelteGenerator.SimpleTokenNoParenthesis | widget-layouts/generators/nativescript-svelte-generator.ts:124-147 | a simple token never reaches the parenthesised branch |
| SvelteGenerator.NormalizeExpr | widget-layouts/generators/nativescript-svelte-generator.ts:124-154 | as written: a dotted path or other text without parentheses is kept; a simple token is kept exactly when it is item, data or size |
| SvelteGenerator.NormalizeExprCorrected | widget-layouts/generators/nativescript-svelte-generator.ts:124-154 | corrected: a simple token is also kept when it is true, false, null or undefined |
| SvelteGenerator.Interpolation | widget-layouts/generators/nativescript-svelte-generator.ts:118 | one binding becomes "${" + its trimmed, normalised name + "}"; MixedReplacement states the replacement |
| SvelteGenerator.TemplateBody | widget-layouts/generators/nativescript-svelte-generator.ts:115-118 | the escaped text with every binding interpolated; stated by MixedTemplateBody, TemplateBodyUnescaped and BackticksEscaped |
| SvelteGenerator.TemplateLiteral | widget-layouts/generators/nativescript-svelte-generator.ts:114-119 | the body between back-quotes; ConvertMixedText states the result for text and one binding |
| SvelteGenerator.ReplaceFromPlainPrefix | widget-layouts/generators/nativescript-svelte-generator.ts:118 | text before the first "{" is copied unchanged by the binding replacement |
| SvelteGenerator.MixedSpan | widget-layouts/generators/nativescript-svelte-generator.ts:118 | the braces around a name without "}" delimit one binding |
| SvelteGenerator.MixedPrefix | widget-layouts/generators/nativescript-svelte-generator.ts:118 | the text before the binding is copied unchanged |
| SvelteGenerator.MixedIsTemplate | widget-layouts/generators/nativescript-svelte-generator.ts:108-119 | text followed by one binding takes the template-literal branch |
| SvelteGenerator.TemplateBodyUnescaped | widget-layouts/generators/nativescript-svelte-generator.ts:115-118 | text the escaping leaves alone has only its bindings replaced |
| SvelteGenerator.Ternary | widget-layouts/generators/nativescript-svelte-generator.ts:268 | c0 ? v0 : c1 ? v1 : ... : fallback, first pair outermost; TernaryStep and TernaryEnds state its shape |
| SvelteGenerator.AsWrittenParts | widget-layouts/generators/nativescript-svelte-generator.ts:273-280 | the arguments the backward loop reads: all of an odd count, all but the first of an even one, always an odd number |
| SvelteGenerator.TernaryPrepend | widget-layouts/generators/nativescript-svelte-generator.ts:277-279 | one loop step puts the pair in front of the ternary of what follows it |
| SvelteGenerator.LoopStart | widget-layouts/generators/nativescript-svelte-generator.ts:276 | the loop ends at index 1 for an even count and 0 for an odd one |
| SvelteGenerator.CompileMapbox | widget-layouts/generators/nativescript-svelte-generator.ts:235-305 | the compiled text; stated by CompileGet, CompileBinary, CompileCaseShape, CompileCaseEven and CompileCaseEmpty |
| SvelteGenerator.CompileOperand | widget-layouts/generators/nativescript-svelte-generator.ts:290-291 | the k-th argument compiled, "undefined" when missing; CompileBinary states its use |
| SvelteGenerator.AttrText | widget-layouts/generators/nativescript-svelte-generator.ts:436 | one attribute name prints as itself |
| SvelteGenerator.Braced | widget-layouts/generators/nativescript-svelte-generator.ts:333 | the expression between curly braces |
| SvelteGenerator.Quoted | widget-layouts/generators/nativescript-svelte-generator.ts:410 | the value between double quotes |
| SvelteGenerator.Visibility | widget-layouts/generators/nativescript-svelte-generator.ts:333 | the visible/hidden conditional; VisibleTrueString states its use |
| SvelteGenerator.IconPathExpr | widget-layouts/generators/nativescript-svelte-generator.ts:372-374 | the icon-path template literal around the expression |
| SvelteGenerator.BindingOrExpr | widget-layouts/generators/nativescript-svelte-generator.ts:322-325 | bound text is converted and other text normalised; VisibleTrueString states its use |
| SvelteGenerator.SizeExpr | widget-layouts/generators/nativescript-svelte-generator.ts:351-366 | the one expression size puts into width and height; SizeEqualSides states it |
| SvelteGenerator.ColorRhs | widget-layouts/generators/nativescript-svelte-generator.ts:407-421 | always a braced or double-quoted value; a hex colour is quoted as it is |
| SvelteGenerator.ItemsExpr | widget-layouts/generators/nativescript-svelte-generator.ts:395-404 | a rooted path is kept, a simple token gets the prefix, anything else is a JSON string |
| SvelteGenerator.VisibleIfAttribute | widget-layouts/generators/nativescript-svelte-generator.ts:320-334 | a string always gives a visibility attribute; a boolean gives nothing for true and the hidden attribute for false |
| SvelteGenerator.VisibleAttribute | widget-layouts/generators/nativescript-svelte-generator.ts:336-348 | a boolean gives nothing for true and the hidden attribute for false; a value that is neither boolean nor string gives nothing |
| SvelteGenerator.ExpressionAttribute | widget-layouts/generators/nativescript-svelte-generator.ts:368-392 | an expression on every attribute name; AttributeColors states that no colour is recorded |
| SvelteGenerator.TokenAttribute | widget-layouts/generators/nativescript-svelte-generator.ts:395-421 | the attribute starts with the property name and "=" |
| SvelteGenerator.LiteralAttribute | widget-layouts/generators/nativescript-svelte-generator.ts:424-445 | an attribute exactly for a number, a boolean or a string; null for anything else |
| SvelteGenerator.MemberSmaller | widget-layouts/generators/nativescript-svelte-generator.ts:198-209 | a member of an object is undefined or smaller than the object |
| SvelteGenerator.OwnColors | widget-layouts/generators/nativescript-svelte-generator.ts:188-196 | the element's own color and backgroundColor give at most two variables |
| SvelteGenerator.ElementColors | widget-layouts/generators/nativescript-svelte-generator.ts:186-210 | a non-object gives none; an object's own colours are always included |
| SvelteGenerator.ListColors | widget-layouts/generators/nativescript-svelte-generator.ts:198-201 | the colours of the children array; ChildrenColorsShape states their shape |
| SvelteGenerator.NestedColors | widget-layouts/generators/nativescript-svelte-generator.ts:203-209 | an element that is neither forEach nor conditional contributes no nested colours |
| SvelteGenerator.ChildrenColors | widget-layouts/generators/nativescript-svelte-generator.ts:198-201 | the colours of each child in turn; ChildrenColorsShape states their shape |
| SvelteGenerator.VariantColors | widget-layouts/generators/nativescript-svelte-generator.ts:226-230 | the union of the variants' colours, walked in order; VariantColorsStep and VariantColorsIncludes state it |
| SvelteGenerator.OneVariantColors | widget-layouts/generators/nativescript-svelte-generator.ts:228 | the colours of a variant's layout, when it has one |
| SvelteGenerator.VariantColorsStep | widget-layouts/generators/nativescript-svelte-generator.ts:227-229 | walking one more variant adds exactly that variant's colours |
| SvelteGenerator.LayoutColors | widget-layouts/generators/nativescript-svelte-generator.ts:213-231 | the background, root and variants colours; UsedColors.CollectFromLayout states its use |
| SvelteGenerator.RootColors | widget-layouts/generators/nativescript-svelte-generator.ts:221-223 | a falsy root contributes nothing |
| SvelteGenerator.VariantListColors | widget-layouts/generators/nativescript-svelte-generator.ts:226 | a variants value that is not an array contributes nothing |
| SvelteGenerator.IsSimpleToken | widget-layouts/generators/nativescript-svelte-generator.ts:167-169 | the token pattern; SimpleTokenChars states what a token excludes |
| SvelteGenerator.IsRootedPath | widget-layouts/generators/nativescript-svelte-generator.ts:158-165 | isLikelyDataPath on a string: rooted in data., item. or size. |
| SvelteGenerator.IsHexColor | widget-layouts/generators/nativescript-svelte-generator.ts:191 | the three- or six-digit hex colour pattern; HexColorAttribute states its use |
| SvelteGenerator.IsContextRoot | widget-layouts/generators/nativescript-svelte-generator.ts:133 | the roots item, data and size that are never prefixed |
| SvelteGenerator.IsLiteralWord | widget-layouts/generators/nativescript-svelte-generator.ts:131 | the words true, false, null and undefined |
| SvelteGenerator.WordStart | widget-layouts/generators/nativescript-svelte-generator.ts:129 | where the identifier pattern can start a match: a word boundary before a letter or underscore |
| SvelteGenerator.HasParenthesis | widget-layouts/generators/nativescript-svelte-generator.ts:127 | the test for a parenthesis that selects the replacement branch |
| SvelteGenerator.VariantColorsIncludes | widget-layouts/generators/nativescript-svelte-generator.ts:226-230 | every variant's colours are among those collected |
| SwiftGenerator.ToSwiftFontWeight | widget-layouts/generators/swift-generator.ts:104-114 | a config.settings reference becomes the conditional on that setting; otherwise .bold exactly when the lower-cased weight names bold or 700-900, .medium exactly when it names med or 500/600 and not bold, else .regular |
| SwiftGenerator.TableAgreesWithPatterns | widget-layouts/generators/swift-generator.ts:85-113 | the weight table gives the same answer as the patterns for normal, medium and bold |
| SwiftGenerator.SettingWeightNamesKey | widget-layouts/generators/swift-generator.ts:105-108 | the setting key after "config.settings." is the one read in the conditional |
| SwiftGenerator.NumericWeights | widget-layouts/generators/swift-generator.ts:111-112 | 700, 800 and 900 are bold, 500 and 600 medium |
| SwiftGenerator.ToSwiftAlignment | widget-layouts/generators/swift-generator.ts:119-147 | the cross alignment start and end give .leading/.trailing in a column and .top/.bottom in a row, anything else .center, both directions of each |
| SwiftGenerator.SwiftColorsCoverThemes | widget-layouts/generators/swift-generator.ts:75-82 | exactly the theme colour names have a Swift colour, and each is a WidgetColorProvider member |
| SwiftGenerator.ToSwiftColor | widget-layouts/generators/swift-generator.ts:152-159 | a missing colour is onSurface, a hex colour becomes Color(hex:), a theme name its provider colour and anything else onSurface |
| SwiftGenerator.NormalizeDataPath | widget-layouts/generators/swift-generator.ts:347-351 | the trimmed path when it is a data, item or size path, else "data." before it; the result is always such a path |
| SwiftGenerator.NormalizeDataPathIdempotent | widget-layouts/generators/swift-generator.ts:347-351 | normalising a normalised path changes nothing |
| SwiftGenerator.NormalizeDataPathAgrees | widget-layouts/generators/swift-generator.ts:347-351 | the Swift path normalisation agrees with the shared normalisation for paths that are not config paths |
| SwiftGenerator.ShouldLocalizeText | widget-layouts/generators/swift-generator.ts:361-370 | localised text is at least two characters, not a data path, has no brace and is not all digits |
| SwiftGenerator.LocalizationKey | widget-layouts/generators/swift-generator.ts:388 | the key is lower case without white space, and text without white space is only lower-cased |
| SwiftGenerator.LocalizationKeyIdempotent | widget-layouts/generators/swift-generator.ts:388 | a key is its own key |
| SwiftGenerator.LocalizationKeyJoin | widget-layouts/generators/swift-generator.ts:388 | each run of white space becomes exactly one '_', with the text on either side keyed on its own and kept in order |
| Strings.SpaceRunsJoin | widget-layouts/generators/swift-generator.ts:388 | the global /\s+/ replacement turns one white-space run between two texts into one '_' and replaces the texts on either side on their own |
| Strings.IsSpace | widget-layouts/renderers/html-renderer.ts:138 | the white space trim() and \s remove |
| Strings.IsWordChar | widget-layouts/generators/nativescript-svelte-generator.ts:129 | the regular-expression class [a-zA-Z0-9_] |
| Strings.AllDigits | widget-layouts/generators/nativescript-svelte-generator.ts:132 | the /^\d+$/ test |
| Strings.TrimStart | widget-layouts/renderers/html-renderer.ts:138 | trim() from the left: a suffix, starting with no white space, and everything dropped was white space |
| Strings.TrimEnd | widget-layouts/renderers/html-renderer.ts:138 | trim() from the right: a prefix, ending with no white space, and everything dropped was white space |
| Strings.Trim | widget-layouts/renderers/html-renderer.ts:138 | trim(): neither starts nor ends with white space and is never longer |
| Strings.TrimIdempotent | widget-layouts/renderers/html-renderer.ts:138 | trimming twice is trimming once |
| Strings.TrimFixed | widget-layouts/renderers/html-renderer.ts:138 | a text that neither starts nor ends with white space is its own trim |
| Strings.Trimmed | widget-layouts/renderers/html-renderer.ts:138 | neither starts nor ends with white space |
| Strings.TrimmedIff | widget-layouts/renderers/html-renderer.ts:138 | a text is its own trim exactly when it neither starts nor ends with white space |
| Strings.TrimmedConcat | widget-layouts/generators/nativescript-svelte-generator.ts:109 | a trimmed text after a non-empty trimmed text keeps the whole trimmed |
| Strings.LowerChar | widget-layouts/generators/swift-generator.ts:388 | toLowerCase on one ASCII character |
| Strings.SpaceRunsToUnderscore | widget-layouts/generators/swift-generator.ts:388 | replace(/\s+/g, '_'): never longer |
| Strings.SpaceRunsNoSpace | widget-layouts/generators/swift-generator.ts:388 | no white space is left after the replacement |
| Strings.SpaceRunsIdentity | widget-layouts/generators/swift-generator.ts:388 | a text without white space is left as it is |
| Strings.TrimStartAppend | widget-layouts/generators/swift-generator.ts:388 | leading white space is only looked for up to the first other character |
| Strings.TrimStartSpaces | widget-layouts/generators/swift-generator.ts:388 | white space before a non-space text is all dropped |
| Strings.SpaceRunsSpaceHead | widget-layouts/generators/swift-generator.ts:388 | a leading white-space run becomes one '_' |
| Strings.SpaceRunsCharHead | widget-layouts/generators/swift-generator.ts:388 | a leading non-space character is kept |
| Strings.SpaceRunsJoinAtStart | widget-layouts/generators/swift-generator.ts:388 | a white-space run at the start becomes one '_' before the rest |
| Strings.SpaceRunsAfterLeadingSpace | widget-layouts/generators/swift-generator.ts:388 | a text starting with white space: the run becomes '_' and the rest follows |
| Strings.SpaceRunsJoinAfterSpace | widget-layouts/generators/swift-generator.ts:388 | SpaceRunsJoin when the left text starts with white space |
| Strings.SpaceRunsJoinAfterChar | widget-layouts/generators/swift-generator.ts:388 | SpaceRunsJoin when the left text starts with another character |
| Strings.IsLowerCase | widget-layouts/generators/swift-generator.ts:388 | toLowerCase leaves the text as it is |
| Strings.SpaceRunsKeepLower | widget-layouts/generators/swift-generator.ts:388 | the replacement keeps lower-case text lower case |
| Strings.UpperChar | widget-layouts/generators/nativescript-svelte-generator.ts:180 | toUpperCase on one ASCII character |
| Strings.Lower | widget-layouts/generators/swift-generator.ts:388 | toLowerCase: same length, each character lowered |
| Strings.Upper | widget-layouts/generators/nativescript-svelte-generator.ts:180 | toUpperCase: same length, each character raised |
| Strings.Contains | widget-layouts/renderers/html-renderer.ts:168 | includes() |
| Strings.ContainsAt | widget-layouts/renderers/html-renderer.ts:168 | a text holding the pattern at some position contains it |
| Strings.ContainsChar | widget-layouts/generators/nativescript-svelte-generator.ts:127 | a text holding the character |
| Strings.ReplaceAll | widget-layouts/renderers/html-renderer.ts:186 | replace(/pat/g, rep) for a literal pattern, leftmost and non-overlapping |
| Strings.ReplaceChar | widget-layouts/renderers/html-renderer.ts:128-130 | replace(/c/g, rep) for one character |
| Strings.ReplaceCharEqualsReplaceAll | widget-layouts/renderers/html-renderer.ts:128-130 | the one-character replacement is the literal-pattern replacement with a one-character pattern |
| Strings.ReplaceCharFree | widget-layouts/renderers/html-renderer.ts:128-130 | after the replacement the character is gone when the replacement text lacks it |
| Strings.ReplaceCharSingle | widget-layouts/renderers/html-renderer.ts:128-130 | on one character: the replacement text or the character itself |
| Strings.ReplaceCharAppend | widget-layouts/renderers/html-renderer.ts:128-130 | the replacement distributes over concatenation |
| Strings.ReplaceCharAbsent | widget-layouts/renderers/html-renderer.ts:128-130 | a text without the character is left as it is |
| Strings.ReplaceAllAbsent | widget-layouts/generators/nativescript-svelte-generator.ts:116-117 | a text without the pattern's first character is left as it is |
| Strings.ReplaceAllPlainPrefix | widget-layouts/generators/nativescript-svelte-generator.ts:116-117 | text without the pattern's first character passes through in front of the rest |
| Strings.Join | widget-layouts/renderers/html-renderer.ts:304-306 | join(sep): one part is itself, no parts give '' |
| Strings.JoinCons | widget-layouts/renderers/html-renderer.ts:304-306 | a part in front is followed by the separator and the join of the rest |
| Strings.Split | widget-layouts/renderers/html-renderer.ts:109 | split(sep) on a literal separator: at least one part |
| Strings.SplitJoin | widget-layouts/renderers/html-renderer.ts:109 | joining the parts of a split with the same separator gives the text back |
| Strings.SplitJoinAtSeparator | widget-layouts/renderers/html-renderer.ts:109 | SplitJoin when the text starts with the separator |
| Strings.SplitAtCharacter | widget-layouts/renderers/html-renderer.ts:109 | a text not starting with the separator adds its first character to the first part |
| Strings.SplitJoinAtCharacter | widget-layouts/renderers/html-renderer.ts:109 | SplitJoin when the text starts with another character |
| Strings.JoinRestAfterHead | widget-layouts/renderers/html-renderer.ts:109 | a character put back in front of the first part restores the text |
| Strings.JoinExtendHead | widget-layouts/renderers/html-renderer.ts:109 | a character in front of the first part is in front of the join |
| Strings.SplitWithoutSeparatorStart | widget-layouts/renderers/html-renderer.ts:109 | a text without the separator's first character does not split |
| Strings.SplitAfterHead | widget-layouts/renderers/html-renderer.ts:109 | the first part ends at the first separator |
| Strings.SplitOfJoin | widget-layouts/renderers/html-renderer.ts:109 | splitting a join gives the parts back when no part holds the separator's first character |
| Strings.ContainsLength | widget-layouts/renderers/html-renderer.ts:168 | a contained pattern is no longer than the text |
| Strings.SplitWhenContains | widget-layouts/renderers/html-renderer.ts:169 | a text containing the separator splits into at least two parts |
| Strings.JoinPartsShorter | widget-layouts/renderers/html-renderer.ts:169 | with two parts or more, each part is shorter than the join by at least the separator |
| Strings.SplitPartsShorter | widget-layouts/renderers/html-renderer.ts:169 | every part of a split on a separator the text contains is shorter than the text |
| Strings.Digit | widget-layouts/renderers/html-renderer.ts:242 | the character of one decimal digit |
| Strings.DigitValue | widget-layouts/renderers/html-renderer.ts:145 | the value of one digit character, below ten |
| Strings.NatToString | widget-layouts/renderers/html-renderer.ts:242 | a natural number in decimal: digits only, no leading zero |
| Strings.ParseDigits | widget-layouts/renderers/html-renderer.ts:145 | the value of a run of digits; ParseNatToString makes it the inverse of NatToString |
| Strings.ParseNatToString | widget-layouts/renderers/html-renderer.ts:145 | reading a rendered natural number gives it back |
| Strings.NumeralText | widget-layouts/renderers/html-renderer.ts:242 | digits, '-' and '.' only |
| Strings.IntToString | widget-layouts/renderers/html-renderer.ts:242 | an integer in decimal: non-empty, made of digits and a minus sign |
| Strings.Pow10 | app/helpers/formatter.ts:44 | a power of ten, at least one |
| Strings.Round | app/helpers/formatter.ts:46 | Math.round: within one half of the value, halves rounded up |
| Strings.PadZeros | app/helpers/formatter.ts:44 | the digits padded with zeros on the left to the width, ending with the digits |
| Strings.ToFixed | app/helpers/formatter.ts:44 | toFixed: starts with a digit for a non-negative value and with '-' for a negative one |
| Strings.UnsignedFixed | app/helpers/formatter.ts:44 | toFixed of a non-negative value starts with a digit |
| Strings.FractionDigits | widget-layouts/renderers/html-renderer.ts:242 | the fraction digits of a number's decimal form, digits only |
| Strings.NumberToString | widget-layouts/renderers/html-renderer.ts:242 | a number printed: an integer as IntToString gives it, anything else digits, '-' and '.' only |
| Strings.UnsignedDecimal | widget-layouts/renderers/html-renderer.ts:242 | a non-negative number printed with digits and '.' only |
| SwiftGenerator.ConvertBindingToSwift | widget-layouts/generators/swift-generator.ts:380-415 | a missing or empty text is the empty literal; a result that is not an expression is a quoted literal |
| SwiftGenerator.ConvertTrimmed | widget-layouts/generators/swift-generator.ts:383-414 | a result that is not an expression is a quoted literal |
| SwiftGenerator.MixedLiteral | widget-layouts/generators/swift-generator.ts:400-414 | the mixed conversion is a quoted literal |
| SwiftGenerator.ConvertSingleBinding | widget-layouts/generators/swift-generator.ts:393-397 | "{{x}}" becomes String(describing:) of x's data path, as an expression |
| SwiftGenerator.ConvertPlainText | widget-layouts/generators/swift-generator.ts:399-414 | text that is not localised and has no binding becomes its escaped literal, and unescaping the literal gives the text back whenever the text has no underscore (the placeholder clash) |
| SwiftGenerator.PiecesOfMixed | widget-layouts/generators/swift-generator.ts:400 | splitting "t{{x}}" keeps the separator: t, the binding and an empty tail |
| SwiftGenerator.PiecesAtMatch | widget-layouts/generators/swift-generator.ts:400 | at a binding the split emits the text before it and the binding |
| SwiftGenerator.PiecesSkip | widget-layouts/generators/swift-generator.ts:400 | positions without a binding emit nothing |
| SwiftGenerator.BindingAfterText | widget-layouts/generators/swift-generator.ts:400 | a binding after plain text is matched where it starts |
| SwiftGenerator.ConvertMixedText | widget-layouts/generators/swift-generator.ts:399-414 | "t{{x}}" becomes the literal of the escaped t followed by the interpolation of x's data path |
| SwiftGenerator.ConvertTrimmedText | widget-layouts/generators/swift-generator.ts:381-383 | a text without surrounding white space is converted as it is |
| SwiftGenerator.ConvertUnlocalised | widget-layouts/generators/swift-generator.ts:393-414 | text that is neither localised nor a single binding becomes the mixed literal |
| SwiftGenerator.MixedNotSingle | widget-layouts/generators/swift-generator.ts:386-397 | "t{{x}}" after plain text is not localised and is not a single binding |
| SwiftGenerator.MixedParts | widget-layouts/generators/swift-generator.ts:401-414 | the parts of "t{{x}}" join to the escaped t followed by the interpolation of x |
| SwiftGenerator.BindingPart | widget-layouts/generators/swift-generator.ts:402-408 | a binding part becomes the interpolation of its data path |
| SwiftGenerator.SwiftPartOfBinding | widget-layouts/generators/swift-generator.ts:402-408 | a part that is a binding becomes the interpolation of its data path |
| SwiftGenerator.EmptyPartSkipped | widget-layouts/generators/swift-generator.ts:400 | the empty parts filtered out contribute nothing |
| SwiftGenerator.NormalizeDataPathOfTrim | widget-layouts/generators/swift-generator.ts:348 | the path is trimmed first, so trimming before changes nothing |
| SwiftGenerator.ContainsAny | widget-layouts/generators/swift-generator.ts:111-112 | one of the alternatives of the pattern occurs in the key |
| SwiftGenerator.SettingWeight | widget-layouts/generators/swift-generator.ts:107 | the bold-or-regular conditional on the setting |
| SwiftGenerator.MissingMarks | widget-layouts/generators/swift-generator.ts:109-113 | neither "medium" nor "normal" matches the bold pattern, and "normal" does not match the medium one |
| SwiftGenerator.NotContainedWithoutPair | widget-layouts/generators/swift-generator.ts:111-112 | a text in which the first two characters of a word never occur in a row does not contain it |
| SwiftGenerator.IsDataPath | widget-layouts/generators/swift-generator.ts:349 | the path starts with data., item. or size. |
| SwiftGenerator.DataPrefixTrimmed | widget-layouts/generators/swift-generator.ts:349-350 | "data." before a trimmed path gives a trimmed path |
| SwiftGenerator.Localized | widget-layouts/generators/swift-generator.ts:389 | the NSLocalizedString call for a key |
| SwiftGenerator.Described | widget-layouts/generators/swift-generator.ts:396 | String(describing: path) |
| SwiftGenerator.Interpolated | widget-layouts/generators/swift-generator.ts:408 | the Swift interpolation of String(describing: path) |
| SwiftGenerator.SwiftPart | widget-layouts/generators/swift-generator.ts:401-412 | a part that is one whole binding becomes its interpolation; any other part is escaped |
| SwiftGenerator.SwiftBody | widget-layouts/generators/swift-generator.ts:400-414 | parts that are all empty (those filter(Boolean) drops) give an empty body |
| SwiftGenerator.BracedTrimmed | widget-layouts/generators/swift-generator.ts:383-386 | a "{{x}}" text is already trimmed and is not localised |
| SwiftGenerator.ConvertTrimmedBinding | widget-layouts/generators/swift-generator.ts:393-397 | a trimmed text that is one whole binding becomes String(describing:) of its normalised path |
| SwiftGenerator.PlainPieces | widget-layouts/generators/swift-generator.ts:400 | a text without '{' splits into itself alone |
| SwiftGenerator.NoMatchInText | widget-layouts/generators/swift-generator.ts:400 | the pattern matches nowhere inside a leading text without '{' |
| SwiftGenerator.PlainPrefix | widget-layouts/generators/swift-generator.ts:399-414 | non-empty text that does not start with white space and holds no '{' |
| SwiftGenerator.BindingName | widget-layouts/generators/swift-generator.ts:400 | a non-empty name without '}' |
| SwiftGenerator.MixedTrimmed | widget-layouts/generators/swift-generator.ts:383 | plain text followed by a binding is already trimmed |
| SwiftGenerator.SinglePartBody | widget-layouts/generators/swift-generator.ts:400-414 | a body of one part and an empty one is that part converted |
| ModifierBuilders.FormatColor | widget-layouts/generators/modifier-builders.ts:81-110 | a value that is neither a theme colour nor a hex colour is returned unchanged, and a theme colour never gives an empty text |
| ModifierBuilders.DefaultTablesCoverThemes | widget-layouts/generators/modifier-builders.ts:39-72 | every platform's default table has a non-empty entry for every theme colour |
| ModifierBuilders.ThemeColorTokens | widget-layouts/generators/modifier-builders.ts:39-92 | with the default map a theme colour is a GlanceTheme colour on Kotlin, a WidgetColorProvider colour on Swift and a six-digit hex colour on the web |
| ModifierBuilders.ThemeColorViaDefault | widget-layouts/generators/modifier-builders.ts:87-92 | a theme colour is the value its entry in the default table gives |
| ModifierBuilders.WebColorsAreHex | widget-layouts/generators/modifier-builders.ts:56-71 | every web default is "#" and six hex digits |
| ModifierBuilders.ThemeColorsAreNotHex | widget-layouts/generators/modifier-builders.ts:90-96 | a theme colour name is never also a hex colour, so the theme branch is taken first without shadowing a hex value |
| ModifierBuilders.HexColorForms | widget-layouts/generators/modifier-builders.ts:95-105 | six hex digits, with or without '#', become the platform's literal of the upper-cased digits, whatever the colour map |
| ModifierBuilders.CustomMapLookup | widget-layouts/generators/modifier-builders.ts:87-91 | with a custom map a theme colour is its non-empty entry, else its own name |
| ModifierBuilders.SwiftGeneratorAgrees | widget-layouts/generators/modifier-builders.ts:81-92 | for theme colours the Swift generator's colour and the shared Swift colour agree |
| ModifierBuilders.FormatDimension | widget-layouts/generators/modifier-builders.ts:119-132 | the Kotlin and web forms are longer than the number's text |
| ModifierBuilders.DimensionForms | widget-layouts/generators/modifier-builders.ts:123-131 | Kotlin is the Swift text followed by ".dp", JavaScript and TypeScript the quoted text followed by "px" |
| ModifierBuilders.Modifier | widget-layouts/generators/modifier-builders.ts:169-178 | an undefined property gives no modifier, and a compiled one gives one modifier starting with its opening |
| ModifierBuilders.Then | widget-layouts/generators/modifier-builders.ts:161-285 | the modifiers pushed in order, and the first compile error propagates |
| ModifierBuilders.BuildGlanceModifier | widget-layouts/generators/modifier-builders.ts:160-292 | "GlanceModifier" alone with no modifiers, else "GlanceModifier." and the modifiers joined with "."; an error exactly when a property fails to compile |
| ModifierBuilders.BareModifierExactly | widget-layouts/generators/modifier-builders.ts:287-291 | the result is the bare "GlanceModifier" if and only if there are no modifiers |
| ModifierBuilders.EmptyElement | widget-layouts/generators/modifier-builders.ts:287-289 | an element without properties gives "GlanceModifier" |
| ModifierBuilders.SizeHeads | widget-layouts/generators/modifier-builders.ts:163-192 | every size modifier is a fill, width or height modifier |
| ModifierBuilders.SpacingHeads | widget-layouts/generators/modifier-builders.ts:199-261 | every spacing modifier is a padding |
| ModifierBuilders.StyleHeads | widget-layouts/generators/modifier-builders.ts:263-285 | every style modifier is a background or corner radius |
| ModifierBuilders.AfterSizeHeads | widget-layouts/generators/modifier-builders.ts:194-285 | the chain is the size modifiers followed by flex, spacing and style modifiers, none of which is a size modifier |
| ModifierBuilders.FillMaxSizeSuppresses | widget-layouts/generators/modifier-builders.ts:164-166 | with fillMaxSize the first modifier is fillMaxSize() and there is no width, height, fillMaxWidth or fillMaxHeight |
| ModifierBuilders.FlexAddsDefaultWeight | widget-layouts/generators/modifier-builders.ts:195-197 | defaultWeight() is present if and only if flex is defined |
| ModifierBuilders.NonStringColorThrows | widget-layouts/generators/modifier-builders.ts:264-273 | a background colour that is neither text nor expression makes the builder fail |
| ModifierBuilders.LiteralWidth | widget-layouts/generators/modifier-builders.ts:169-177 | a literal width without fill flags gives width(n.dp) |
| ModifierBuilders.Declarations | widget-layouts/generators/modifier-builders.ts:578-579 | one "k: v" declaration per style |
| ModifierBuilders.StylesToCss | widget-layouts/generators/modifier-builders.ts:577-581 | no styles give the empty text |
| ModifierBuilders.StylesToCssReadsBack | widget-layouts/generators/modifier-builders.ts:577-581 | splitting the CSS on "; " gives back the declarations, and each declaration on ": " its key and value |
| ModifierBuilders.DeclarationReadsBack | widget-layouts/generators/modifier-builders.ts:579 | a declaration splits back into its key and value |
| ModifierBuilders.DefaultColorMap | widget-layouts/generators/modifier-builders.ts:39-72 | every platform's default table lists the six theme colours in order, each with a non-empty value |
| ModifierBuilders.HexForm | widget-layouts/generators/modifier-builders.ts:95-105 | the platform's colour literal wraps the six hex digits |
| ModifierBuilders.KotlinTokens | widget-layouts/generators/modifier-builders.ts:40-46 | every Kotlin default is a GlanceTheme colour |
| ModifierBuilders.SwiftTokens | widget-layouts/generators/modifier-builders.ts:39-72 | every Swift default is a WidgetColorProvider colour |
| ModifierBuilders.UpperOfUpper | widget-layouts/generators/modifier-builders.ts:99 | upper-casing text without lower-case letters leaves it unchanged |
| ModifierBuilders.CompileDimension | widget-layouts/generators/modifier-builders.ts:170-174 | a literal dimension compiles to its text followed by ".dp" |
| ModifierBuilders.CompileColor | widget-layouts/generators/modifier-builders.ts:265-269 | a literal colour that is not a string makes the colour formatter throw |
| ModifierBuilders.SizeModifiers | widget-layouts/generators/modifier-builders.ts:163-192 | at most two size modifiers |
| ModifierBuilders.FlexModifiers | widget-layouts/generators/modifier-builders.ts:194-197 | at most one weight modifier, and it never throws |
| ModifierBuilders.SpacingModifiers | widget-layouts/generators/modifier-builders.ts:199-261 | at most six padding modifiers |
| ModifierBuilders.StyleModifiers | widget-layouts/generators/modifier-builders.ts:263-285 | at most a background and a corner radius |
| ModifierBuilders.GlanceModifiers | widget-layouts/generators/modifier-builders.ts:160-285 | at most eleven modifiers in all |
| ModifierBuilders.Heads | widget-layouts/generators/modifier-builders.ts:160-285 | every modifier starts with one of the given characters |
| ModifierBuilders.HeadsConcat | widget-layouts/generators/modifier-builders.ts:160-285 | two lists whose modifiers start with those characters concatenate into one that does |
| ModifierBuilders.ModifierHead | widget-layouts/generators/modifier-builders.ts:175-176 | a pushed modifier starts with the first character of its opening |
| ModifierBuilders.FillFirstList | widget-layouts/generators/modifier-builders.ts:164-166 | a list that starts with fillMaxSize() and continues with weight, padding, background and corner modifiers holds no width, height or single-axis fill |
| ModifierBuilders.FillMaxSizeIsNotSized | widget-layouts/generators/modifier-builders.ts:164-166 | fillMaxSize() is neither a width, a height nor a single-axis fill |
| ModifierBuilders.NotSizeEntry | widget-layouts/generators/modifier-builders.ts:194-285 | a weight, padding, background or corner modifier is neither a width, a height nor a fill |
| ModifierBuilders.PlainStyles | widget-layouts/generators/modifier-builders.ts:577-581 | no style key or value holds ';' or ':' |
| ModifierBuilders.ConcatWithout | widget-layouts/generators/modifier-builders.ts:577-581 | joining two texts without a character gives a text without it |
| ModifierBuilders.DeclarationWithout | widget-layouts/generators/modifier-builders.ts:579 | a declaration of a key and value without ';' holds no ';' |
| ModifierBuilders.ThenHeads | widget-layouts/generators/modifier-builders.ts:160-285 | two consecutive steps whose modifiers start with those characters keep them together |
| ModifierBuilders.PaddingHead | widget-layouts/generators/modifier-builders.ts:199-261 | a pushed padding or margin modifier starts with 'p' |
| Api.Utf8 | app/services/api.ts:72-74 | the one to four UTF-8 bytes encodeURIComponent percent-encodes, ASCII as itself |
| Api.EncodeUriComponent | app/services/api.ts:72-74 | the encoding holds only characters that are safe in a URI component |
| Api.EncodeUnreservedIdentity | app/services/api.ts:74 | a value of unreserved characters is encoded as itself |
| Api.EncodedHasNoDelimiter | app/services/api.ts:72-74 | an encoded value never holds '&', '=', '?' or '#', so it cannot break the query |
| Api.PercentBytesDecode | app/services/api.ts:72-74 | decoding the percent form of bytes gives the bytes back |
| Api.EncodeDecodeBytes | app/services/api.ts:72-74 | percent-decoding an encoded value gives its UTF-8 bytes (the round trip of encodeURIComponent) |
| Api.SplitQuery | app/services/api.ts:39 | splitting the location on '?' and '&' gives at least one piece |
| Api.SplitQueryPlain | app/services/api.ts:39 | a location without '?' or '&' is one piece |
| Api.LocationPart | app/services/api.ts:44-52 | a kept piece is never empty |
| Api.LocationParts | app/services/api.ts:42-53 | at most one part per piece of the location |
| Api.ArrayParts | app/services/api.ts:54-64 | at most one part per array item |
| Api.EncodeValue | app/services/api.ts:71-75 | an encoded value has no '&' or '=' |
| Api.EntryParts | app/services/api.ts:78-80 | one "key=value" part per defined entry |
| Api.QueryString | app/services/api.ts:30-84 | the loops build exactly the query the specification function gives: a lookup for a string, else the location parts and the parameter parts assembled |
| Api.CollectLocationParts | app/services/api.ts:42-53 | the loop keeps the pieces with a name, as "name=value" or "name" |
| Api.CollectArrayParts | app/services/api.ts:54-64 | the loop keeps strings as they are and pairs as "a=b" |
| Api.CollectObjectEntries | app/services/api.ts:65-77 | the loop encodes every defined value and drops undefined ones |
| Api.CollectEntryParts | app/services/api.ts:78-80 | the loop gives "key=value" for every entry |
| Api.Defined | app/services/api.ts:68-76 | never more entries than properties |
| Api.DefinedKeysFrom | app/services/api.ts:68-69 | a key not among the properties is not among the defined entries |
| Api.ObjectEntriesDropUndefined | app/services/api.ts:65-77 | with distinct keys the object entries are exactly the defined, encoded ones in order |
| Api.AssembleShape | app/services/api.ts:83 | the first two parts are joined by '?' and the rest each follow an '&' |
| Api.PlainLocation | app/services/api.ts:39-53 | a plain URL stays the single first part |
| Api.LocationPartForms | app/services/api.ts:44-52 | "k" and "k=" give "k", "k=v" gives itself, and anything after a second '=' is dropped |
| Api.ObjectQueryShape | app/services/api.ts:30-84 | on a plain URL an object gives url, then "?" and the defined entries joined by "&", or the url alone when none is defined |
| Api.SingleParamQuery | app/services/api.ts:30-84 | one defined parameter gives url?name=encoded value |
| Api.MatchAfterPlainUrl | app/services/api.ts:35-36 | the lookup finds the value that follows "?name=" |
| Api.LookupReadsBack | app/services/api.ts:30-84 | looking a parameter up in the URL built from it gives its encoded value back |
| Api.StringArrayParts | app/services/api.ts:59-60 | an array of strings gives its strings as parts |
| Api.NetworkService.constructor | app/services/api.ts:139-170 | the service starts with no connection, not connected, not monitoring |
| Api.NetworkService.SetConnected | app/services/api.ts:144-156 | the flag is set, and a state event is notified only when it changed |
| Api.NetworkService.SetConnectionType | app/services/api.ts:160-166 | a changed type sets connected exactly when the type is not none and notifies; the same type changes nothing |
| Api.NetworkService.Start | app/services/api.ts:171-178 | monitoring starts once; a first start runs the connectionType setter on the current type, with its exact connected flag and notifications, and a repeated start changes nothing |
| Api.NetworkService.Stop | app/services/api.ts:179-185 | monitoring stops |
| Api.RequestHeadersContentType | app/services/api.ts:269-276 | a set Content-Type is kept with all headers, a missing or empty one becomes application/json, every other header is unchanged |
| Api.RequestHeadersIdempotent | app/services/api.ts:269-276 | applying the default twice equals applying it once |
| Api.RequestParams.constructor | app/services/api.ts:22-24 | the request options as given |
| Api.Request | app/services/api.ts:277-285 | disconnected it throws NoNetworkError and changes nothing; connected the query params are folded into the url and removed, and the headers get their default |
| Api.UriUnreserved | app/services/api.ts:72-74 | defines the characters encodeURIComponent leaves as they are: ASCII letters, digits and - _ . ! ~ * ' ( ) |
| Api.UriSafe | app/services/api.ts:72-74 | defines the alphabet of an encoded component: the unreserved characters and '%' |
| Api.HexUpper | app/services/api.ts:72-74 | a digit value becomes a hexadecimal digit that is never lower-case, as encodeURIComponent writes its escapes |
| Api.IsHex | app/services/api.ts:72-74 | defines the hexadecimal digits a percent escape is read with |
| Api.HexValue | app/services/api.ts:72-74 | a hexadecimal digit's value lies in 0..15 |
| Api.HexRoundTrip | app/services/api.ts:72-74 | an upper-case hexadecimal digit reads back as the value it was written from |
| Api.PercentBytes | app/services/api.ts:72-74 | the "%XY" escapes of bytes hold only characters of an encoded component |
| Api.EncodeChar | app/services/api.ts:72-74 | the encoding of one character holds only characters of an encoded component |
| Api.Utf8String | app/services/api.ts:72-74 | the UTF-8 form of a text has one to four bytes per character, each in 0..255 |
| Api.PercentDecode | app/services/api.ts:72-74 | decoding never gives more bytes than the text has characters (EncodeDecodeBytes makes it the inverse of the encoding) |
| Api.IsQuerySeparator | app/services/api.ts:39 | defines the separators of location.split(/[?&]/): '?' and '&' |
| Api.NoQuerySeparator | app/services/api.ts:39 | defines a location piece the split leaves whole: no '?' and no '&' |
| Api.ItemAt | app/services/api.ts:61 | data[0] and data[1] of an array param: the element when the index is in range, undefined past the end |
| Api.ObjectEntries | app/services/api.ts:65-77 | the intermediate object never has more entries than the params have properties |
| Api.ParamParts | app/services/api.ts:54-81 | array params contribute at most one part per item, object params at most one per property, any other params nothing |
| Api.Assemble | app/services/api.ts:83 | no parts give the empty text and a single part is returned as it is |
| Api.AssembleOne | app/services/api.ts:83 | two parts are joined by '?' |
| Api.JoinPair | app/services/api.ts:83 | joining two parts puts the separator between them |
| Api.AssembleMany | app/services/api.ts:83 | a URL and two or more parts give the URL, '?', and the parts joined by '&' |
| Api.AssembleHead | app/services/api.ts:83 | a URL and two or more parts give the URL, '?', the first part, '&', and the rest joined by '&' |
| Api.JoinHead | app/services/api.ts:83 | a join of two or more parts is the first part, the separator, and the join of the rest |
| Api.ParamValue | app/services/api.ts:35-36 | the captured value never contains '&' and is a prefix of the text after the name, once its optional '=' is skipped |
| Api.TakeUntil | app/services/api.ts:35 | the `[^&]*` capture: a prefix of the text without the stop character, the whole text when it has none |
| Api.ParamValueAfterEquals | app/services/api.ts:35-36 | after "=" a value without '&' is captured whole |
| Api.MatchParam | app/services/api.ts:34-37 | a value found by the lookup never contains '&' |
| Api.MatchSkipsPlain | app/services/api.ts:35 | a stretch of the location without '?' or '&' does not change what the lookup finds after it |
| Api.MatchAtQuestion | app/services/api.ts:35-36 | "?name=value" with a value free of '&' is looked up as that value |
| Api.QueryStringOf | app/services/api.ts:30-84 | non-string params always give a URL, and a looked-up value never contains '&' |
| Api.DistinctKeys | app/services/api.ts:65-66 | defines that an object's keys are distinct, so `for (key in params)` visits each key once |
| Api.SingleParamPart | app/services/api.ts:65-80 | a single defined param contributes the one part "name=encoded value" |
| Api.NetworkService.Consistent | app/services/api.ts:144-166 | defines the invariant the setters keep: connected exactly when the connection type is not none |
| Api.RequestHeaders | app/services/api.ts:269-276 | the headers returned always hold a non-empty Content-Type |
| Gadgetbridge.IntBytes | app/services/gadgetbridge.ts:131-136 | four bytes, each in 0..255 |
| Gadgetbridge.LongBytes | app/services/gadgetbridge.ts:110-126 | eight bytes, each in 0..255 |
| Gadgetbridge.IntBytesRoundTrip | app/services/gadgetbridge.ts:131-136 | reading the four bytes big-endian gives the value modulo 2^32 |
| Gadgetbridge.IntBytesSigned | app/services/gadgetbridge.ts:131-136 | a value in the signed 32-bit range reads back as itself as a two's-complement int |
| Gadgetbridge.LongBytesRoundTrip | app/services/gadgetbridge.ts:110-126 | reading the eight bytes big-endian gives floor(ms/1000) modulo 2^64, the high word first |
| Gadgetbridge.ForecastEntryBytes | app/services/gadgetbridge.ts:87-100 | one forecast entry is 20 bytes |
| Gadgetbridge.ForecastEntries | app/services/gadgetbridge.ts:84-101 | 20 bytes per forecast day |
| Gadgetbridge.ForecastEntriesSnoc | app/services/gadgetbridge.ts:84-101 | the entries of one more day are the previous entries followed by that day's |
| Gadgetbridge.CurrentWeatherLayout | app/services/gadgetbridge.ts:37-68 | the current buffer is 29 bytes: version 0x01, the seconds, round(t*100), the condition code, humidity, wind speed*100 and direction, each read back from its slice |
| Gadgetbridge.CurrentTemperatureReadsBack | app/services/gadgetbridge.ts:47-49 | a temperature within range reads back exactly as round(t*100) |
| Gadgetbridge.ForecastEntryAt | app/services/gadgetbridge.ts:84-101 | day k's entry is at bytes 20k to 20k+20 |
| Gadgetbridge.ForecastHeader | app/services/gadgetbridge.ts:74-104 | the forecast buffer is 5 + 20*min(len,7) bytes: version 0x01, the count, then the entries of the first min(len,7) days |
| Gadgetbridge.ForecastLayout | app/services/gadgetbridge.ts:84-101 | the k-th day's entry lies at offset 5 + 20k |
| Gadgetbridge.ForecastMinFallback | app/services/gadgetbridge.ts:91-92 | the minimum falls back to the temperature when it is missing or zero |
| Gadgetbridge.JavaBytes | app/services/gadgetbridge.ts:141-150 | one Java byte per buffer entry |
| Gadgetbridge.JavaByteRange | app/services/gadgetbridge.ts:146-147 | a Java byte is in -128..127 and agrees with the byte modulo 256; b > 127 becomes b - 256, smaller bytes stay |
| Gadgetbridge.ByteBuffer.constructor | app/services/gadgetbridge.ts:38 | the buffer starts empty |
| Gadgetbridge.ByteBuffer.Push | app/services/gadgetbridge.ts:41 | push appends one byte |
| Gadgetbridge.GadgetbridgeService.constructor | app/services/gadgetbridge.ts:14-16 | enabled is the stored setting, false when absent |
| Gadgetbridge.GadgetbridgeService.SetEnabled | app/services/gadgetbridge.ts:21-24 | the flag and the stored setting are set |
| Gadgetbridge.GadgetbridgeService.IsEnabled | app/services/gadgetbridge.ts:29-31 | the flag |
| Gadgetbridge.GadgetbridgeService.WriteInt | app/services/gadgetbridge.ts:131-136 | the buffer grows by the four big-endian bytes of the value |
| Gadgetbridge.GadgetbridgeService.WriteLong | app/services/gadgetbridge.ts:110-126 | the buffer grows by the eight big-endian bytes of the seconds |
| Gadgetbridge.GadgetbridgeService.CreateCurrentWeatherGz | app/services/gadgetbridge.ts:37-68 | the pushes build exactly the current-weather layout |
| Gadgetbridge.GadgetbridgeService.CreateForecastWeatherGz | app/services/gadgetbridge.ts:74-104 | the pushes build exactly the forecast layout |
| Gadgetbridge.GadgetbridgeService.WriteForecastEntries | app/services/gadgetbridge.ts:84-101 | the loop appends exactly the entries of the days |
| Gadgetbridge.GadgetbridgeService.WriteForecastEntry | app/services/gadgetbridge.ts:85-100 | one day's 20 bytes are appended |
| Gadgetbridge.GadgetbridgeService.ToJavaByteArray | app/services/gadgetbridge.ts:141-152 | off Android null; on Android a new array of the signed bytes |
| Gadgetbridge.GadgetbridgeService.BroadcastWeather | app/services/gadgetbridge.ts:157-190 | nothing is sent when disabled or off Android; otherwise one intent with the "lat,lon" id, the name or id, and both buffers |
| Gadgetbridge.ReadUint32 | app/services/gadgetbridge.ts:131-136 | the reading of four bytes as an unsigned big-endian word, partner of the writer; four bytes in 0..255 read as a value in 0..2^32-1 |
| Gadgetbridge.ReadInt32 | app/services/gadgetbridge.ts:131-136 | the signed reading of the word lies in the 32-bit signed range and agrees with the unsigned reading modulo 2^32 |
| Gadgetbridge.ReadUint64 | app/services/gadgetbridge.ts:110-126 | the reading of eight bytes as a big-endian 64-bit value, partner of the long writer; bytes in 0..255 read as a value in 0..2^64-1 |
| Gadgetbridge.ModTwoTo64 | app/services/gadgetbridge.ts:110-126 | the remainder of a division by 2^64 is the one in range, used to bound the long reading |
| Gadgetbridge.OrZero | app/services/gadgetbridge.ts:48 | x or 0: an undefined number counts as 0 |
| Gadgetbridge.OrElse | app/services/gadgetbridge.ts:91 | a or b: the first number unless it is undefined or 0, and always one of the two |
| Gadgetbridge.IconOrZero | app/services/gadgetbridge.ts:52 | the condition code, 0 when it is undefined |
| Gadgetbridge.CurrentWeatherBytes | app/services/gadgetbridge.ts:37-68 | the current-weather buffer is 29 bytes, each in 0..255 (CurrentWeatherLayout states each field) |
| Gadgetbridge.ForecastWeatherBytes | app/services/gadgetbridge.ts:74-104 | the forecast buffer is 5 bytes of header plus 20 bytes for each of the first min(len, 7) days |
| Gadgetbridge.SmallCountReadsBack | app/services/gadgetbridge.ts:81 | an entry count of at most 7 reads back as itself |
| Gadgetbridge.JavaByte | app/services/gadgetbridge.ts:146-147 | a Java byte lies in -128..127 and keeps the buffer entry's value modulo 256 |
| GadgetbridgeAndroid.Truncate | App_Resources/Android/src/main/java/com/akylas/weather/gadgetbridge/GadgetbridgeService.kt:156 | Double.toInt rounds toward zero: floor for non-negative values, and always within one of the value |
| GadgetbridgeAndroid.Saturate | App_Resources/Android/src/main/java/com/akylas/weather/gadgetbridge/GadgetbridgeService.kt:156 | Double.toInt clamps to the Int range and keeps values inside it |
| GadgetbridgeAndroid.Wrap32 | App_Resources/Android/src/main/java/com/akylas/weather/gadgetbridge/GadgetbridgeService.kt:68 | Long.toInt keeps the low 32 bits as a two's-complement Int, and values inside the range are unchanged |
| GadgetbridgeAndroid.Forecasts | App_Resources/Android/src/main/java/com/akylas/weather/gadgetbridge/GadgetbridgeService.kt:101-124 | min(len, 8) - 1 forecasts, at most 7, the k-th built from day k + 1 (the first day skipped) |
| GadgetbridgeAndroid.HourlyForecasts | App_Resources/Android/src/main/java/com/akylas/weather/gadgetbridge/GadgetbridgeService.kt:127-143 | min(len, 48) hours, the k-th built from hour k |
| GadgetbridgeAndroid.SummaryKeys | App_Resources/Android/src/main/java/com/akylas/weather/gadgetbridge/GadgetbridgeService.kt:67-99 | the summary fields never hold the forecasts or hourly keys |
| GadgetbridgeAndroid.BuildGadgetbridgeData | App_Resources/Android/src/main/java/com/akylas/weather/gadgetbridge/GadgetbridgeService.kt:59-150 | the two loops build exactly the document the specification function gives |
| GadgetbridgeAndroid.CollectForecasts | App_Resources/Android/src/main/java/com/akylas/weather/gadgetbridge/GadgetbridgeService.kt:102-124 | the loop over days 1 until min(len, 8) gives exactly the forecasts |
| GadgetbridgeAndroid.CollectHourly | App_Resources/Android/src/main/java/com/akylas/weather/gadgetbridge/GadgetbridgeService.kt:127-143 | the loop over hours 0 until min(len, 48) gives exactly the hourly list |
| GadgetbridgeAndroid.ForecastWindow | App_Resources/Android/src/main/java/com/akylas/weather/gadgetbridge/GadgetbridgeService.kt:101-124 | forecasts are present iff there is more than one day, hold min(len,8)-1 <= 7 entries, entry k from day k+1 |
| GadgetbridgeAndroid.HourlyWindow | App_Resources/Android/src/main/java/com/akylas/weather/gadgetbridge/GadgetbridgeService.kt:126-143 | hourly is present iff there is an hour, holds min(len,48) entries, entry k from hour k |
| GadgetbridgeAndroid.MissingIconDefaults | App_Resources/Android/src/main/java/com/akylas/weather/gadgetbridge/GadgetbridgeService.kt:74-134 | a missing iconId gives condition code 3200 in the current weather, forecasts and hours |
| GadgetbridgeAndroid.SecondsOfTime | App_Resources/Android/src/main/java/com/akylas/weather/gadgetbridge/GadgetbridgeService.kt:68 | a timestamp in range becomes ms / 1000 seconds |
| GadgetbridgeAndroid.KelvinProperties | App_Resources/Android/src/main/java/com/akylas/weather/gadgetbridge/GadgetbridgeService.kt:155-157 | Kelvin is monotone in the temperature, and in range it is floor(c + 273.15), never negative |
| GadgetbridgeAndroid.TruncateMonotone | App_Resources/Android/src/main/java/com/akylas/weather/gadgetbridge/GadgetbridgeService.kt:156 | truncation toward zero is monotone |
| GadgetbridgeAndroid.LongDiv | App_Resources/Android/src/main/java/com/akylas/weather/gadgetbridge/GadgetbridgeService.kt:68 | Long division by a positive divisor truncates toward zero: the quotient times the divisor is within one divisor of the dividend, on the dividend's side of zero |
| GadgetbridgeAndroid.OptInt | App_Resources/Android/src/main/java/com/akylas/weather/gadgetbridge/GadgetbridgeService.kt:76 | optInt: the fallback for a missing field, otherwise a value clamped to the Int range |
| GadgetbridgeAndroid.OptLong | App_Resources/Android/src/main/java/com/akylas/weather/gadgetbridge/GadgetbridgeService.kt:68 | optLong with fallback 0: a missing field reads as 0 |
| GadgetbridgeAndroid.OptDouble | App_Resources/Android/src/main/java/com/akylas/weather/gadgetbridge/GadgetbridgeService.kt:75 | optDouble with fallback 0.0: a missing field reads as 0.0 |
| GadgetbridgeAndroid.Seconds | App_Resources/Android/src/main/java/com/akylas/weather/gadgetbridge/GadgetbridgeService.kt:68 | milliseconds to seconds then toInt: always in the Int range, 0 for a missing time (SecondsOfTime gives the in-range value) |
| GadgetbridgeAndroid.Kelvin | App_Resources/Android/src/main/java/com/akylas/weather/gadgetbridge/GadgetbridgeService.kt:155-157 | the Kelvin value is always in the Int range (KelvinProperties gives the in-range value) |
| GadgetbridgeAndroid.CurrentFields | App_Resources/Android/src/main/java/com/akylas/weather/gadgetbridge/GadgetbridgeService.kt:74-86 | the eleven fields put for the current conditions, each with its fallback |
| GadgetbridgeAndroid.TodayFields | App_Resources/Android/src/main/java/com/akylas/weather/gadgetbridge/GadgetbridgeService.kt:89-99 | the eight fields put for today from the first day |
| GadgetbridgeAndroid.ForecastJson | App_Resources/Android/src/main/java/com/akylas/weather/gadgetbridge/GadgetbridgeService.kt:106-121 | the thirteen fields of one forecast day |
| GadgetbridgeAndroid.HourJson | App_Resources/Android/src/main/java/com/akylas/weather/gadgetbridge/GadgetbridgeService.kt:130-140 | the eight fields of one hour |
| GadgetbridgeAndroid.Summary | App_Resources/Android/src/main/java/com/akylas/weather/gadgetbridge/GadgetbridgeService.kt:67-99 | the summary always holds the timestamp and the location |
| GadgetbridgeAndroid.GadgetbridgeData | App_Resources/Android/src/main/java/com/akylas/weather/gadgetbridge/GadgetbridgeService.kt:59-150 | the document holds forecasts exactly when there is more than one day, and hourly entries exactly when there is an hour |
| GadgetbridgeAndroid.CurrentKeys | App_Resources/Android/src/main/java/com/akylas/weather/gadgetbridge/GadgetbridgeService.kt:74-86 | the current fields hold neither the forecasts nor the hourly key |
| GadgetbridgeAndroid.TodayKeys | App_Resources/Android/src/main/java/com/akylas/weather/gadgetbridge/GadgetbridgeService.kt:89-99 | today's fields hold neither the forecasts nor the hourly key |
| GadgetbridgeAndroid.CurrentIconDefault | App_Resources/Android/src/main/java/com/akylas/weather/gadgetbridge/GadgetbridgeService.kt:76 | a missing iconId gives the current condition code 3200 |
| GadgetbridgeAndroid.ForecastIconDefault | App_Resources/Android/src/main/java/com/akylas/weather/gadgetbridge/GadgetbridgeService.kt:108 | a missing iconId gives a forecast condition code 3200 |
| GadgetbridgeAndroid.HourIconDefault | App_Resources/Android/src/main/java/com/akylas/weather/gadgetbridge/GadgetbridgeService.kt:134 | a missing iconId gives an hourly condition code 3200 |
| Icon.DigitPrefix | app/services/icon.ts:72-74 | the longest prefix of digits, the part parseInt reads |
| Icon.ParseInt | app/services/icon.ts:72-74 | parseInt(s, 10) skips leading white space and one '+' or '-', and succeeds exactly when a digit follows; the value is the leading digits, negated after '-' |
| Icon.ParseIntOfDigits | app/services/icon.ts:72-74 | a text starting with a digit is read as its leading digits |
| Icon.ParseIntOfDigitsThen | app/services/providers/mf.ts:162 | digits followed by a non-digit (the "j" of the icon "1j") are read as those digits |
| Icon.ParseIntNegative | app/services/icon.ts:72-74 | blanks, '-' and digits read as the negated digits: "-12" gives -12, so a file "-12.png" is mapped to -12 |
| Icon.ParseIntBlanks | app/services/icon.ts:72-74 | blanks before the digits are skipped: " 7" gives 7 |
| Icon.NegativeParse | app/services/icon.ts:72-74 | text whose leading blanks are followed by '-' and digits reads as the negated digits, whatever the blanks are |
| Icon.DigitPrefixThen | app/services/icon.ts:72-74 | the digits read from digits followed by a non-digit are exactly those digits |
| Icon.DropLast | app/services/icon.ts:69-74 | slice(0, -n): the text without its last n characters, empty when shorter |
| Icon.IconMapKeys | app/services/icon.ts:63-81 | a code is in the filled map iff some file name gives that code |
| Icon.IconMapValues | app/services/icon.ts:70-78 | every value is 0 or 1, and 0 exactly when a three-character name gives the code |
| Icon.IconMapDescribesNames | app/services/icon.ts:63-81 | the filled map describes the file names: a plain name gives 0, a suffixed name gives 1 unless a plain name already set 0 |
| Icon.FillIconMap | app/services/icon.ts:63-81 | the reduce over the names fills exactly the map the names describe, starting from a cleared map |
| Icon.Resolve | app/services/icon.ts:124-129 | a resolved code is in the set's map, and a code already there resolves to itself |
| Icon.ResolveStable | app/services/icon.ts:126-129 | more steps do not change a resolved code |
| Icon.CorrectedDecreases | app/services/icon.ts:6-61 | with 313 corrected, every table step goes to a strictly smaller code of at least 200 |
| Icon.ResolvesWithBaseCodes | app/services/icon.ts:124-129 | corrected, when the set has every base code, every code in the map or the table resolves |
| Icon.AsWrittenDecreases | app/services/icon.ts:6-61 | as written, every table step but 313's goes to a strictly smaller code of at least 200, and only 314 steps to 313 |
| Icon.AsWrittenResolvesWithBaseCodes | app/services/icon.ts:124-129 | as written, when the set has every base code, every code in the map or the table resolves except 313 and 314, which resolve once the set holds 313 |
| Icon.AsWrittenSelfLoop | app/services/icon.ts:21-129 | as written, 313 maps to itself, so without an icon for 313 the search never ends |
| Icon.AsWrittenLoopsOn313 | app/services/icon.ts:21-129 | a set with all base codes but no 313 icon makes getIcon(313) loop forever as written |
| Icon.AsWrittenLoopsWithoutFallback | app/services/icon.ts:124-127 | a code the set lacks and the table does not map is never resolved: the loop reads the mapping as undefined and never ends |
| Icon.IconNameSuffix | app/services/icon.ts:130 | the name ends in d or n exactly when the map value is 1, d for day and n for night; otherwise it is the bare code |
| Icon.StoredNameHits | app/services/icon.ts:115-131 | after storing the name, the next lookup of the same key hits the cache |
| Icon.IconService.constructor | app/services/icon.ts:101-113 | the constructor loads: icon set from the setting (meteocons by default), both maps filled, cache empty |
| Icon.IconService.Load | app/services/icon.ts:106-113 | the icon set is the setting, both maps are refilled, and the cache is cleared |
| Icon.FollowFallbacks | app/services/icon.ts:124-129 | the fallback loop, run on the table as written, stops at an icon the set has, and it is the code the fallback chain resolves to |
| Icon.IconService.GetIcon | app/services/icon.ts:114-133 | a cached name is returned unchanged; an undefined code gives null; otherwise the icon name of the code the table as written resolves to is returned and cached under the key; the requires leaves out exactly the calls on which the loop never ends (313 without a 313 icon, and any code with no table entry that the set lacks, such as 530) |
| Icon.AsWrittenFallback | app/services/icon.ts:6-61 | WEATHER_CODE_MAPPING as written: every entry but 313's falls back to a strictly smaller code, and 313 falls back to itself |
| Icon.Next | app/services/icon.ts:6-61 | the fallback step getIcon takes, with the table as written or with 313 corrected to 312 |
| Icon.HasBaseCodes | app/services/icon.ts:6-61 | the icon set has an icon for every code the table falls back to that has no fallback of its own |
| Icon.Unsigned | app/services/icon.ts:72-74 | parseInt reads one optional '+' or '-': the text is unchanged or loses that one leading sign |
| Icon.Negative | app/services/icon.ts:72-74 | parseInt negates the number when the first character after the blanks is '-' |
| Icon.DigitNotSpace | app/services/icon.ts:72-74 | a digit is neither white space nor a sign, so parseInt starts reading at it |
| Icon.DigitsPrefixAll | app/services/icon.ts:72-74 | a text made of digits is read in full |
| Icon.Stem | app/services/icon.ts:69 | slice(0, -4): the file name without its four-character extension, empty for a shorter name |
| Icon.PlainCode | app/services/icon.ts:70-72 | only a three-character stem is read as a plain code |
| Icon.SuffixedCode | app/services/icon.ts:73-74 | only a stem of another length is read as a day/night code, with its last character dropped |
| Icon.CodeOf | app/services/icon.ts:69-77 | the code a file name stands for, either way |
| Icon.FillStep | app/services/icon.ts:68-79 | one reduce step keeps every code already in the map, adds only the code the name stands for, and only ever changes an existing value to 0 |
| Icon.IconMap | app/services/icon.ts:63-81 | every value fillIconMap stores is 0 or 1 |
| Icon.NamesCode | app/services/icon.ts:63-81 | some directory entry stands for the code |
| Icon.NamesPlain | app/services/icon.ts:70-72 | some three-character entry stands for the code |
| Icon.PlainNamesCode | app/services/icon.ts:70-72 | a plain entry for a code is an entry for that code |
| Icon.DescribesNames | app/services/icon.ts:63-81 | the map holds exactly the codes the names stand for, 0 marking a plain name and 1 day/night names only |
| Icon.ResolveStep | app/services/icon.ts:126-129 | a code without an icon that resolves does so through its fallback, in one step fewer |
| Icon.CacheKey | app/services/icon.ts:115 | the cache key ends in the day flag and then the animated flag, each '1' or '0' |
| Icon.IconName | app/services/icon.ts:130 | the icon name is the code's decimal text followed by at most one character |
| Icon.LastOfIntToString | app/services/icon.ts:130 | the decimal text of a code ends in a digit, so a d or n at the end can only come from the suffix |
| Icon.CacheHit | app/services/icon.ts:116-119 | a cached name is returned when it is there and not empty (truthy) |
| Icon.IconService.MapIds | app/services/icon.ts:123 | the lotties map for an animated icon, the images map otherwise |
| Icon.AsWrittenBaseCode | app/services/icon.ts:6-61 | where the table as written ends a chain after one step, it ends on 200, 210, 300, 500, 600, 701 or 800 |
| WeatherData.Assign | app/services/weatherData.ts:238-253 | Object.assign: the keys of both, the added values winning, the others kept |
| WeatherData.FindTime | app/services/weatherData.ts:247-258 | findIndex by time: the first index with that time, or none when no item has it |
| WeatherData.Aligned | app/services/weatherData.ts:250-265 | corrected: the main series with each item merged with its partner of the same time at the given offset, length kept |
| WeatherData.MergedSeries | app/services/weatherData.ts:241-267 | the series merge keeps the main length |
| WeatherData.SameIndexFrom | app/services/weatherData.ts:250-265 | main item k is merged with added item k from the found index on, when their times agree; every other item is kept |
| WeatherData.MergedSeriesCorrected | app/services/weatherData.ts:241-267 | the corrected series merge, walking the series in step, keeps the main length |
| WeatherData.MergeOnlyEqualTimes | app/services/weatherData.ts:241-267 | a merge keeps the length and every time, and changes item k only by assigning added item k of the same time |
| WeatherData.MergeOnlyEqualTimesCorrected | app/services/weatherData.ts:241-267 | the corrected merge keeps the length and every time, and changes an item only by assigning an added item of the same time |
| WeatherData.MergeSameStart | app/services/weatherData.ts:246-256 | two series starting at the same time are merged at every index where their times agree |
| WeatherData.MergeWindowAtStart | app/services/weatherData.ts:246-256 | an added series covering the main one from its first item is merged item for item, and the later main items are kept |
| WeatherData.MergeIgnoresLaterWindow | app/services/weatherData.ts:246-256 | an added series that is a window of an increasing main series starting after its first item leaves the main series unchanged |
| WeatherData.MergeIgnoresEarlierStart | app/services/weatherData.ts:257-266 | a main series that is a window of an increasing added series from s > 0 is left unchanged |
| WeatherData.MergeWindowCorrected | app/services/weatherData.ts:246-256 | corrected, an added series that is a window of an increasing main series from s merges every added item into main item s + j and leaves the rest |
| WeatherData.MergeEarlierStartCorrected | app/services/weatherData.ts:257-266 | corrected, a main series that is a window of the added series from s > 0 takes added item s + k into main item k |
| WeatherData.AsWrittenSkipsLaterWindow | app/services/weatherData.ts:247-255 | as written, hours 0-2 with an added series for hours 1-2 are not merged at all |
| WeatherData.CorrectedMergesLaterWindow | app/services/weatherData.ts:247-255 | corrected, both added hours are merged into hours 1 and 2 |
| WeatherData.MergeKey | app/services/weatherData.ts:232-243 | merging one key changes only that key; Object.assign into a missing or null main entry throws |
| WeatherData.MergeObjectKeepsShape | app/services/weatherData.ts:232-268 | merging one added object never changes the keys or a series length |
| WeatherData.MergeAllKeepsShape | app/services/weatherData.ts:229-270 | merging all added objects never changes the keys or a series length |
| WeatherData.AssignObjects | app/services/weatherData.ts:236-239 | two non-array entries are Object-assigned: keys of both, added values winning |
| WeatherData.Forecast.constructor | app/services/weatherData.ts:229 | the main forecast's entries |
| WeatherData.Forecast.MergeWeatherData | app/services/weatherData.ts:229-270 | the loop merges every added object in turn; it throws exactly when a merge throws, and keys and series lengths are kept |
| WeatherData.Forecast.MergeAddedData | app/services/weatherData.ts:232-268 | the forEach over one added object's keys gives exactly the merge of that object |
| WeatherData.MergeSeries | app/services/weatherData.ts:244-267 | the series merge: the later-starting series located in the other, then both read at the same index |
| WeatherData.MergeIntoLater | app/services/weatherData.ts:246-256 | when the added series starts no earlier, its first time is searched in main and, if found, the walk over main yields the merged series |
| WeatherData.MergeFromEarlier | app/services/weatherData.ts:257-266 | when the added series starts earlier, main's first time is searched in it and, if found, the walk over the added series yields the merged series |
| WeatherData.WindowAligned | app/services/weatherData.ts:246-249 | a window of an increasing main series is located at its start, so the corrected merge pairs main index s + j with added index j |
| WeatherData.WindowFound | app/services/weatherData.ts:247-249 | the search for the window's first time in an increasing main series stops exactly at the window's start |
| WeatherData.WalkMain | app/services/weatherData.ts:250-255 | the loop over the main series from the found index merges main item k with added item k whenever both exist and their times agree |
| WeatherData.WalkAdded | app/services/weatherData.ts:260-265 | the loop over the added series from the found index merges main item k with added item k whenever both exist and their times agree |
| WeatherData.GetItemData | app/services/weatherData.ts:326-480 | data for exactly the present, non-null keys whose visibility rule holds, tagged with the key |
| WeatherData.MissingNotShown | app/services/weatherData.ts:327-329 | a missing or null key gives null |
| WeatherData.PrecipitationShown | app/services/weatherData.ts:418-419 | precipitation is shown iff (probability -1 or above 10) and accumulation at least 1 |
| WeatherData.CloudAndUvShown | app/services/weatherData.ts:432-446 | cloud cover is shown iff above 20, UV iff at least the threshold |
| WeatherData.GustShown | app/services/weatherData.ts:457-465 | a gust is shown iff non-zero and (no wind speed, or above 30 and above twice the speed); above 80 it is red |
| WeatherData.DataService.constructor | app/services/weatherData.ts:272-316 | the shown properties are the stored list or the default one, and the UV threshold the setting or MIN_UV_INDEX |
| WeatherData.DataService.ItemDataOf | app/services/weatherData.ts:326 | getItemData with the service's UV threshold |
| WeatherData.WithoutFiltered | app/services/weatherData.ts:320-322 | the keys not in the filter, all of them when the filter is empty |
| WeatherData.IconsData | app/services/weatherData.ts:318-324 | at most one entry per key, each the item data of one of the keys |
| WeatherData.AlignedAt | app/services/weatherData.ts:250-265 | corrected, one paired item keeps its time, and it changes only when the paired added item exists and has the same time |
| WeatherData.MergeShift | app/services/weatherData.ts:244-266 | the offset found pairs at least one main item with an added item of the same time |
| WeatherData.Increasing | app/services/weatherData.ts:244-266 | times strictly increase along a series |
| WeatherData.WindowOf | app/services/weatherData.ts:246-256 | the added series covers the main one item for item from an index on |
| WeatherData.LaterWindow | app/services/weatherData.ts:246-256 | three main hours and an added series for the last two |
| WeatherData.SeriesOf | app/services/weatherData.ts:233-234 | the time series of an entry, if it is one |
| WeatherData.MergeObject | app/services/weatherData.ts:232-268 | merging one added object's keys never adds or removes a key, and an empty object cannot throw |
| WeatherData.MergeAll | app/services/weatherData.ts:229-270 | merging every added object never adds or removes a key |
| WeatherData.SameShape | app/services/weatherData.ts:229-270 | the same keys, and every series keeps its length |
| WeatherData.PropName | app/services/weatherData.ts:38-62 | the string value of each WeatherProps member |
| WeatherData.Get | app/services/weatherData.ts:327-329 | a property the item does not have reads as undefined |
| WeatherData.ToNumber | app/services/weatherData.ts:418-465 | a relational comparison reads undefined, strings, arrays and objects as NaN (not modelled) and the rest as numbers |
| WeatherData.Above | app/services/weatherData.ts:418-465 | v > c, false for NaN |
| WeatherData.AtLeast | app/services/weatherData.ts:432-446 | v >= c, false for NaN |
| WeatherData.GustColors | app/services/weatherData.ts:464-465 | a gust always has a text colour, and a badge colour exactly when it is above 50 |
| WeatherData.Visible | app/services/weatherData.ts:330-480 | the rule of each property for whether a present, non-null value is shown |
| WeatherData.IconKeys | app/services/weatherData.ts:318-323 | the keys considered are those added before, chosen or added after, minus the filtered ones |
| OpenMeteo.ConvertedCodes | app/services/providers/om.ts:171-224 | a code has an icon exactly when it is one of the listed WMO codes, the icon is in 200..804, and 0/1 give 800, 2 gives 802, 3 gives 804 |
| OpenMeteo.ConvertedCodesResolve | app/services/providers/om.ts:171-224 | every converted code except 530 resolves through the icon fallback table as written in a set with the base codes |
| OpenMeteo.NoFallbackFor530 | app/services/providers/om.ts:203-204 | code 82 gives 530, which has no fallback in the icon table |
| OpenMeteo.Code82WithoutIcon530 | app/services/providers/om.ts:203-204 | code 82 becomes 530, so in an icon set without a 530 icon getIcon's fallback loop (icon.ts:124-127) never ends |
| OpenMeteo.GetDataArray | app/services/providers/om.ts:256-262 | best_match reads the key; another model reads key_model, then key_best_match, then the key |
| OpenMeteo.DataArrayValueFallback | app/services/providers/om.ts:263-269 | the value falls back from the model's array to best_match and then to the base key, element by element |
| OpenMeteo.ValueAgreesWithArray | app/services/providers/om.ts:256-269 | a non-null value of the chosen array is the value read |
| OpenMeteo.Overlay | app/services/providers/om.ts:275-280 | the base copy with only the truthy model entries written over it, length kept |
| OpenMeteo.MixedDataShape | app/services/providers/om.ts:271-283 | the mixed array has the base length, and each entry is the base entry or a truthy model entry |
| OpenMeteo.MixedBestMatchIsBase | app/services/providers/om.ts:271-283 | with best_match the mixed array is a copy of the base |
| OpenMeteo.GetMixedDataArray | app/services/providers/om.ts:271-283 | a new array whose contents are the mixed data; the input is not modified; a missing base throws |
| OpenMeteo.Models | app/services/providers/om.ts:298-305 | best_match, or the model alone when forced, else "best_match," followed by the model |
| OpenMeteo.ModelsStartWithBestMatch | app/services/providers/om.ts:298-305 | unless a model is forced, the models string starts with best_match |
| OpenMeteo.Intensity | app/services/providers/om.ts:411-412 | an intensity is at most 3 |
| OpenMeteo.IntensityThresholds | app/services/providers/om.ts:411-412 | 3 from 1.5, 2 from 0.7, 1 above 0, else 0; monotone; a missing value (read as -1) gives 0 |
| OpenMeteo.ConvertWeatherCodeToIcon | app/services/providers/om.ts:171-224 | a WMO code has an icon exactly when it is one of the known codes, and the icon lies in 200..804 |
| OpenMeteo.At | app/services/providers/om.ts:265-268 | an entry of a missing array reads as undefined |
| OpenMeteo.GetDataArrayValue | app/services/providers/om.ts:263-269 | the first non-nullish of the model's, best_match's and the plain key's entry (DataArrayValueFallback states each case) |
| OpenMeteo.MixedData | app/services/providers/om.ts:271-283 | mixing throws exactly when neither the best_match nor the plain array exists |
| OpenMeteo.ToNumber | app/services/providers/om.ts:411-412 | a relational comparison sees a number exactly for numbers, null and booleans; every other value, a numeric string included, is read as NaN (the string conversion is left out) |
| MeteoFrance.StripLeadingNonDigits | app/services/providers/mf.ts:162 | the result is a suffix of the name, no longer than it, and starts with a digit when not empty |
| MeteoFrance.StripPrefix | app/services/providers/mf.ts:162 | a prefix of non-digit characters is dropped entirely before the icon number is read |
| MeteoFrance.ConvertMFIcon | app/services/providers/mf.ts:158-161 | a missing or empty icon name gives 801 |
| MeteoFrance.PrefixIgnored | app/services/providers/mf.ts:162-218 | the letters before the number (the "p" of "p3j") do not change the code the icon maps to |
| MeteoFrance.NoDigitsClearSky | app/services/providers/mf.ts:162-221 | a non-empty name without digits reads as no number and falls to the default 800 |
| MeteoFrance.IconOneClearSky | app/services/providers/mf.ts:219-221 | icon 1 (clear sky, "p1j") gives 800 |
| MeteoFrance.ThreeHourPreferred | app/services/providers/mf.ts:239-250 | in a 3-hour slot the 3-hour rain and snow hazards are taken, rain falling back to the 6-hour hazard, and ice is the freezing hazard |
| MeteoFrance.SixHourOnly | app/services/providers/mf.ts:251-263 | outside a 3-hour slot but inside a 6-hour slot only the 6-hour hazards are taken; outside both the probability is unchanged |
| MeteoFrance.NoMatchAllZero | app/services/providers/mf.ts:225-273 | when no forecast covers the hour the probability stays at its zero start |
| MeteoFrance.ScanStopsAtFirstFound | app/services/providers/mf.ts:264-266 | once a value is found the scan breaks, so later forecasts do not change the result |
| MeteoFrance.ScanResultOrigin | app/services/providers/mf.ts:225-273 | a found result is the step at some forecast applied to the scan of the forecasts before it |
| MeteoFrance.ScanPrefix | app/services/providers/mf.ts:236-267 | scanning a prefix equals stepping the first forecast and scanning the rest of the prefix |
| MeteoFrance.GetHourlyPrecipitationProbability | app/services/providers/mf.ts:225-273 | the loop with its break returns the first-found scan of the forecasts |
| MeteoFrance.WindBearing | app/services/providers/mf.ts:111 | fewer than two directions give -1 |
| MeteoFrance.WindBearingCorrected | app/services/providers/mf.ts:111 | corrected, fewer than two directions give -1 too |
| MeteoFrance.DailyFrom | app/services/providers/mf.ts:101-130 | precipitation accumulation is the larger of the hourly sum and the 24-hour total and is present only when positive; probability, rain-snow limit and iso are present exactly when read; too few readings give 0 wind speed and -1 cloud cover and bearing |
| MeteoFrance.WindDegreeBounds | app/services/providers/mf.ts:89-92 | with directions in [0, 360] or -1, the summed counted directions lie between 0 and 360 times their count |
| MeteoFrance.MeanInRange | app/services/providers/mf.ts:111 | the mean of directions in [0, 360] is in [0, 360] |
| MeteoFrance.WindBearingInRange | app/services/providers/mf.ts:73-111 | with directions in [0, 360] the day's bearing as written is -1 or in [0, 1296], the mean scaled by 3.6 |
| MeteoFrance.WindBearingCorrectedInRange | app/services/providers/mf.ts:73-111 | corrected, with directions in [0, 360] the day's bearing is -1 or in [0, 360] |
| MeteoFrance.AsWrittenBearingOutOfRange | app/services/providers/mf.ts:111 | two 180-degree readings give 648 when scaled by 3.6 as written, and 180 without the scaling |
| MeteoFrance.AggregateHours | app/services/providers/mf.ts:43-71 | the hour loop computes the hourly totals of the hours inside the day |
| MeteoFrance.AggregateForecasts | app/services/providers/mf.ts:73-99 | the forecast loop computes the cloud, wind and gust totals of the forecasts inside the day |
| MeteoFrance.GetDaily | app/services/providers/mf.ts:23-130 | a missing hourly list counts as empty, and the day is built from the two loops' totals with the time zone shift -timezoneOffset*60*60*1000, taken in milliseconds |
| MeteoFrance.IconOfNumber | app/services/providers/mf.ts:162-221 | a missing number, 1 and every number outside 2..34 give the clear-sky default 800, and every code is a weather code in 200..804 |
| MeteoFrance.StripOneDay | app/services/providers/mf.ts:162 | the leading letter of "p1j" is stripped, leaving "1j" |
| MeteoFrance.ParseOneDay | app/services/providers/mf.ts:162 | parseInt("1j", 10) reads 1 |
| MeteoFrance.ParseDigitThenLetter | app/services/providers/mf.ts:162 | a digit followed by a letter reads as that digit |
| MeteoFrance.InThreeHourSlot | app/services/providers/mf.ts:239 | the forecast time is dt or one or two hours after it |
| MeteoFrance.InSixHourSlot | app/services/providers/mf.ts:251 | the forecast time is three to five hours after dt |
| MeteoFrance.ProbabilityStep | app/services/providers/mf.ts:239-263 | one pass of the loop body before the break test (its properties are ThreeHourPreferred and SixHourOnly) |
| MeteoFrance.Found | app/services/providers/mf.ts:264 | the break test: the rain or snow probability is truthy |
| MeteoFrance.ScanFrom | app/services/providers/mf.ts:231-267 | the loop from a given state over the remaining forecasts, stopping after the first step that finds a value |
| MeteoFrance.HourlyPrecipitationProbability | app/services/providers/mf.ts:225-273 | the scan started from zero rain, snow and ice |
| MeteoFrance.AddIfTruthy | app/services/providers/mf.ts:55-68 | a missing or zero reading leaves the total unchanged; any other adds one to the count and the reading to the total |
| MeteoFrance.AddHour | app/services/providers/mf.ts:45-69 | an hour outside [startOfDay, endOfDay) changes nothing; the maximum probability never decreases and at most one probability is counted |
| MeteoFrance.HourAggregate | app/services/providers/mf.ts:43-71 | the maximum precipitation probability starts at 0 and so is never negative, and at most one probability is counted per hour |
| MeteoFrance.AddForecast | app/services/providers/mf.ts:80-97 | a forecast outside the day changes nothing; one inside counts one cloud cover, and at most one wind speed and one direction |
| MeteoFrance.ForecastAggregate | app/services/providers/mf.ts:78-99 | at most one cloud cover per forecast is counted, and no more wind speeds or directions than cloud covers |
| MeteoFrance.Average | app/services/providers/mf.ts:110-112 | the mean times the count gives back the total |
| MeteoFrance.DailyOf | app/services/providers/mf.ts:23-130 | without hours the day has no probability, rain-snow limit or iso; without forecasts it has wind speed 0 and bearing and cloud cover -1 |
| MeteoFrance.DirectionsInRange | app/services/providers/mf.ts:89-92 | every direction read is -1 (not counted) or in 0..360 |
| AccuWeather.IconMapping | app/services/providers/accuweather.ts:16-64 | icons 1..44 other than the undocumented 9, 10, 27, 28 map through the table and every other code gives 800; the result ignores the day flag and lies in 200..905 |
| AccuWeather.HourlyOf | app/services/providers/accuweather.ts:205-235 | the time is EpochDateTime in milliseconds, isDay is IsDaylight, the accumulation is rain plus snow, the apparent temperature is the real-feel one and usingFeelsLike is the setting |
| AccuWeather.OrZero | app/services/providers/accuweather.ts:172-173 | a missing amount reads as 0 and a present non-zero one as itself |
| AccuWeather.HourlyPrecipitation | app/services/providers/accuweather.ts:204-235 | an hour's accumulation is its rain plus snow (0 when both are missing), the probability split is present exactly when one of rain, snow or ice probability is non-zero, and the temperature is the real-feel one exactly when feels-like is on |
| AccuWeather.SliceEnd | app/services/providers/accuweather.ts:204 | slice's end is clamped to the list's length |
| AccuWeather.HourlyCount | app/services/providers/accuweather.ts:203-204 | the number of hours kept never exceeds the hours returned |
| AccuWeather.HourlyCountIsMin | app/services/providers/accuweather.ts:203-204 | for a non-negative setting the number kept is the smaller of the list length and the requested hours |
| AccuWeather.HourlyForecast | app/services/providers/accuweather.ts:202-243 | the hourly list has that many entries, each the conversion of the hour at the same index |
| AccuWeather.DailyPrecipitation | app/services/providers/accuweather.ts:155-176 | a day's accumulation is its rain plus snow, it is marked day, its icon is the day icon's mapping, and missing cloud cover reads as 0 |
| AccuWeather.EmptyKeyFallsBack | app/services/providers/accuweather.ts:248-255 | a missing or empty stored key is removed and the trimmed built-in key is used |
| AccuWeather.StoredKeyRead | app/services/providers/accuweather.ts:248-255 | a non-empty stored key is kept and returned trimmed |
| AccuWeather.SetThenRead | app/services/providers/accuweather.ts:257-264 | after setApiKey, reading the setting back gives the trimmed key when it is non-empty and the built-in key otherwise; what is stored is trimmed and non-empty |
| AccuWeather.KeyStore.constructor | app/services/providers/accuweather.ts:71 | the provider's key starts as the value read from the setting |
| AccuWeather.KeyStore.ReadApiKeySetting | app/services/providers/accuweather.ts:248-255 | the method returns the key read from the setting and removes an empty setting |
| AccuWeather.KeyStore.SetApiKey | app/services/providers/accuweather.ts:257-264 | the key becomes the trimmed argument, stored when non-empty and removed otherwise |
| AccuWeather.KeyStore.HasApiKey | app/services/providers/accuweather.ts:266-268 | true exactly when a non-empty key other than the built-in one is set |
| AccuWeather.IconTable | app/services/providers/accuweather.ts:20-62 | the table has an entry exactly for the codes 1..44 other than 9, 10, 27 and 28, and every entry is an app code in 200..905 |
| AccuWeather.MapAccuWeatherIcon | app/services/providers/accuweather.ts:16-64 | the result is an app code in 200..905, and 800 for every code the table lacks |
| AccuWeather.DailyOf | app/services/providers/accuweather.ts:155-176 | the time is the given start of the day, the record is marked day, and its accumulation is rain plus snow |
| AccuWeather.ReadStoredKey | app/services/providers/accuweather.ts:248-255 | what stays stored is the setting or nothing, and a setting that stays is never empty |
| AccuWeather.SetKey | app/services/providers/accuweather.ts:257-264 | the key is undefined exactly when the argument is, and what is stored is that key and never empty |
| AccuWeather.TruthyNumber | app/services/providers/accuweather.ts:227 | defines the truthiness the source tests a probability with: present and non-zero (used by HourlyOf and HourlyPrecipitation) |
| Formatter.ConvertValueToUnit | app/helpers/formatter.ts:30-33 | a null or undefined value gives an empty text and an empty unit |
| Formatter.DistanceKmBranches | app/helpers/formatter.ts:53-60 | a distance under 1000 is shown in metres without decimals, one over 100000 in km without decimals, and anything between in km with one decimal |
| Formatter.CelciusRoundedToTenth | app/helpers/formatter.ts:45-46 | a Celsius value is returned as a number with no unit, a multiple of 0.1 within 0.05 of the value |
| Formatter.Small | app/helpers/formatter.ts:76-80 | each level of unit scale wraps the unit in one small tag, adding 15 characters |
| Formatter.FormatJoinsAndPrefixes | app/helpers/formatter.ts:68-86 | the value and the wrapped unit are joined with '' for Celsius and ' ' otherwise unless a join is given, and the prefix is added only to a non-empty result |
| Formatter.MissingValueFormat | app/helpers/formatter.ts:68-86 | a missing Celsius value formats to '', while any other missing value still gives the prefix and the join ' ' |
| Formatter.NonSpacePrefix | app/helpers/formatter.ts:88 | the run of non-space characters is a prefix of the text that stops at the first space |
| Formatter.TitleCase | app/helpers/formatter.ts:87-91 | title-casing keeps the text's length |
| Formatter.UpperKeepsWordChar | app/helpers/formatter.ts:89 | upper-casing keeps word characters, is idempotent and does not create or remove spaces |
| Formatter.LowerKeepsSpace | app/helpers/formatter.ts:89 | lower-casing is idempotent and keeps spaces where they are |
| Formatter.TitleCaseKeepsSpace | app/helpers/formatter.ts:87-91 | title-casing keeps every space where it is, so the words are the same |
| Formatter.NonSpacePrefixSameSpaces | app/helpers/formatter.ts:88 | two texts with spaces in the same places have words of the same length |
| Formatter.NonSpacePrefixOfTitled | app/helpers/formatter.ts:88-90 | title-casing a word keeps the word's length |
| Formatter.TitleCaseIdempotent | app/helpers/formatter.ts:87-91 | title-casing twice is the same as once |
| Formatter.UvBand | app/helpers/formatter.ts:107-119 | the UV band is one of the five bands |
| Formatter.ColorForUVBands | app/helpers/formatter.ts:107-119 | the UV colour is the colour of its band, and the bands set at 3, 6, 8 and 11 are ordered: a higher index never gives a lower band |
| Formatter.BeaufortLevel | app/helpers/formatter.ts:227-253 | the Beaufort level lies in 0..12 |
| Formatter.Reached | app/helpers/formatter.ts:229-253 | the count of thresholds reached is at most the number of thresholds |
| Formatter.BeaufortLevelCountsThresholds | app/helpers/formatter.ts:227-253 | the level chosen by the if-chain equals the number of thresholds 2, 6, 12, 20, 29, 39, 50, 62, 75, 89, 103, 118 the speed reaches |
| Formatter.BeaufortMonotone | app/helpers/formatter.ts:227-253 | a higher wind speed never gives a lower Beaufort level |
| Formatter.WindBeaufortIcon | app/helpers/formatter.ts:183-197 | the icon is always one of the thirteen Beaufort icons |
| Formatter.BeaufortEnds | app/helpers/formatter.ts:227-254 | a speed under 2 gives Beaufort 0 and one of 118 or more Beaufort 12 |
| Formatter.MoonIcon | app/helpers/formatter.ts:151-181 | a phase has an icon exactly when it is in 0..28, and the icon is one of the moon icons |
| Formatter.MoonCycleNew | app/helpers/formatter.ts:151-181 | phases 0 and 28 are both the new moon |
| Formatter.MoonCycleFull | app/helpers/formatter.ts:166 | phase 14 is the full moon |
| Formatter.MoonCycleQuarters | app/helpers/formatter.ts:159-173 | phase 7 is the first quarter and 21 the third quarter |
| Formatter.UnitName | app/helpers/formatter.ts:7-21 | the text of each unit's enum value, shown as the unit by the default case |
| Formatter.PartString | app/helpers/formatter.ts:81 | joining a text part keeps the text, and a number part is written with digits, a sign and a decimal point only |
| Formatter.CelciusToFahrenheit | app/helpers/formatter.ts:26-28 | the Fahrenheit conversion, whose inverse gives the Celsius value back |
| Formatter.JoinWith | app/helpers/formatter.ts:70-74 | a non-empty join option is used as given, and the default join is a space for every unit but Celsius |
| Formatter.FormatValueToUnit | app/helpers/formatter.ts:68-86 | a non-empty result starts with the prefix when one is given, and only a Celsius value can format to the empty text |
| Formatter.ColorForUV | app/helpers/formatter.ts:107-119 | the colour is the colour of the UV band the index falls in |
| UtilsCommon.NearestFrom | app/utils/utils.common.ts:83-89 | the loop stops at an index in the list (or 0) where n no longer exceeds the next element, having passed only elements that n exceeds |
| UtilsCommon.Nearest | app/utils/utils.common.ts:83-91 | the while loop returns the stop index of the scan and the next index clamped to the list |
| UtilsCommon.NearestBounds | app/utils/utils.common.ts:83-91 | on a non-empty list low is in 0..len-1 and high is the smaller of low+1 and len-1 |
| UtilsCommon.CountBelow | app/utils/utils.common.ts:86-89 | the number of elements below n is at most the list's length |
| UtilsCommon.CountBelowSortedPrefix | app/utils/utils.common.ts:86-89 | in a sorted list whose first k elements are below n and whose k-th is not, exactly k are below n |
| UtilsCommon.NearestOnSorted | app/utils/utils.common.ts:83-91 | on a sorted list low counts the later thresholds below n, so arr[low] < n <= arr[low+1] brackets the value |
| UtilsCommon.GetIndexedColor | app/utils/utils.common.ts:92-95 | a NaN value, and only it, gives null |
| UtilsCommon.IndexedColorOfBracket | app/utils/utils.common.ts:92-103 | without mixing, a value on sorted indexes gets the colour of the bracket it falls in |
| UtilsCommon.BRABoundsBox | app/utils/utils.common.ts:36-41 | the test is an inclusive longitude/latitude box: both corners are inside, any point between two inside points is inside, and a point just past the edge is not |
| UtilsCommon.High | app/utils/utils.common.ts:90 | the upper end of the bracket is low or the next index, and inside the list whenever low is |
| UtilsCommon.Sorted | app/utils/utils.common.ts:83-91 | the thresholds are in ascending order, the case the bracket is meant for |
| UtilsCommon.IsBRABounds | app/utils/utils.common.ts:36-41 | the inclusive longitude and latitude box of BRA_BOUNDS (BRABoundsBox states its shape) |
| AirQuality.Thresholds | app/services/airQualityData.ts:18-25 | each known pollutant has six sorted thresholds starting at 0 with a positive last one |
| AirQuality.GetIndexEnds | app/services/airQualityData.ts:57-61 | the interpolation maps bpLo to inLo and bpHi to inHi and is monotone in the concentration |
| AirQuality.IndexFromLevelCases | app/services/airQualityData.ts:63-74 | missing thresholds give -1, a level inside the table interpolates between its thresholds and indexes, and the last level extrapolates linearly to 250 at the last threshold |
| AirQuality.IndexAtThreshold | app/services/airQualityData.ts:63-70 | a concentration equal to a level's threshold gets that level's default index |
| AirQuality.GetPollutantIndex | app/services/airQualityData.ts:76-85 | a null concentration gives null, and the lookup throws exactly when a value is given for a pollutant without thresholds |
| AirQuality.PollutantIndexOfValue | app/services/airQualityData.ts:76-85 | for a pollutant with thresholds a value gets the index of the level it falls in, found by the bracket search |
| AirQuality.AqiIndexes | app/services/airQualityData.ts:88 | the map over the pollutants succeeds exactly when every one is present, and each entry is that pollutant's index as Math.max reads it |
| AirQuality.MaxOf | app/services/airQualityData.ts:88 | the maximum is at least every element and equals one of them |
| AirQuality.AqiIsMaximum | app/services/airQualityData.ts:87-89 | with O3, NO2, PM10 and PM2.5 present the AQI is the largest of their indexes |
| AirQuality.AddToTotal | app/services/airQualityData.ts:131-133 | adding a record's AQI starts from sum 0 and count 0, adds the AQI to the sum and one to the count |
| AirQuality.PrepareAirQualityData | app/services/airQualityData.ts:128-134 | the record's aqi becomes the pollutants' AQI and the day's total takes it in; when the AQI computation throws nothing changes (the returned colour decoration is left out) |
| AirQuality.GetIndex | app/services/airQualityData.ts:57-61 | defines _getIndex: the linear map of the breakpoint range onto the index range, rounded (its ends and monotonicity are GetIndexEnds) |
| AirQuality.GetIndexFromLevel | app/services/airQualityData.ts:63-74 | a pollutant without thresholds gives -1, and a concentration between a level's two thresholds gets an index between that level's two default indexes |
| AirQuality.MaxOperand | app/services/airQualityData.ts:88 | defines how Math.max reads one pollutant index: null counts as 0 |
| AirQuality.GetAqiFromPollutants | app/services/airQualityData.ts:87-89 | the AQI is computed exactly when O3, NO2, PM10 and PM2.5 are all in the record; otherwise reading `.value` of a missing one throws |
| AirQuality.DayTotals.constructor | app/services/airQualityData.ts:131 | a day starts without an AQI total |
| AirQuality.AirQualityRecord.constructor | app/services/airQualityData.ts:128-129 | a record starts with its pollutants and no AQI |
| Favorites.KeysOf | app/helpers/favorites.ts:13 | the key list has one "lat;lon" key per favourite, at the same index |
| Favorites.IndexOf | app/helpers/favorites.ts:49 | indexOf gives -1 exactly when the key is absent, and otherwise the first index holding it |
| Favorites.RemoveAt | app/helpers/favorites.ts:51-52 | splice(index, 1) removes the element at the index and shifts the later ones down by one |
| Favorites.KeysOfRemoveAt | app/helpers/favorites.ts:49-53 | removing the same index from both lists keeps the keys equal to the favourites' keys |
| Favorites.KeysOfAppend | app/helpers/favorites.ts:57-58 | pushing to both lists keeps the keys equal to the favourites' keys |
| Favorites.ToggleFlips | app/helpers/favorites.ts:45-59 | toggling flips whether the location's key is present and keeps the keys distinct |
| Favorites.ToggleTwiceRestores | app/helpers/favorites.ts:45-59 | toggling a location that is not a favourite twice gives back the original list |
| Favorites.RemoveThenAppendSameElements | app/helpers/favorites.ts:49-58 | removing an element and appending it again gives the same elements |
| Favorites.ToggleTwiceKeepsKeys | app/helpers/favorites.ts:45-59 | toggling a favourite twice keeps the same set of keys, with the location moved to the end |
| Favorites.FavoritesStore.constructor | app/helpers/favorites.ts:12-13 | the lists are loaded from the setting with the keys matching the favourites |
| Favorites.FavoritesStore.Reload | app/helpers/favorites.ts:15-18 | the listener replaces the list with the stored one and recomputes its keys |
| Favorites.FavoritesStore.IsFavorite | app/helpers/favorites.ts:20-26 | true exactly when an item is given and its key is a favourite's key |
| Favorites.FavoritesStore.ToggleFavorite | app/helpers/favorites.ts:45-64 | the list becomes the toggled list and is saved, the keys stay matched, isFavorite becomes whether the location was not a favourite, and startingSide is deleted |
| Favorites.FavoriteItem.constructor | app/helpers/favorites.ts:8-11 | an item carries its location, its isFavorite flag and its optional startingSide |
| Favorites.FavoriteKey | app/helpers/favorites.ts:39-43 | the key is the latitude and the longitude joined by ';', and splitting it at ';' gives the two rendered coordinates back |
| Favorites.Distinct | app/helpers/favorites.ts:13 | no key appears twice in the key list |
| Favorites.Toggled | app/helpers/favorites.ts:45-59 | toggling removes one location when its key is a favourite's and appends one otherwise |
| Favorites.FavoritesStore.Valid | app/helpers/favorites.ts:13 | the key list is the favourites' keys, index by index |
| WidgetConfigManager.Parse | app/services/widgets/WidgetConfigManager.ts:22-47 | a missing or unparsable setting loads as an empty map |
| WidgetConfigManager.ConfigOf | app/services/widgets/WidgetConfigManager.ts:110-124 | the lookup gives the instance's config when the id is present and null otherwise |
| WidgetConfigManager.WithKind | app/services/widgets/WidgetConfigManager.ts:148-151 | the saved config is the given one with its kind replaced by the argument when that is non-empty, and otherwise unchanged |
| WidgetConfigManager.InstancesOfKind | app/services/widgets/WidgetConfigManager.ts:176-179 | exactly the ids whose config has the given kind |
| WidgetConfigManager.SaveThenDelete | app/services/widgets/WidgetConfigManager.ts:146-171 | saving then deleting an id leaves every other id's config as it was and removes that id |
| WidgetConfigManager.SavedInstanceOfKind | app/services/widgets/WidgetConfigManager.ts:146-179 | an instance saved with a non-empty kind is listed for that kind and for no other |
| WidgetConfigManager.ConfigStore.constructor | app/services/widgets/WidgetConfigManager.ts:18-20 | both maps start unloaded, over the given settings |
| WidgetConfigManager.ConfigStore.GetAllConfigs | app/services/widgets/WidgetConfigManager.ts:52-58 | the instance configs are loaded once from the setting and then kept |
| WidgetConfigManager.ConfigStore.GetAllKindConfigs | app/services/widgets/WidgetConfigManager.ts:70-75 | the kind configs are loaded once from the setting and then kept |
| WidgetConfigManager.ConfigStore.ReloadConfigs | app/services/widgets/WidgetConfigManager.ts:62-65 | both maps are re-read from their settings |
| WidgetConfigManager.ConfigStore.GetKindConfig | app/services/widgets/WidgetConfigManager.ts:80-87 | the kind's config, or undefined when there is none |
| WidgetConfigManager.ConfigStore.SaveKindConfig | app/services/widgets/WidgetConfigManager.ts:92-104 | the kind's entry is set and the whole map is written back to its setting |
| WidgetConfigManager.ConfigStore.GetConfig | app/services/widgets/WidgetConfigManager.ts:110-124 | the instance's config, or null when there is none |
| WidgetConfigManager.ConfigStore.SaveConfig | app/services/widgets/WidgetConfigManager.ts:146-161 | the instance's entry becomes the config with its kind settled, and the map is written back |
| WidgetConfigManager.ConfigStore.DeleteConfig | app/services/widgets/WidgetConfigManager.ts:166-171 | only that id is removed and the map is written back |
| WidgetConfigManager.ConfigStore.GetInstancesOfKind | app/services/widgets/WidgetConfigManager.ts:176-179 | the ids whose kind matches |
| WidgetConfigManager.ConfigStore.UpdateFrequency | app/services/widgets/WidgetConfigManager.ts:184-186 | the stored frequency, 30 minutes when none is stored |
| WidgetConfigManager.ConfigStore.SetUpdateFrequency | app/services/widgets/WidgetConfigManager.ts:191-193 | after setting, the frequency read back is the one set |
| WidgetConfigManager.ConfigStore.CacheTimeout | app/services/widgets/WidgetConfigManager.ts:217-219 | the stored timeout, 60 seconds when none is stored |
| WidgetConfigManager.ConfigStore.SetCacheTimeout | app/services/widgets/WidgetConfigManager.ts:224-226 | after setting, the timeout read back is the one set |
| WidgetConfigManager.ConfigStore.CurrentConfigs | app/services/widgets/WidgetConfigManager.ts:52-58 | the instance configs as getAllConfigs sees them: the loaded map, or the stored setting parsed |
| WidgetConfigManager.ConfigStore.CurrentKindConfigs | app/services/widgets/WidgetConfigManager.ts:70-75 | the kind configs as getAllKindConfigs sees them: the loaded map, or the stored setting parsed |
| WidgetDataManager.DefaultLocationNames | app/services/widgets/WidgetDataManager.ts:17-19 | a name is the default location exactly when it is empty, "current" or "default"; a real name such as "Paris" is not |
| WidgetDataManager.Slice | app/services/widgets/WidgetDataManager.ts:85 | slice(start, end) keeps the elements from start up to end or the list's end, in order |
| WidgetDataManager.Map | app/services/widgets/WidgetDataManager.ts:85-92 | map keeps the length and applies the conversion at each index |
| WidgetDataManager.WidgetLocationChoice | app/services/widgets/WidgetDataManager.ts:36-46 | a widget with a real location name uses its own location, and a default one uses the app's selected location whatever its coordinates |
| WidgetDataManager.HourlyData | app/services/widgets/WidgetDataManager.ts:84-93 | at most 24 hourly entries |
| WidgetDataManager.DailyData | app/services/widgets/WidgetDataManager.ts:96-105 | at most 7 daily entries |
| WidgetDataManager.ForecastDataShape | app/services/widgets/WidgetDataManager.ts:108-138 | the forecast list has at most 10 entries: the first up to 6 hours in order, then days 1 to 4 |
| WidgetDataManager.BuildForecastData | app/services/widgets/WidgetDataManager.ts:108-138 | the two push loops build exactly that forecast list |
| WidgetDataManager.FormatWeatherDataForWidget | app/services/widgets/WidgetDataManager.ts:66-141 | missing weather data gives undefined; otherwise the current values, the location name (or ''), the hourly, daily and forecast lists are the conversions above |
| WidgetDataManager.GetWidgetWeatherData | app/services/widgets/WidgetDataManager.ts:27-61 | no location gives no data, the data is present exactly when the fetch for the chosen location returns some, and it is formatted from that fetch |
| WidgetDataManager.IconPathShape | app/services/widgets/WidgetDataManager.ts:143-147 | the icon path is "<folder>/<icon set>/images/<icon>.png", read back piece by piece |
| WidgetDataManager.IsDefaultLocation | app/services/widgets/WidgetDataManager.ts:17-19 | an absent or empty name, current or default (DefaultLocationNames states it) |
| WidgetDataManager.WidgetLocation | app/services/widgets/WidgetDataManager.ts:36-46 | the location asked for is the configured one or the app's selected one |
| WidgetDataManager.ForecastData | app/services/widgets/WidgetDataManager.ts:108-138 | the mixed forecast has at most 10 entries (ForecastDataShape gives each one) |
| WidgetDataManager.GetIconPath | app/services/widgets/WidgetDataManager.ts:143-147 | the icon path starts with the themes folder and ends in .png |
| WidgetDataManager.IconPathDefaultSet | app/services/widgets/WidgetDataManager.ts:143-147 | without an icon set of its own the widget uses the service's icon set |
| WidgetDataManager.IconPathNull | app/services/widgets/WidgetDataManager.ts:143-147 | "null" is the icon when getIcon returns null |
| WidgetDataManager.PathParts | app/services/widgets/WidgetDataManager.ts:143-147 | the three pieces of the path are read back by slicing |
| WeatherWidgetManager.DefaultData | App_Resources/Android/src/main/java/com/akylas/weather/widgets/WeatherWidgetManager.kt:819-830 | a fresh record has no loading state, no error message and the current time as its last update |
| WeatherWidgetManager.LoadEntries | App_Resources/Android/src/main/java/com/akylas/weather/widgets/WeatherWidgetManager.kt:69-78 | reading the persisted entries keeps every id already in the cache |
| WeatherWidgetManager.LoadSavedEntries | App_Resources/Android/src/main/java/com/akylas/weather/widgets/WeatherWidgetManager.kt:69-78 | reading entries saved from a cache puts exactly the saved ids over the current cache, each with its saved data |
| WeatherWidgetManager.SavedCacheLoadsBack | App_Resources/Android/src/main/java/com/akylas/weather/widgets/WeatherWidgetManager.kt:57-106 | loading what saveWidgetDataCache wrote gives back the same cache |
| WeatherWidgetManager.LoadReplacesUnloadedState | App_Resources/Android/src/main/java/com/akylas/weather/widgets/WeatherWidgetManager.kt:57-86 | a first load overwrites an in-memory entry with the persisted one for the same id |
| WeatherWidgetManager.IdsOfArray | App_Resources/Android/src/main/java/com/akylas/weather/widgets/WeatherWidgetManager.kt:119-126 | a stored id array parses exactly when every element is an integer, to the set of its elements |
| WeatherWidgetManager.ActiveIdsOf | App_Resources/Android/src/main/java/com/akylas/weather/widgets/WeatherWidgetManager.kt:111-131 | a missing, empty or unparsable id list reads as the empty set |
| WeatherWidgetManager.IdArrayOf | App_Resources/Android/src/main/java/com/akylas/weather/widgets/WeatherWidgetManager.kt:136-141 | saving writes one integer element per id, in order |
| WeatherWidgetManager.SavedIdsReadBack | App_Resources/Android/src/main/java/com/akylas/weather/widgets/WeatherWidgetManager.kt:111-141 | the saved id array reads back as the same set |
| WeatherWidgetManager.ConfigOfFields | App_Resources/Android/src/main/java/com/akylas/weather/widgets/WeatherWidgetManager.kt:676-681 | missing fields default to "current", 0.0, 0.0 and "default", and a config reads back unchanged exactly when all four fields are present |
| WeatherWidgetManager.FieldsOf | App_Resources/Android/src/main/java/com/akylas/weather/widgets/WeatherWidgetManager.kt:700-705 | the four fields written for a config read back as that config |
| WeatherWidgetManager.ConfigsFrom | App_Resources/Android/src/main/java/com/akylas/weather/widgets/WeatherWidgetManager.kt:668-688 | the stored object parses exactly when every entry has an integer id and an object value |
| WeatherWidgetManager.AllConfigsOf | App_Resources/Android/src/main/java/com/akylas/weather/widgets/WeatherWidgetManager.kt:661-666 | no stored configs, or an unparsable value, gives the empty map |
| WeatherWidgetManager.ConfigEntriesOf | App_Resources/Android/src/main/java/com/akylas/weather/widgets/WeatherWidgetManager.kt:699-707 | one entry per id, holding that id's four fields |
| WeatherWidgetManager.ConfigsFromSaved | App_Resources/Android/src/main/java/com/akylas/weather/widgets/WeatherWidgetManager.kt:661-707 | parsing saved entries puts exactly the saved ids over the accumulated map, with their configs |
| WeatherWidgetManager.SavedConfigsReadBack | App_Resources/Android/src/main/java/com/akylas/weather/widgets/WeatherWidgetManager.kt:661-711 | getAllWidgetConfigs after saveAllWidgetConfigs gives back the same map |
| WeatherWidgetManager.WidgetManager.constructor | App_Resources/Android/src/main/java/com/akylas/weather/widgets/WeatherWidgetManager.kt:51-52 | the in-memory cache starts empty and not loaded |
| WeatherWidgetManager.WidgetManager.LoadWidgetDataCache | App_Resources/Android/src/main/java/com/akylas/weather/widgets/WeatherWidgetManager.kt:57-86 | the persisted cache is read at most once, on the first call, and afterwards the cache is left as it is |
| WeatherWidgetManager.WidgetManager.SaveWidgetDataCache | App_Resources/Android/src/main/java/com/akylas/weather/widgets/WeatherWidgetManager.kt:91-106 | every cached id is written with its data, so the stored cache loads back to the in-memory one |
| WeatherWidgetManager.WidgetManager.GetActiveWidgetIdsFromPrefs | App_Resources/Android/src/main/java/com/akylas/weather/widgets/WeatherWidgetManager.kt:111-131 | the ids read from the stored list |
| WeatherWidgetManager.WidgetManager.SaveActiveWidgetIdsToPrefs | App_Resources/Android/src/main/java/com/akylas/weather/widgets/WeatherWidgetManager.kt:136-141 | after saving, the active ids read back as the given set |
| WeatherWidgetManager.WidgetManager.AddActiveWidget | App_Resources/Android/src/main/java/com/akylas/weather/widgets/WeatherWidgetManager.kt:147-156 | the id joins the active set, and the setting is written only when it was not already there |
| WeatherWidgetManager.WidgetManager.RemoveActiveWidget | App_Resources/Android/src/main/java/com/akylas/weather/widgets/WeatherWidgetManager.kt:162-171 | the id leaves the active set, and the setting is written only when it was there |
| WeatherWidgetManager.WidgetManager.IsWidgetAddedToLauncher | App_Resources/Android/src/main/java/com/akylas/weather/widgets/WeatherWidgetManager.kt:177-182 | true exactly when the id is in the stored active set |
| WeatherWidgetManager.WidgetManager.GetAllActiveWidgetIds | App_Resources/Android/src/main/java/com/akylas/weather/widgets/WeatherWidgetManager.kt:188-192 | a list without duplicates holding exactly the active ids |
| WeatherWidgetManager.WidgetManager.UpdateFrequency | App_Resources/Android/src/main/java/com/akylas/weather/widgets/WeatherWidgetManager.kt:350-355 | the stored frequency, 30 minutes when none is stored |
| WeatherWidgetManager.WidgetManager.SetUpdateFrequency | App_Resources/Android/src/main/java/com/akylas/weather/widgets/WeatherWidgetManager.kt:361-368 | the frequency read back is the one set |
| WeatherWidgetManager.WidgetManager.SetWidgetLoading | App_Resources/Android/src/main/java/com/akylas/weather/widgets/WeatherWidgetManager.kt:425-437 | the widget's entry becomes a fresh record in the LOADING state; the other entries are unchanged |
| WeatherWidgetManager.WidgetManager.SetWidgetError | App_Resources/Android/src/main/java/com/akylas/weather/widgets/WeatherWidgetManager.kt:443-456 | the widget's entry becomes a fresh record in the ERROR state with the message; the other entries are unchanged |
| WeatherWidgetManager.WidgetManager.HandleParsedWidgetData | App_Resources/Android/src/main/java/com/akylas/weather/widgets/WeatherWidgetManager.kt:585-594 | after loading the cache the widget's entry becomes the data and the cache is persisted |
| WeatherWidgetManager.WidgetManager.UpdateWidgetData | App_Resources/Android/src/main/java/com/akylas/weather/widgets/WeatherWidgetManager.kt:522-535 | null data removes the widget's entry without loading or persisting; other data is handled as parsed data |
| WeatherWidgetManager.WidgetManager.UpdateWidgetDataJson | App_Resources/Android/src/main/java/com/akylas/weather/widgets/WeatherWidgetManager.kt:542-570 | null or blank JSON gives the error "No data received", unparsable JSON "Invalid data format", and parsed data is stored in the LOADED state |
| WeatherWidgetManager.WidgetManager.GetWidgetData | App_Resources/Android/src/main/java/com/akylas/weather/widgets/WeatherWidgetManager.kt:575-580 | after loading the cache, the widget's data when it has an entry and null otherwise |
| WeatherWidgetManager.WidgetManager.ClearWidgetData | App_Resources/Android/src/main/java/com/akylas/weather/widgets/WeatherWidgetManager.kt:600-609 | after loading the cache the widget's entry is removed and the cache persisted |
| WeatherWidgetManager.WidgetManager.GetAllWidgetConfigs | App_Resources/Android/src/main/java/com/akylas/weather/widgets/WeatherWidgetManager.kt:661-689 | the configs parsed from the stored setting |
| WeatherWidgetManager.WidgetManager.SaveAllWidgetConfigs | App_Resources/Android/src/main/java/com/akylas/weather/widgets/WeatherWidgetManager.kt:694-711 | the configs read back are the ones saved |
| WeatherWidgetManager.WidgetManager.LoadWidgetConfig | App_Resources/Android/src/main/java/com/akylas/weather/widgets/WeatherWidgetManager.kt:716-720 | the widget's stored config, or null when it has none |
| WeatherWidgetManager.WidgetManager.DeleteWidgetConfig | App_Resources/Android/src/main/java/com/akylas/weather/widgets/WeatherWidgetManager.kt:725-736 | the id is removed from the stored configs and from the loaded cache, and nothing else changes in either |
| WeatherWidgetManager.WidgetManager.OnWidgetRemoved | App_Resources/Android/src/main/java/com/akylas/weather/widgets/WeatherWidgetManager.kt:389-404 | the id leaves the active set, the configs and the cache |
| WeatherWidgetManager.IsBlank | App_Resources/Android/src/main/java/com/akylas/weather/widgets/WeatherWidgetManager.kt:543-549 | String.isBlank: the text is empty or only white space |
| WeatherWidgetManager.EntryIds | App_Resources/Android/src/main/java/com/akylas/weather/widgets/WeatherWidgetManager.kt:69-78 | the ids of the persisted cache entries |
| WeatherWidgetManager.SavedFrom | App_Resources/Android/src/main/java/com/akylas/weather/widgets/WeatherWidgetManager.kt:91-106 | every saved entry is a cached id with its cached data |
| WeatherWidgetManager.WidgetManager.LoadedCache | App_Resources/Android/src/main/java/com/akylas/weather/widgets/WeatherWidgetManager.kt:57-86 | loading keeps every widget already in memory, and a loaded cache is not read again |
| WeatherWidgetManager.WidgetManager.ActiveIds | App_Resources/Android/src/main/java/com/akylas/weather/widgets/WeatherWidgetManager.kt:111-131 | the active ids as the preferences hold them |
| GlanceReceiver.Restored | App_Resources/Android/src/main/java/com/akylas/weather/widgets/WeatherWidgetGlanceReceiver.kt:87-97 | after step k the id new[k-1] is active |
| GlanceReceiver.RestoredMembers | App_Resources/Android/src/main/java/com/akylas/weather/widgets/WeatherWidgetGlanceReceiver.kt:83-98 | when no old id equals a new one, the active ids after the loop are the first min(len) new ids plus the earlier ids other than the first min(len) old ones |
| GlanceReceiver.OnRestored | App_Resources/Android/src/main/java/com/akylas/weather/widgets/WeatherWidgetGlanceReceiver.kt:83-98 | the loop swaps old[i] for new[i] in the active set for every index both arrays have |
| GlanceReceiver.OnDeleted | App_Resources/Android/src/main/java/com/akylas/weather/widgets/WeatherWidgetGlanceReceiver.kt:74-81 | every deleted id leaves the active set, the configs and (when any id is given) the cache |
| GlanceReceiver.NextClockTickProperties | App_Resources/Android/src/main/java/com/akylas/weather/widgets/WeatherWidgetGlanceReceiver.kt:190-191 | the next tick is strictly after now and, from a non-negative clock, it is the next minute boundary plus 200 ms |
| GlanceReceiver.TruncDiv | App_Resources/Android/src/main/java/com/akylas/weather/widgets/WeatherWidgetGlanceReceiver.kt:190 | Kotlin Long division truncates toward zero: Euclidean division for a non-negative dividend, the negated quotient of the negated dividend otherwise |
| GlanceReceiver.NextClockTick | App_Resources/Android/src/main/java/com/akylas/weather/widgets/WeatherWidgetGlanceReceiver.kt:190-191 | the next clock tick is strictly after now and lies 200 ms past a minute boundary |
| TimelineProvider.GetUpdateFrequency | App_Resources/iOS/WidgetExtension/WeatherTimelineProvider.swift:116-122 | a positive stored frequency is used, and a missing or non-positive one gives 30 |
| TimelineProvider.EntriesEvery | App_Resources/iOS/WidgetExtension/WeatherTimelineProvider.swift:92-100 | n entries with the same data and kind, the i-th at now plus i times the spacing in minutes |
| TimelineProvider.EntriesEveryNext | App_Resources/iOS/WidgetExtension/WeatherTimelineProvider.swift:92-100 | one more loop step appends the next spaced entry |
| TimelineProvider.EntryCount | App_Resources/iOS/WidgetExtension/WeatherTimelineProvider.swift:90 | the count is at most 12 and times the frequency at most 360 minutes, and it is at least 1 exactly when the frequency is at most 360 |
| TimelineProvider.EntryCountCorrected | App_Resources/iOS/WidgetExtension/WeatherTimelineProvider.swift:90 | the corrected count is between 1 and 12 and agrees with the count as written for frequencies up to 360 |
| TimelineProvider.GetTimeline | App_Resources/iOS/WidgetExtension/WeatherTimelineProvider.swift:48-107 | the loops build the timeline chosen by the widget kind |
| TimelineProvider.ClockTimeline | App_Resources/iOS/WidgetExtension/WeatherTimelineProvider.swift:58-69 | clock widgets get 60 entries one minute apart from now, and a reload an hour later, after the last entry |
| TimelineProvider.DateTimeline | App_Resources/iOS/WidgetExtension/WeatherTimelineProvider.swift:71-85 | date widgets get one entry now and a reload at the next midnight |
| TimelineProvider.WeatherTimelineShape | App_Resources/iOS/WidgetExtension/WeatherTimelineProvider.swift:87-104 | weather widgets get at most 12 entries spaced by the frequency from now, covering less than 6 hours, with a reload within 2 hours; there is an entry exactly when the frequency is at most 360, and the reload is then after now and otherwise now |
| TimelineProvider.AsWrittenEmptyTimeline | App_Resources/iOS/WidgetExtension/WeatherTimelineProvider.swift:90-103 | with a frequency of 720 the count as written is 0, giving no entries and a reload at once |
| TimelineProvider.CorrectedTimelineNotEmpty | App_Resources/iOS/WidgetExtension/WeatherTimelineProvider.swift:87-104 | with the corrected count every positive frequency gives at least one entry, at now, and a reload after now |
| TimelineProvider.WeatherTimeline | App_Resources/iOS/WidgetExtension/WeatherTimelineProvider.swift:87-104 | a weather widget's timeline has exactly the requested number of entries, the first at now, and a reload at most two hours later |
| TimelineProvider.TimelineFor | App_Resources/iOS/WidgetExtension/WeatherTimelineProvider.swift:48-107 | every timeline has at most 60 entries; clock and date widgets always get an entry at now; other widgets get at most 12 entries and a reload within two hours |
| TimelineProvider.MulMonotone | App_Resources/iOS/WidgetExtension/WeatherTimelineProvider.swift:102 | multiplying by a non-negative count keeps the order, used to bound the reload time |
| TimelineProvider.NextMultiple | App_Resources/iOS/WidgetExtension/WeatherTimelineProvider.swift:94-99 | consecutive entry offsets differ by one frequency step |
| WidgetSettings.Encode | App_Resources/iOS/extensions/widgets/WidgetSettings.swift:346-353 | a config is always written with its location name and coordinates |
| WidgetSettings.EncodeDecode | App_Resources/iOS/extensions/widgets/WidgetSettings.swift:317-353 | decoding an encoded config gives it back, and an empty object decodes to "current" at 0.0, 0.0 with no optional fields |
| WidgetSettings.DecodeAll | App_Resources/iOS/extensions/widgets/WidgetSettings.swift:42-51 | missing or undecodable data gives an empty map; otherwise every stored id decodes its own entry |
| WidgetSettings.SavedConfigsReadBack | App_Resources/iOS/extensions/widgets/WidgetSettings.swift:42-58 | a saved config map reads back unchanged |
| WidgetSettings.InstancesOfKind | App_Resources/iOS/extensions/widgets/WidgetSettings.swift:173-178 | exactly the ids whose config has the given kind |
| WidgetSettings.WidgetSettingsStore.constructor | App_Resources/iOS/extensions/widgets/WidgetSettings.swift:28-37 | the store starts over empty settings, where the integer frequency reads as 0 |
| WidgetSettings.WidgetSettingsStore.SaveAllKindConfigs | App_Resources/iOS/extensions/widgets/WidgetSettings.swift:53-59 | the kind configs read back are the ones saved |
| WidgetSettings.WidgetSettingsStore.SaveAllWidgetConfigs | App_Resources/iOS/extensions/widgets/WidgetSettings.swift:101-107 | the instance configs read back are the ones saved |
| WidgetSettings.WidgetSettingsStore.GetKindConfig | App_Resources/iOS/extensions/widgets/WidgetSettings.swift:64-77 | a stored kind config is returned without writing; a missing one is created from the kind's defaults, stored and returned |
| WidgetSettings.WidgetSettingsStore.SaveKindConfig | App_Resources/iOS/extensions/widgets/WidgetSettings.swift:80-86 | only the kind's entry changes |
| WidgetSettings.WidgetSettingsStore.SaveWidgetConfig | App_Resources/iOS/extensions/widgets/WidgetSettings.swift:148-153 | only the instance's entry changes |
| WidgetSettings.WidgetSettingsStore.CreateInstanceConfig | App_Resources/iOS/extensions/widgets/WidgetSettings.swift:111-126 | the instance config is the kind's config (created if missing) with its kind set, and it is saved for the id |
| WidgetSettings.WidgetSettingsStore.WidgetKindForId | App_Resources/iOS/extensions/widgets/WidgetSettings.swift:288-292 | a kind is found only for an id that has a stored config |
| WidgetSettings.WidgetSettingsStore.LoadWidgetConfig | App_Resources/iOS/extensions/widgets/WidgetSettings.swift:129-145 | the stored config when there is one, and otherwise the default "current" config, with nothing written |
| WidgetSettings.WidgetSettingsStore.SaveWidgetDataCache | App_Resources/iOS/extensions/widgets/WidgetSettings.swift:193-200 | the data cache read back is the one saved |
| WidgetSettings.WidgetSettingsStore.DeleteWidgetConfig | App_Resources/iOS/extensions/widgets/WidgetSettings.swift:156-170 | the id is removed from the configs and from the data cache, and nothing else |
| WidgetSettings.WidgetSettingsStore.GetInstancesOfKind | App_Resources/iOS/extensions/widgets/WidgetSettings.swift:173-178 | exactly the stored ids whose kind matches |
| WidgetSettings.WidgetSettingsStore.GetWidgetData | App_Resources/iOS/extensions/widgets/WidgetSettings.swift:203-206 | the id's cached data, or nil when it has none |
| WidgetSettings.WidgetSettingsStore.UpdateWidgetData | App_Resources/iOS/extensions/widgets/WidgetSettings.swift:209-214 | only the id's cache entry changes, to the data |
| WidgetSettings.WidgetSettingsStore.ClearWidgetData | App_Resources/iOS/extensions/widgets/WidgetSettings.swift:217-222 | only the id's cache entry is removed |
| WidgetSettings.WidgetSettingsStore.ActiveWidgetIds | App_Resources/iOS/extensions/widgets/WidgetSettings.swift:227-232 | no stored array gives the empty set, and otherwise the set of its elements |
| WidgetSettings.WidgetSettingsStore.SaveActiveWidgetIds | App_Resources/iOS/extensions/widgets/WidgetSettings.swift:235-238 | the set is stored as an array without duplicates and reads back unchanged |
| WidgetSettings.WidgetSettingsStore.AddActiveWidget | App_Resources/iOS/extensions/widgets/WidgetSettings.swift:241-247 | the id joins the active set, written only when it was inserted |
| WidgetSettings.WidgetSettingsStore.RemoveActiveWidget | App_Resources/iOS/extensions/widgets/WidgetSettings.swift:250-256 | the id leaves the active set, written only when it was removed |
| WidgetSettings.WidgetSettingsStore.UpdateFrequency | App_Resources/iOS/extensions/widgets/WidgetSettings.swift:261-264 | the stored frequency when positive, and 30 otherwise |
| WidgetSettings.WidgetSettingsStore.SetUpdateFrequency | App_Resources/iOS/extensions/widgets/WidgetSettings.swift:267-270 | the frequency read back is the one set when positive, and 30 otherwise |
| WidgetSettings.Decode | App_Resources/iOS/extensions/widgets/WidgetSettings.swift:328-336 | decoding gives "current" for a missing name and 0.0 for missing coordinates (EncodeDecode gives the round trip) |
| WidgetSettings.EncodeAll | App_Resources/iOS/extensions/widgets/WidgetSettings.swift:53-59 | encoding a config map keeps its keys and decodes back to the same map |
| WidgetSettings.WidgetSettingsStore.AllKindConfigs | App_Resources/iOS/extensions/widgets/WidgetSettings.swift:42-51 | the kind configs as the stored dictionary decodes, or an empty map |
| WidgetSettings.WidgetSettingsStore.AllWidgetConfigs | App_Resources/iOS/extensions/widgets/WidgetSettings.swift:90-99 | the instance configs as the stored dictionary decodes, or an empty map |
| WidgetSettings.WidgetSettingsStore.DataCache | App_Resources/iOS/extensions/widgets/WidgetSettings.swift:183-191 | the data cache as stored, or an empty map |
| OfflineCache.NetworkAvailability | App_Resources/Android/src/main/java/com/akylas/weather/Utils.java:53-59 | the network is available exactly when there is an active network and it is connected or connecting |
| OfflineCache.RemoveAll | App_Resources/Android/src/main/java/com/akylas/weather/Utils.java:71 | removing a header name keeps exactly the headers with other names, in order |
| OfflineCache.ValuesAppend | App_Resources/Android/src/main/java/com/akylas/weather/Utils.java:71 | the values of a name in two header lists joined are the values in the first followed by those in the second |
| OfflineCache.RemoveAllValues | App_Resources/Android/src/main/java/com/akylas/weather/Utils.java:71 | after removal the name has no values, and every other name keeps its values |
| OfflineCache.SetHeaderValues | App_Resources/Android/src/main/java/com/akylas/weather/Utils.java:71 | header(name, value) leaves exactly one value for the name and every other name's values unchanged |
| OfflineCache.RemoveAllIdempotent | App_Resources/Android/src/main/java/com/akylas/weather/Utils.java:71 | removing a name twice is the same as once |
| OfflineCache.RemoveAllAppend | App_Resources/Android/src/main/java/com/akylas/weather/Utils.java:71 | removal distributes over joined header lists |
| OfflineCache.SetHeaderIdempotent | App_Resources/Android/src/main/java/com/akylas/weather/Utils.java:71 | setting the same header twice is the same as once |
| OfflineCache.OfflineResponse | App_Resources/Android/src/main/java/com/akylas/weather/Utils.java:69-72 | the offline response keeps the code and body, has exactly one Cache-Control value "public, only-if-cached" whatever was there before, and keeps every other header |
| OfflineCache.OfflineResponseIdempotent | App_Resources/Android/src/main/java/com/akylas/weather/Utils.java:69-72 | rewriting an already rewritten response changes nothing |
| OfflineCache.Intercept | App_Resources/Android/src/main/java/com/akylas/weather/Utils.java:60-76 | a failure of proceed propagates unchanged, an online response is returned as it is, and an offline one is rewritten to only-if-cached with its other headers and body kept |
| OfflineCache.InterceptIdempotent | App_Resources/Android/src/main/java/com/akylas/weather/Utils.java:60-76 | intercepting an intercepted response again changes nothing |
| OfflineCache.IsNetworkAvailable | App_Resources/Android/src/main/java/com/akylas/weather/Utils.java:53-59 | an active network that is connected or connecting (NetworkAvailability states it) |
| OfflineCache.SameName | App_Resources/Android/src/main/java/com/akylas/weather/Utils.java:71 | header names match without regard to ASCII case |
| OfflineCache.SetHeader | App_Resources/Android/src/main/java/com/akylas/weather/Utils.java:71 | header(name, value) ends the headers with that one header, and keeps before it exactly the headers of other names |
| OfflineCache.Values | App_Resources/Android/src/main/java/com/akylas/weather/Utils.java:71 | the values of one header name, never more than there are headers |
| Locale.Rename | app/helpers/locale.ts:51-64 | cs becomes cz, jp becomes ja, lv becomes la, and every other code is kept |
| Locale.ActualLanguageOfTag | app/helpers/locale.ts:46-65 | the part before the first "-" is lower-cased and renamed, and "auto" resolves through the device language |
| Locale.ActualLanguageExamples | app/helpers/locale.ts:46-65 | "cs-CZ" gives "cz", and "auto" on a "pt-BR" device gives "pt" |
| Locale.ChosenLanguage | app/helpers/locale.ts:37-43 | the chosen language is the resolved one when it is supported and "en" otherwise |
| Locale.LanguageStore.constructor | app/helpers/locale.ts:45-89 | at start-up the language is set from the stored setting and announced when non-empty |
| Locale.LanguageStore.SetLang | app/helpers/locale.ts:17-43 | the language becomes the chosen one, and a change to a non-empty language is announced once |
| Locale.LanguageStore.OnLanguageSetting | app/helpers/locale.ts:79-87 | a setting equal to the current language changes nothing; another one goes through setLang: the chosen language is set and announced exactly when it changed to a non-empty language |
| Locale.Capitalize | app/helpers/locale.ts:74 | capitalising keeps the length, upper-cases the first character and keeps the rest |
| Locale.ConvertTime | app/helpers/locale.ts:69-77 | a falsy date gives ''; otherwise the formatted text with its first character upper-cased |
| Locale.GetActualLanguage | app/helpers/locale.ts:46-65 | the resolved language is always lower case (ActualLanguageOfTag gives its value) |
| Locale.LanguageStore.Valid | app/helpers/locale.ts:37-43 | a set language is a supported one or en |
| Locale.Truthy | app/helpers/locale.ts:68 | the falsy dates are the timestamp 0 and the empty text |
| Base.Min | app/services/providers/accuweather.ts:203 | Math.min of two integers: at most each of them and equal to one of them |
| Base.Max | App_Resources/iOS/WidgetExtension/WeatherTimelineProvider.swift:90 | the larger of two integers, at least each of them and equal to one of them (the corrected entry count takes max(1, …) of this line's count) |
| Base.FindKey | widget-layouts/renderers/html-renderer.ts:101 | a lookup in a constant table such as THEME_COLORS: absent exactly when no entry has the key, and otherwise the value of an entry with that key |
| Base.FindKeyAppend | widget-layouts/renderers/html-renderer.ts:101 | a lookup in two tables placed one after the other looks in the second only when the first lacks the key |
| Base.FindKeyPrefix | widget-layouts/renderers/html-renderer.ts:101 | a key found in the first entries is found with the same value in the whole table |
| Base.NoDuplicates | App_Resources/Android/src/main/java/com/akylas/weather/widgets/WeatherWidgetManager.kt:191 | defines a list without repeated elements, as toList() of a set gives |
| Base.ListOf | App_Resources/Android/src/main/java/com/akylas/weather/widgets/WeatherWidgetManager.kt:191 | a set's toList(): every element exactly once, nothing else |
| JsValues.Truthy | widget-layouts/mapbox-expressions.ts:107 | JavaScript truthiness: undefined, null, false, 0 and the empty string are falsy, everything else is truthy |
| JsValues.Lookup | widget-layouts/mapbox-expressions.ts:60 | a property read finds a value exactly when some property has that key, and the value is one of the object's values |
| JsValues.ArrayIndex | widget-layouts/mapbox-expressions.ts:60 | only a non-empty all-digit key is an array index |
| JsValues.Member | widget-layouts/mapbox-expressions.ts:60 | reading a key of an object gives the property's value, or undefined when the key is absent |
| JsValues.Coalesce | widget-layouts/renderers/html-renderer.ts:116 | a ?? b: a unless a is undefined or null, then b |
| JsValues.JsonChar | widget-layouts/generators/nativescript-svelte-generator.ts:105 | JSON escaping keeps a character only when it is not a quote, a backslash or a control character; otherwise it writes a backslash escape |
| JsValues.HexDigit | widget-layouts/generators/nativescript-svelte-generator.ts:105 | a \u escape uses the lower-case hexadecimal digits |
| JsValues.JsonEscape | widget-layouts/generators/nativescript-svelte-generator.ts:105 | the escaped text is never shorter than the text, and empty only for the empty text |
| JsValues.JsonQuote | widget-layouts/generators/nativescript-svelte-generator.ts:105 | JSON.stringify of a string starts and ends with a double quote |
| JsValues.Stringify | widget-layouts/generators/nativescript-svelte-generator.ts:240-242 | JSON.stringify of a value, with undefined printed as "undefined" when interpolated |
| JsValues.StringifyItems | widget-layouts/generators/nativescript-svelte-generator.ts:240-242 | array elements joined by ",", undefined written as null |
| JsValues.StringifyProps | widget-layouts/generators/nativescript-svelte-generator.ts:240-242 | object properties as "key":value joined by ",", undefined values skipped |
| JsValues.ToString | widget-layouts/mapbox-expressions.ts:121 | String(v) for each kind of value |
| JsValues.JoinItems | widget-layouts/mapbox-expressions.ts:121 | String of an array: its elements joined by ",", undefined and null written as nothing |
| JsValues.Put | app/services/api.ts:72-74 | assigning an existing key keeps the length; a new key is appended last |
| JsValues.Delete | app/services/api.ts:69 | deleting never lengthens the list, and deleting an absent key changes nothing |
| JsValues.PutReadsBack | app/services/api.ts:72-74 | after obj[key] = v the key reads v and every other key reads as before |
| JsValues.DeleteReadsBack | app/services/api.ts:69 | after delete obj[key] the key is absent and every other key reads as before |

## Left out

Not part of this model, being UI, platform plumbing or build tooling:
- the widget views and composables;
- the activities, receivers' lifecycle, workers and native bridges;
- the Leaflet bundle and the map header;
- the image-generator and build scripts;
- the NativeScript renderer, which evaluates code at run time;
- the floating-point helpers (geo, temperature gradients, the moon phase);
- the older provider files and the duplicate generator variants;
- theme providers, logging and type declarations.

The expression language and the generators:
- MapboxExpressions.Evaluate: JavaScript's behaviour on operand types the model does not compute is the parameter `rt`. That covers arithmetic on non-numbers, NaN and Infinity, numbers parsed out of strings, and date formatting.
- MapboxExpressions.Evaluate: "==" and "!=" use `===`, under which two arrays or objects are equal only when they are the same reference. A value of the model has no identity, so that comparison is answered by `rt`; values of other kinds compare by value.
- NaN and the infinities are not values of the model: numbers are exact rationals. Comparisons involving NaN are therefore covered only where the source tests for NaN explicitly.
- Number formatting (Strings.NumberToString, Strings.ToFixed) is exact for integers. Other values get their decimal expansion, cut at 20 fraction digits. Exponent notation and the shortest round-trip digits of JavaScript are not modelled.
- Case mapping (Strings.Lower, Strings.Upper) covers ASCII letters only.
- SanitizeIdentifier (SharedUtils.SanitizeIdentifier), MapboxExpressions.Substring, MapboxExpressions.StrLess, Icon.DropLast, SharedUtils.GetSettingKey and SwiftGenerator.ShouldLocalizeText: a string is a sequence of Unicode characters, whereas JavaScript counts UTF-16 code units. A character outside the Basic Multilingual Plane is one element here and two code units there. So the sanitiser writes one '_' for it where the source writes two ("a😀" gives "a_", not "a__"), and substring and slice bounds count it once. String "<" compares code points where JavaScript compares code units, so "\uFF01" < "😀" holds here and not in JavaScript. The length test of shouldLocalizeText (`text.length <= 1`, swift-generator.ts:367) counts "😀" as 1 here and 2 in JavaScript, so that text is localised by the source and not by the model.
- SwiftGenerator.ShouldLocalizeText: the length test counts Unicode characters, not UTF-16 code units (see the line above): a lone astral character such as "😀" is localised by the source and not by the model.
- MapboxExpressions.StrLess: compares code points, not UTF-16 code units (see the line above).
- JavaScript objects are property lists in insertion order. Keys inherited from Object.prototype are not modelled, and neither is the ordering of integer-like keys first.
- The generate* functions that emit whole files (Kotlin, Swift, Svelte, HTML documents) are not modelled. They only concatenate the modelled pieces.
- buildSwiftModifiers, buildHtmlStyles, buildNativeScriptAttributes, formatFontSize and attributesToString are not modelled. They follow the pattern of the modelled buildGlanceModifier and stylesToCss.
- HtmlRenderer.RenderForEach: the rendering of one element is a parameter. A truthy `limit` that is not a number is treated as absent, whereas `slice` would convert it to a number.
- sanitize and hasBinding in the Svelte generator, and escapeSwiftString and getSingleBindingPath in the Swift generator, are the shared helpers word for word. The model uses the shared definitions.
- getOwmLanguage and the alignment helpers of shared-utils are not modelled. They are plain tables, not named as core.

The services:
- Api: the HTTP exchange, handleRequestResponse and the Sentry reporting are I/O.
- Api.MatchParam treats regular-expression metacharacters in a looked-up name literally.
- Api.QueryString: `queryParams` is typed as an object. `obj[key] === true` in the lookup mode never holds for the strings the builder produces.
- Gadgetbridge: sending the intent is a native call. Gadgetbridge.GadgetbridgeService.BroadcastWeather returns the payload it would send, or nothing.
- GadgetbridgeAndroid: the GZIP compression is a foreign library. The JSON fields are assumed to have their declared types, so the exceptions a wrongly typed field would raise are not modelled. The worker thread and its try/catch logging are not modelled. Float precision in `toFloat` is not modelled. 273.15 is exact rather than a double.
- Icon.IconService.GetIcon: the calls on which the fallback loop of icon.ts:124-127 never ends are excluded by its requires rather than modelled as non-termination. These are 313 in a set without a 313 icon (see Findings) and every code that has no entry in WEATHER_CODE_MAPPING and no icon in the set, for which the mapping reads undefined and the loop spins. One such call is Open-Meteo's code 82 (icon 530) in a set without 530 (Icon.AsWrittenLoopsWithoutFallback, OpenMeteo.Code82WithoutIcon530).
- Icon.IconService: the reaction of `load` to the icon-set preference is an event subscription and is not modelled. getIconConfig reads a file; its result is a parameter.
- OpenMeteo: the fetch itself is I/O.
- OpenMeteo.ToNumber: a string is read as NaN. JavaScript's `>=` at app/services/providers/om.ts:411-412 first converts a numeric string to a number, so a value "2" gives intensity 3 in the source and 0 in OpenMeteo.Intensity. Number parsing of strings is not modelled.
- MeteoFrance.GetDaily: the colours of a day are not computed. The time zone offset is taken in whole milliseconds (timezoneOffset × 3 600 000), which is exact for every zone in whole, half or quarter hours (+5.5 for India, +5.75 for Nepal); an offset whose millisecond length is fractional is not modelled.
- UtilsCommon.GetIndexedColor: the `mix` branch (app/utils/utils.common.ts:98-99), which blends the two bracketing colours with Color.mix, is not modelled. It is colour arithmetic in a foreign library, and no caller in the core passes `mix`.
- AirQuality.PrepareAirQualityData: the returned colour decoration aqiDataIconColors(d) (app/services/airQualityData.ts:135) is not modelled; aqiDataIconColors is not part of this model, so the method returns only success or the error.
- AirQuality: the `low >= 0` branch of getIndexFromLevel (app/services/airQualityData.ts:80) is unreachable. The model keeps only the reachable branch.
- WeatherData.GetItemData: a string value compared with a number is treated as NaN. JavaScript would parse it first.
- Formatter.ConvertValueToUnit: the date formatter is the parameter `formatDate`. The conversions that go through `toFixed` rely on Strings.ToFixed, which has no exponent notation.

The widgets and stores:
- WidgetConfigManager: the native scheduling calls that setUpdateFrequency and setCacheTimeout make are not modelled. getDefaultSettings and createDefaultConfig are parameters.
- WidgetDataManager: formatDate, formatTime and formatWeatherValue are parameters. The weather fetch is the parameter `fetch`.
- WeatherWidgetManager.WidgetManager: the hourly, daily and forecast lists inside WeatherWidgetData are not modelled. The forced glance update and the update broadcasts are not modelled. A JSON text is modelled by what parsing it yields.
- WidgetSettings.WidgetSettingsStore: the free-form settings dictionary of a configuration is not modelled. A stored value that fails to decode reads as None. createDefaultKindConfig is the parameter `defaultKindConfig`.
- TimelineProvider: the next midnight is a parameter, because it depends on the calendar and the time zone.
- OfflineCache: `chain.proceed` is represented by its single outcome, a response or an IOException. The logging call is not modelled. The Request object is not modelled. The other methods of Utils.java are UI helpers.
- Locale: loading dayjs and the i18n tables and notifying listeners are I/O. An undefined language, for which `.split` would throw, is not modelled. Invalid (NaN) dates are not modelled. The date formatter and parser are parameters. `capitalize` is modelled as upper-casing the first character. SUPPORTED_LOCALES is a constant list.

## Findings

| source | as written | input that shows it | evidently intended | confidence | as-written member | corrected member |
|---|---|---|---|---|---|---|
| widget-layouts/generators/expression-compiler.ts:488-491 | the Swift escaper protects "\(" by replacing it with the placeholder "__SWIFT_INTERP__" and restores it afterwards, so a literal placeholder in the text also comes out as "\(" | the text "__SWIFT_INTERP__" | the text is escaped and reads back unchanged | not executed | ExpressionCompiler.EscapeSwiftPlaceholderClash | ExpressionCompiler.UnescapeEscapeSwiftCorrected |
| widget-layouts/generators/expression-compiler.ts:471 | the JavaScript template literal is closed with a space before the back-quote | a template with no binding text, "" gives "` `" | the literal holds exactly the template's text | not executed | ExpressionCompiler.InterpolateTrailingSpace | ExpressionCompiler.InterpolateCorrectedPlainText |
| widget-layouts/renderers/html-renderer.ts:168-175 | the condition is split on "&&" before "\|\|", which gives "\|\|" the higher precedence | "true \|\| false && false" evaluates to false | JavaScript precedence, under which it is true | not executed | HtmlRenderer.PrecedenceCounterexample | HtmlRenderer.CorrectedSplitsOnOr |
| widget-layouts/generators/nativescript-svelte-generator.ts:127-135 | inside parentheses every identifier gets the data prefix, including a property name after '.' | "(item.temp)" becomes "(item.data.temp)" | a property name after '.' is left alone | not executed | SvelteGenerator.NormalizePropertyNameCounterexample | SvelteGenerator.ItemTempReplaced |
| widget-layouts/generators/nativescript-svelte-generator.ts:138-142 | a bare token is prefixed without the literal-word check the parenthesised branch makes | "true" becomes "data.true" | true, false, null and undefined stay literals | not executed | SvelteGenerator.NormalizeLiteralCounterexample | SvelteGenerator.NormalizeToken |
| widget-layouts/generators/nativescript-svelte-generator.ts:269-282 | with an even number of arguments (no fallback) the last value is taken as the fallback and the pairs shift | ["case", c1, v1, c2, v2] gives "v1 ? c2 : v2" | "c1 ? v1 : c2 ? v2 : null", as the evaluator does | not executed | SvelteGenerator.CaseEvenCounterexample | SvelteGenerator.CaseCorrected |
| app/services/icon.ts:21 | WEATHER_CODE_MAPPING maps 313 to itself, so getIcon's fallback loop never ends for 313 in a set without a 313 icon | getIcon(313) with an icon set holding every base code but not 313 | 313 falls back to a base code (a drizzle/rain code) | not executed | Icon.AsWrittenLoopsOn313 | Icon.ResolvesWithBaseCodes |
| app/services/weatherData.ts:246-261 | after finding where the added series starts in the main one, the loop compares main[index] with added[index] at the same index rather than at the offset, so an added series that is a window of an increasing main series starting after its first item (two evenly spaced hourly series) is never merged | main hours 0, 1, 2 and an added series for hours 1, 2 | the added series is merged into the hours with equal time | not executed | WeatherData.AsWrittenSkipsLaterWindow | WeatherData.MergeWindowCorrected |
| app/services/providers/mf.ts:111 | the mean wind bearing is multiplied by 3.6, as the wind speeds are | two readings of 180 degrees give 648 | the mean bearing in degrees, within 0..360 | not executed | MeteoFrance.AsWrittenBearingOutOfRange | MeteoFrance.WindBearingCorrectedInRange |
| App_Resources/iOS/WidgetExtension/WeatherTimelineProvider.swift:90 | the entry count is min(12, 360 / frequency) with integer division | a frequency of 720 minutes gives 0 entries and a reload at once | at least one entry | not executed | TimelineProvider.AsWrittenEmptyTimeline | TimelineProvider.CorrectedTimelineNotEmpty |
