# Pokémon search: response normaliser and screen state, in Dafny

This project models the logic of an Android app that looks up a Pokémon by
name through a GraphQL API and shows its name, sprite and cry. All of that
logic is in `PokemonActivity.kt`. The model has three parts:

- **The two extractors**, `extractFrontSpriteUrl` and `extractLatestCryUrl`.
  The API delivers the `sprites` and `cries` columns either as JSON text or as
  an already-decoded map. Each extractor reduces that payload to one URL, or to
  nothing. The sprite lookup tries `front_default` first, then
  `other.official-artwork.front_default`. A blank value counts as absent.
  Unparsable text, and a payload that is neither text nor a map, give nothing.
- **Record assembly**, the part of `performGraphQlQuery` after the network
  call. An empty or missing entity list gives "not found", and so does a
  transport exception. Otherwise the entity's name gets its first character
  uppercased. The image and cry URLs are filled in only when the
  `includeImage` / `includeCry` flags ask for them.
- **The screen state machine** of `PokemonScreen`. Its two remembered
  variables, `showResults` and `pokemonData`, are reassigned by the "search
  completed" and "search again" callbacks. The results view is shown only
  when both are set.

Files:

- `wrappers.dfy`: `Option`, the model of Kotlin's nullable types.
- `text.dfy`: blankness, following the JVM's `Char.isWhitespace`, and ASCII case mapping.
- `json_model.dfy`: JSON values, the org.json and `as?` field reads, and a
  reference path lookup that is independent of the extractors.
- `extractors.dfy`: both extractors and their properties.
- `records.dfy`: `PokemonData`, the query outcome, record assembly and the query.
- `screen.dfy`: the state and events as values (`Step`, `Run`), plus the
  `PokemonScreen` class, whose fields the callbacks update in place.

The org.json library is a parameter, `JsonText`, with two fields:
- `parse` stands for `JSONObject(text)`. It yields `None` where the
  constructor throws.
- `render` gives the text that `optString` produces for a present value that
  is not a string.

The network call is the parameter `execute`, from the lowercased name to a
`QueryOutcome`.

One might expect a sprite field to give the same URL whether it arrives as
JSON text or as a map. The code does not quite do that:
- The text branch reads fields with `optString`, which turns a non-string
  value into text.
- The map branch reads fields with `as? String`, which skips a non-string
  value.

The two encodings therefore agree only where the looked-up fields hold
strings or are absent (`SpriteEncodingsAgree`, `CryEncodingsAgree`). Where
they part is stated by `SpriteCoercionDiverges` and `CryCoercionDiverges`.
Likewise, a name need not end up with a leading uppercase letter: the code
leaves an empty name empty, and so does the model.

## Model

| member | source | states |
|---|---|---|
| Text.IsBlank | app/src/main/java/edu/northeastern/a6_group6/PokemonActivity.kt:143 | `isBlank`: true exactly when every character is whitespace (the empty string included) |
| Text.UpperChar | app/src/main/java/edu/northeastern/a6_group6/PokemonActivity.kt:128 | `Char.uppercase()` on ASCII: the result is never a lowercase letter, a lowercase letter maps to its capital, other characters are unchanged |
| Text.LowerChar | app/src/main/java/edu/northeastern/a6_group6/PokemonActivity.kt:106 | `Char.lowercase()` on ASCII: never an uppercase letter, a capital maps to its small letter, others unchanged |
| Text.LowerCase | app/src/main/java/edu/northeastern/a6_group6/PokemonActivity.kt:106 | the name sent to the query keeps its length and has no uppercase letters; each character is kept or is the lowered form of a capital |
| Text.LowerCaseIdempotent | app/src/main/java/edu/northeastern/a6_group6/PokemonActivity.kt:106 | lowercasing an already lowercased name changes nothing |
| Text.Capitalize | app/src/main/java/edu/northeastern/a6_group6/PokemonActivity.kt:128 | `replaceFirstChar { it.uppercase() }`: same length, the empty name stays empty, the rest after the first character is unchanged, and the first character is the same letter, never lowercase |
| Text.CapitalizeIdempotent | app/src/main/java/edu/northeastern/a6_group6/PokemonActivity.kt:128 | capitalising a capitalised name changes nothing |
| Text.CapitalizeKeepsCapitalized | app/src/main/java/edu/northeastern/a6_group6/PokemonActivity.kt:128 | a name that does not start with a lowercase letter is returned unchanged |
| JsonModel.OptString | app/src/main/java/edu/northeastern/a6_group6/PokemonActivity.kt:143 | `optString(key)`: "" for a missing key, the string itself for a string value, and the rendered text of any other present value |
| JsonModel.StringField | app/src/main/java/edu/northeastern/a6_group6/PokemonActivity.kt:151 | `map[key] as? String`: something exactly when the key holds a string, and then that string |
| JsonModel.ObjectField | app/src/main/java/edu/northeastern/a6_group6/PokemonActivity.kt:153-154 | `optJSONObject` / `as? Map<*, *>`: something exactly when the key holds an object, and then its fields |
| JsonModel.NonBlank | app/src/main/java/edu/northeastern/a6_group6/PokemonActivity.kt:143 | `takeIf { it.isNotBlank() }`: keeps the string exactly when it is not blank |
| JsonModel.FirstNonBlank | app/src/main/java/edu/northeastern/a6_group6/PokemonActivity.kt:143-145 | the elvis chain of two `takeIf { it.isNotBlank() }` reads: something exactly when either candidate is non-blank, the first candidate whenever it is non-blank, and never a blank result |
| JsonModel.CoercedAgreesOnStrings | app/src/main/java/edu/northeastern/a6_group6/PokemonActivity.kt:143-156 | on a path holding a string or nothing, the `optString` reading and the `as? String` reading agree up to a blank "" standing for absence |
| Extractors.SpriteFromParsed | app/src/main/java/edu/northeastern/a6_group6/PokemonActivity.kt:141-145 | text branch: the result is the first non-blank of `optString` at `front_default`, then at `other.official-artwork.front_default` when both enclosing objects exist; never blank |
| Extractors.SpriteFromMap | app/src/main/java/edu/northeastern/a6_group6/PokemonActivity.kt:150-156 | map branch: the result is the first non-blank string at `front_default`, then at `other.official-artwork.front_default`, read along the reference path; never blank |
| Extractors.ExtractFrontSpriteUrl | app/src/main/java/edu/northeastern/a6_group6/PokemonActivity.kt:138-160 | never returns a blank URL; unparsable text and a payload that is neither text nor a map give nothing; from a map, the first non-blank string at `front_default` then `other.official-artwork.front_default`; from parsed text, the first non-blank `optString` reading of the same two paths |
| Extractors.ExtractLatestCryUrl | app/src/main/java/edu/northeastern/a6_group6/PokemonActivity.kt:162-174 | never returns a blank URL; unparsable text and other payloads give nothing; from a map, a URL exactly when `latest` holds a non-blank string, which is then the URL; from parsed text, the `optString("latest")` reading when it is not blank |
| Extractors.SpriteEncodingsAgree | app/src/main/java/edu/northeastern/a6_group6/PokemonActivity.kt:138-160 | JSON text that parses to a map gives the same sprite URL as that map, when both looked-up fields hold strings or are absent |
| Extractors.CryEncodingsAgree | app/src/main/java/edu/northeastern/a6_group6/PokemonActivity.kt:162-174 | the same for the cry URL, when `latest` holds a string or is absent |
| Extractors.SpriteCoercionDiverges | app/src/main/java/edu/northeastern/a6_group6/PokemonActivity.kt:143-151 | a non-string `front_default` whose text is not blank is the URL from JSON text, yet is skipped as absent by the map branch |
| Extractors.CryCoercionDiverges | app/src/main/java/edu/northeastern/a6_group6/PokemonActivity.kt:166-170 | a non-string `latest` whose text is not blank is the cry URL from JSON text, while the map branch gives nothing for it |
| Extractors.MapBlankFrontIsAbsent | app/src/main/java/edu/northeastern/a6_group6/PokemonActivity.kt:151-156 | map branch: a blank `front_default` gives the same result as no `front_default` |
| Extractors.MapNonStringFrontIsAbsent | app/src/main/java/edu/northeastern/a6_group6/PokemonActivity.kt:151-156 | map branch: a non-string `front_default` gives the same result as no `front_default` |
| Extractors.ParsedBlankFrontIsAbsent | app/src/main/java/edu/northeastern/a6_group6/PokemonActivity.kt:143-145 | text branch: a blank `front_default` gives the same result as no `front_default` |
| Extractors.NonObjectOtherEndsFallback | app/src/main/java/edu/northeastern/a6_group6/PokemonActivity.kt:153-156 | an `other` that is not an object leaves only `front_default` to decide, in both branches |
| Extractors.NonObjectArtworkEndsFallback | app/src/main/java/edu/northeastern/a6_group6/PokemonActivity.kt:153-156 | an `official-artwork` that is not an object leaves only `front_default` to decide, in both branches |
| Extractors.BlankFrontFallsBackToArtwork | app/src/main/java/edu/northeastern/a6_group6/PokemonActivity.kt:151-156 | a blank `front_default` beside a non-blank official artwork yields the artwork URL |
| Records.FirstPayload | app/src/main/java/edu/northeastern/a6_group6/PokemonActivity.kt:115 | `firstOrNull()?.sprites`: null for an empty row list, otherwise the first row's payload |
| Records.FirstEntity | app/src/main/java/edu/northeastern/a6_group6/PokemonActivity.kt:108 | `response.data?.pokemon?.firstOrNull()`: something exactly when the response lists an entity, and then the first one |
| Records.AssembleRecord | app/src/main/java/edu/northeastern/a6_group6/PokemonActivity.kt:108-131 | a record exactly when the response lists an entity; a transport failure or a missing/empty list gives nothing; the name is the entity's with only its first character uppercased; each URL is the extractor's result when its flag is set and absent otherwise, and never blank |
| Records.PerformQuery | app/src/main/java/edu/northeastern/a6_group6/PokemonActivity.kt:99-136 | the query runs on the lowercased name; its exception gives nothing; a record is produced exactly when it lists an entity, and is the record assembled from that outcome |
| Records.FlagsGateUrls | app/src/main/java/edu/northeastern/a6_group6/PokemonActivity.kt:114-122 | `includeImage` false means no image URL and `includeCry` false means no cry URL, whatever the payloads hold |
| Records.FlagsKeepName | app/src/main/java/edu/northeastern/a6_group6/PokemonActivity.kt:114-131 | the flags change neither whether a record is produced nor its name |
| Records.SearchIgnoresCase | app/src/main/java/edu/northeastern/a6_group6/PokemonActivity.kt:106 | two names that lowercase alike give the same result |
| Records.PikachuExample | app/src/main/java/edu/northeastern/a6_group6/PokemonActivity.kt:108-131 | "pikachu" with `front_default` "a.png" and `latest` "a.ogg", both flags set, gives ("Pikachu", "a.png", "a.ogg") |
| Screen.ViewOf | app/src/main/java/edu/northeastern/a6_group6/PokemonActivity.kt:75 | the results view is chosen exactly when `showResults` is true and `pokemonData` is non-null, and then shows that data |
| Screen.Step | app/src/main/java/edu/northeastern/a6_group6/PokemonActivity.kt:79-93 | "search again" returns to the initial state and the search view; a completed search stores its result and sets `showResults`, so the results show exactly when something was found |
| Screen.RunPreservesConsistent | app/src/main/java/edu/northeastern/a6_group6/PokemonActivity.kt:72-93 | from a consistent state (data cleared whenever results are not requested), every sequence of callbacks stays consistent |
| Screen.LastEventDecidesView | app/src/main/java/edu/northeastern/a6_group6/PokemonActivity.kt:75-93 | after any non-empty sequence of callbacks the view depends only on the last one |
| Screen.ConsistentViewFollowsData | app/src/main/java/edu/northeastern/a6_group6/PokemonActivity.kt:75 | in a consistent state the results view shows exactly when `pokemonData` is non-null |
| Screen.PokemonScreen.CurrentView | app/src/main/java/edu/northeastern/a6_group6/PokemonActivity.kt:75 | the composed view is the results view exactly when both fields are set |
| Screen.PokemonScreen.constructor | app/src/main/java/edu/northeastern/a6_group6/PokemonActivity.kt:72-73 | the screen starts with `showResults` false and no data, showing the search view |
| Screen.PokemonScreen.OnSearchAgain | app/src/main/java/edu/northeastern/a6_group6/PokemonActivity.kt:79-82 | resets both fields to false and null; the search view shows |
| Screen.PokemonScreen.OnSearchCompleted | app/src/main/java/edu/northeastern/a6_group6/PokemonActivity.kt:90-92 | stores the result and sets `showResults`; a null result leaves the search view up |
| Screen.PokemonScreen.OnSearch | app/src/main/java/edu/northeastern/a6_group6/PokemonActivity.kt:88-93 | runs the query and applies the completed-search step with its result; the results show exactly when the query found something |

## Left out

- Compose layout and theming (`PokemonSearchScreen`, `PokemonResultsScreen`, the previews), including the `isPlaying` debounce of the cry button and the search button's enabling on a non-blank name: these render and wire the UI and hold no state the model covers.
- `playPokemonCry`: MediaPlayer playback is an asynchronous platform resource driven by listener callbacks.
- `ApolloClient.kt` and `query(...).execute()`: the network call is the parameter `execute`, and its outcome, a response or `ApolloException`, is an input.
- org.json internals: `JSONObject(text)` and the text `optString` produces for non-string values (numbers, booleans, arrays, and JSON null, which Android renders as "null") are the parameters `parse` and `render`. Strings are read back as themselves.
- Exceptions other than `ApolloException` from the query, and the `catch (_: Exception)` around `optString` itself: only the parse can fail in the model.
- Map keys that are not strings: a Kotlin `Map<*, *>` payload is modelled with string keys only. Lookups use string keys, so other keys cannot matter.
- Logging (`Log.*`): it affects no value.
- PokemonScreen.OnSearch: runs a request and stores its result in one step, so it does not capture overlapping searches. The Search button stays enabled while a request is in flight, so several searches can be outstanding and complete in any order; whichever completes last is stored. Completions in any order are covered by `Run` and `LastEventDecidesView`. The cancellation of the `rememberCoroutineScope` scope, once a completion shows the results view, is not modelled.
- UpperChar: maps ASCII letters only. Kotlin's `Char.uppercase()` follows Unicode and may give several characters (for example for `ß`). Non-ASCII characters are left unchanged.
- Capitalize: inherits UpperChar's ASCII restriction.
- LowerChar: maps ASCII letters only. Kotlin's `lowercase()` follows Unicode.
- LowerCase: inherits LowerChar's ASCII restriction.
- IsBlank: the whitespace set is the JVM's separators and controls as of current Unicode. Later Unicode versions may add separators.
