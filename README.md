# Pokedex, modelled in Dafny

The Pokedex has a Spring backend and a React front end. The backend
validates a name or id, fetches the pokemon and its species from PokeAPI and
builds one response record. It also builds the pages of the list with their
`next`/`previous` links, and turns every exception into an HTTP error
response. The front end fetches pages and details from the backend and keeps
its state in a few cells. It shows either a grid of cards or the detail page
of one pokemon.

This project models the following, one Dafny module per source file:

- the validator (`PokemonValidator`);
- the service (`PokemonService`);
- the response records and `PokemonResponseDto.from` (`ResponseDto`);
- the exception handler (`GlobalExceptionHandler`);
- the browser-side service (`PokemonApi`);
- the three components (`PokemonCard`, `PokemonDetail`, `PokemonGrid`);
- the `App` component, as a class whose fields are its state cells and whose
  methods are its handlers.

Shared modules hold what the code relies on from its languages:

- `Common`: `Option`, `Result` and decoded JSON values.
- `Text`: decimal notation, digit strings, ASCII lower-casing.
- `Exceptions`: the backend's exceptions and the JDK runtime faults.
- `JavaCasts`: Java casts, unboxing, the 32-bit `int` and `stream().map().toList()`.

The model follows Java evaluation order exactly:

- A `null` dereference or a failed cast becomes the `Unexpected` exception
  at the point where Java raises it.
- `int` arithmetic wraps modulo 2^32.
- `Integer.parseInt` is modelled on an optional sign, ASCII digits and
  values in the 32-bit range (its other Unicode digits are listed under
  "Left out").
- The list-url regular expression is modelled as Java evaluates it:
  - the greedy `.*` ends its one match at the last `/pokemon/<digits>/`
    segment;
  - the text after that segment is kept;
  - a url holding a line terminator always ends in `NumberFormatException`.

On the front end:

- `fetch` is an input: a response with its status and parsed body, or a
  rejected request.
- Each handler runs to completion on one such outcome.
- The state also keeps the toasts raised and the URLs requested, so those
  can be stated.

Four behaviours of the front-end code shape the model:

- The list is not deduplicated: a page is appended as it comes.
- There is no busy flag: a second fetch is not gated.
- `handleLoadMore` does not check `hasMore`: only the grid hides its button.
- The front-end service throws a plain `Error` without a `status`. So the
  404, 400 and 503 branches of `fetchPokemonDetails` are never taken, and
  every failure shows the generic toast (`App.DetailFailureIsGeneric`).

## Model

| member | source | states |
|---|---|---|
| PokemonValidator.Trim | pokedex/src/main/java/com/manoj/pokedex/util/PokemonValidator.java:15 | The result is the input without its leading and trailing characters up to U+0020; what remains is a contiguous slice that starts and ends with a kept character |
| PokemonValidator.ValidateAndNormalizeName | pokedex/src/main/java/com/manoj/pokedex/util/PokemonValidator.java:9-36 | `null` gives the "must not be null" BadRequest; blank after trimming gives "must not be empty"; any other rejection is the "Invalid pokemon identifier" BadRequest; a success is the trimmed digits or the lower-cased trimmed text matching `[a-z-]+` |
| PokemonValidator.NumericIdKept | pokedex/src/main/java/com/manoj/pokedex/util/PokemonValidator.java:22-24 | Trimmed input made only of digits is returned as trimmed, leading zeros included |
| PokemonValidator.LoweredIsName | pokedex/src/main/java/com/manoj/pokedex/util/PokemonValidator.java:27-31 | Lower-casing yields a `[a-z-]+` name exactly when the text is non-empty ASCII letters of either case and hyphens |
| PokemonValidator.AcceptedExactly | pokedex/src/main/java/com/manoj/pokedex/util/PokemonValidator.java:15-35 | An input is accepted if and only if its trimmed form is all digits or all ASCII letters and hyphens |
| PokemonValidator.ValidateIdempotent | pokedex/src/main/java/com/manoj/pokedex/util/PokemonValidator.java:9-36 | A validated identifier is non-empty, has nothing to trim, and validates to itself |
| PokemonValidator.NameIsLowerCase | pokedex/src/main/java/com/manoj/pokedex/util/PokemonValidator.java:29-30 | A matched name is already lower-case |
| PokemonValidator.ExampleLeadingZeros | pokedex/src/main/java/com/manoj/pokedex/util/PokemonValidator.java:15-24 | `" 025\t"` is accepted as `"025"` |
| PokemonValidator.ExampleBlank | pokedex/src/main/java/com/manoj/pokedex/util/PokemonValidator.java:15-19 | Three spaces are rejected as empty |
| JavaCasts.MapToList | pokedex/src/main/java/com/manoj/pokedex/dto/PokemonResponseDto.java:47-50 | `stream().map(f).toList()` succeeds if and only if `f` succeeds on every element, is then `f` pointwise, and otherwise throws the exception of the first failing element |
| JavaCasts.WrapInt | pokedex/src/main/java/com/manoj/pokedex/service/PokemonService.java:103 | An `int` sum is in the 32-bit range, congruent to the exact sum modulo 2^32, and equal to it when that is in range |
| JavaCasts.CastString | pokedex/src/main/java/com/manoj/pokedex/dto/PokemonResponseDto.java:30 | `(String)` succeeds if and only if the value is a string or `null`, keeping it; otherwise a `ClassCastException` |
| JavaCasts.CastInteger | pokedex/src/main/java/com/manoj/pokedex/dto/PokemonResponseDto.java:65 | `(Integer)` succeeds if and only if the value is `null` or a 32-bit integer, keeping it; otherwise a `ClassCastException` |
| JavaCasts.UnboxInt | pokedex/src/main/java/com/manoj/pokedex/dto/PokemonResponseDto.java:29 | `int x = (Integer) v` succeeds if and only if the value is a 32-bit integer, giving it; `null` throws `NullPointerException` |
| JavaCasts.DerefString | pokedex/src/main/java/com/manoj/pokedex/service/PokemonService.java:90-93 | A `String` that is then dereferenced: succeeds if and only if the value is a string, giving it |
| JavaCasts.DerefMap | pokedex/src/main/java/com/manoj/pokedex/dto/PokemonResponseDto.java:32-36 | A `Map` cast that is then dereferenced: succeeds if and only if the value is a map, giving its fields |
| JavaCasts.DerefList | pokedex/src/main/java/com/manoj/pokedex/dto/PokemonResponseDto.java:45-47 | A `List` cast that is then streamed: succeeds if and only if the value is a list, giving its items |
| ResponseDto.ArtworkImage | pokedex/src/main/java/com/manoj/pokedex/dto/PokemonResponseDto.java:32-42 | Succeeds if and only if `sprites`, `other` and `official-artwork` are maps and `front_default` is a string or `null`; the image is then `front_default` cast to `String`; any failure is an unexpected exception |
| ResponseDto.BuildStats | pokedex/src/main/java/com/manoj/pokedex/dto/PokemonResponseDto.java:59-67 | The loop builds exactly the map of the `stats` fold from an empty map, or throws what the fold throws |
| ResponseDto.StatEntry | pokedex/src/main/java/com/manoj/pokedex/dto/PokemonResponseDto.java:62-66 | One loop iteration fails only with an unexpected exception; `StatEntrySucceedsExactly` states when it succeeds and what it puts |
| ResponseDto.StatsFold | pokedex/src/main/java/com/manoj/pokedex/dto/PokemonResponseDto.java:61-67 | The loop fails only with an unexpected exception; its contents and failures are stated by the `StatsFold` lemmas below |
| ResponseDto.StatsFoldContents | pokedex/src/main/java/com/manoj/pokedex/dto/PokemonResponseDto.java:61-67 | When the loop succeeds, the keys are the entries' names, each name maps to the value of its last entry, and keys no entry names keep their value |
| ResponseDto.StatsFoldAllRead | pokedex/src/main/java/com/manoj/pokedex/dto/PokemonResponseDto.java:62-66 | A successful loop read every entry |
| ResponseDto.StatsFoldKeys | pokedex/src/main/java/com/manoj/pokedex/dto/PokemonResponseDto.java:62-66 | The map's keys are the starting keys plus every entry's name |
| ResponseDto.StatsFoldLastWins | pokedex/src/main/java/com/manoj/pokedex/dto/PokemonResponseDto.java:62-66 | A name maps to the value of the last entry with that name (`put` overwrites) |
| ResponseDto.StatsFoldKeepsUntouched | pokedex/src/main/java/com/manoj/pokedex/dto/PokemonResponseDto.java:61-67 | A key that no entry names keeps its value |
| ResponseDto.StatsFoldFailure | pokedex/src/main/java/com/manoj/pokedex/dto/PokemonResponseDto.java:62-66 | The loop fails if and only if some entry cannot be read, and then with the exception of the first such entry |
| ResponseDto.From | pokedex/src/main/java/com/manoj/pokedex/dto/PokemonResponseDto.java:27-75 | Every failure is an unexpected exception. On success: id, height and weight are the JSON integers; name is the cast `name`; image is the artwork image; types and abilities are the nested names pointwise; stats is the loop's map; the description is passed through |
| ResponseDto.StatEntrySucceedsExactly | pokedex/src/main/java/com/manoj/pokedex/dto/PokemonResponseDto.java:62-66 | One loop iteration succeeds if and only if the element is a map whose `stat` is a map with a string or `null` `name`, and whose `base_stat` is `null` or a 32-bit integer |
| ResponseDto.FromSucceedsExactly | pokedex/src/main/java/com/manoj/pokedex/dto/PokemonResponseDto.java:27-75 | `from` returns a record if and only if id, height and weight are 32-bit integers, name is a string or `null`, the artwork path is readable, and types, abilities and stats are lists whose every element has the shape the code reads |
| PokemonService.ReplaceChar | pokedex/src/main/java/com/manoj/pokedex/service/PokemonService.java:65-66 | `String.replace` of one character replaces every occurrence and nothing else |
| PokemonService.Flatten | pokedex/src/main/java/com/manoj/pokedex/service/PokemonService.java:63-67 | The text keeps its length, newlines and form feeds become spaces, and neither remains |
| PokemonService.FirstEnglish | pokedex/src/main/java/com/manoj/pokedex/service/PokemonService.java:55-68 | `findFirst` stops at the first map whose `language.name` is `"en"`, or finds none |
| PokemonService.ExtractEnglishDescription | pokedex/src/main/java/com/manoj/pokedex/service/PokemonService.java:47-70 | No list, or no English entry, gives "No description available."; otherwise the first English entry's flattened text; the result has no newline or form feed; a `null` or non-string text throws |
| PokemonService.LastMatchBefore | pokedex/src/main/java/com/manoj/pokedex/service/PokemonService.java:93 | Finds the last position where `/pokemon/<digits>/` matches, or reports that none does |
| PokemonService.ReplaceThroughLastSegment | pokedex/src/main/java/com/manoj/pokedex/service/PokemonService.java:93 | Without a match the url is unchanged. Otherwise the text through the last segment's closing slash becomes that segment's non-empty digit run, the rest of the url is kept, and the result is shorter and starts with a digit |
| PokemonService.IdFromUrl | pokedex/src/main/java/com/manoj/pokedex/service/PokemonService.java:92-94 | A 32-bit id or `NumberFormatException`; a url with a line terminator is always rejected; otherwise `parseInt` of the replaced url, which is the whole url when it has no segment |
| PokemonService.ParseInt | pokedex/src/main/java/com/manoj/pokedex/service/PokemonService.java:92-94 | `Integer.parseInt` succeeds if and only if the text is an optional `-` or `+` followed by at least one digit, denoting a value in the 32-bit range; it then returns that value, and otherwise throws `NumberFormatException` |
| PokemonService.ParseIntOfIntToString | pokedex/src/main/java/com/manoj/pokedex/service/PokemonService.java:92-94 | `parseInt` reads back the decimal text of every 32-bit integer |
| PokemonService.IdFromCanonicalUrl | pokedex/src/main/java/com/manoj/pokedex/service/PokemonService.java:89-94 | A url ending in `/pokemon/<digits>/` gives the number the digits denote, whatever comes before the segment, provided that prefix has no line terminator and the number is at most 2147483647 |
| PokemonService.SegmentIsLastMatch | pokedex/src/main/java/com/manoj/pokedex/service/PokemonService.java:93 | In such a url the final segment is the last match |
| PokemonService.NoMatchAfterSegment | pokedex/src/main/java/com/manoj/pokedex/service/PokemonService.java:93 | No match starts inside the final segment |
| PokemonService.CanonicalUrlHasNoLineTerminator | pokedex/src/main/java/com/manoj/pokedex/service/PokemonService.java:93 | Such a url has no line terminator when its prefix has none |
| PokemonService.UrlWithoutSegment | pokedex/src/main/java/com/manoj/pokedex/service/PokemonService.java:92-94 | A url with no segment and no line terminator goes whole to `parseInt`, so it is read exactly when it is a signed or plain 32-bit number; one whose characters after the first are not all digits is always rejected |
| PokemonService.ListLinkInjective | pokedex/src/main/java/com/manoj/pokedex/service/PokemonService.java:105-111 | A list link determines its offset and limit |
| PokemonService.NextLink | pokedex/src/main/java/com/manoj/pokedex/service/PokemonService.java:103-107 | Present if and only if the wrapped `offset + limit` is below `count`, pointing at that wrapped offset; without overflow, if and only if `offset + limit < count` |
| PokemonService.PreviousLink | pokedex/src/main/java/com/manoj/pokedex/service/PokemonService.java:109-111 | Present if and only if `offset > 0`. Without overflow it points at `max(offset - limit, 0)`; when `offset - limit` overflows it points at offset 0 |
| PokemonService.NextThenPrevious | pokedex/src/main/java/com/manoj/pokedex/service/PokemonService.java:105-111 | If `offset + limit` fits in an `int`, the `previous` link of the `next` page is the current page |
| PokemonService.OverflowedNextIsNegative | pokedex/src/main/java/com/manoj/pokedex/service/PokemonService.java:103-107 | When `offset + limit` overflows, the wrapped sum is negative, so `next` is given and points at a negative offset |
| PokemonService.ToListItem | pokedex/src/main/java/com/manoj/pokedex/service/PokemonService.java:87-101 | Succeeds if and only if the entry is a map with a string or `null` `name` and a string `url` from which an id is read. The name is then the entry's `name`, the id is the one read from its `url`, the image is the artwork url built from that id, and there are no types. Failures are unexpected exceptions |
| PokemonService.CanonicalListEntry | pokedex/src/main/java/com/manoj/pokedex/service/PokemonService.java:87-101 | An entry whose `url` ends in `/pokemon/<digits>/` is read, with the id those digits denote and the artwork url of that id |
| PokemonService.GetPokemonPage | pokedex/src/main/java/com/manoj/pokedex/service/PokemonService.java:77-122 | A page is built if and only if `count` is a 32-bit integer and `results` is a list of readable entries. The page echoes offset and limit and unboxes `count`. `hasMore` is true if and only if the wrapped `offset + limit` is below `count`. `next` is present if and only if `hasMore`, and `previous` if and only if `offset > 0`. Their offsets are the wrapped `offset + limit` and the larger of 0 and the wrapped `offset - limit`. Data is the entry mapping applied pointwise |
| PokemonService.GetPokemonByName | pokedex/src/main/java/com/manoj/pokedex/service/PokemonService.java:28-44 | A rejected identifier makes no client call. Otherwise the pokemon is fetched first, and the species only after it succeeds. Each exception propagates. When both calls succeed, the result is the description extraction's exception, or else `from` of the pokemon data with the English description |
| PokemonService.ClientSeesOnlyNormalisedIds | pokedex/src/main/java/com/manoj/pokedex/service/PokemonService.java:28-39 | Every client call uses the validated identifier, which validates to itself |
| PokemonService.CallsUseIdentifier | pokedex/src/main/java/com/manoj/pokedex/service/PokemonService.java:35-39 | Both client calls use the validated identifier |
| GlobalExceptionHandler.HandleNotFound | pokedex/src/main/java/com/manoj/pokedex/exception/GlobalExceptionHandler.java:12-24 | 404, `NOT_FOUND`, the exception's message, the request path |
| GlobalExceptionHandler.HandleBadRequest | pokedex/src/main/java/com/manoj/pokedex/exception/GlobalExceptionHandler.java:26-38 | 400, `BAD_REQUEST`, the exception's message, the request path |
| GlobalExceptionHandler.HandleExternalService | pokedex/src/main/java/com/manoj/pokedex/exception/GlobalExceptionHandler.java:40-52 | 503, `SERVICE_UNAVAILABLE`, the exception's message, the request path |
| GlobalExceptionHandler.HandleGeneric | pokedex/src/main/java/com/manoj/pokedex/exception/GlobalExceptionHandler.java:54-66 | 500, `INTERNAL_SERVER_ERROR`, the fixed "Something went wrong", the request path |
| GlobalExceptionHandler.StatusName | pokedex/src/main/java/com/manoj/pokedex/exception/GlobalExceptionHandler.java:12-66 | A name is given exactly to the four statuses the handlers use |
| GlobalExceptionHandler.Handle | pokedex/src/main/java/com/manoj/pokedex/exception/GlobalExceptionHandler.java:12-66 | The body agrees with the status line. Each status corresponds, in both directions, to one exception kind. Application exceptions keep their message; everything else gets the generic one |
| GlobalExceptionHandler.UnexpectedIsOpaque | pokedex/src/main/java/com/manoj/pokedex/exception/GlobalExceptionHandler.java:54-66 | Any two unexpected failures give the same response |
| GlobalExceptionHandler.ResponseIdentifiesException | pokedex/src/main/java/com/manoj/pokedex/exception/GlobalExceptionHandler.java:12-66 | Equal responses mean the same application exception, or unexpected failures on both sides |
| PokemonApi.Settle | pokedex-frontend/src/services/pokemonService.js:7-18 | Succeeds if and only if the status is 200..299 and the body parses, giving that body. A non-ok status throws the call's fixed message. A rejected request and an unparsable body are rethrown with their own message. No error carries a status |
| PokemonApi.ListUrl | pokedex-frontend/src/services/pokemonService.js:8-10 | The URL is the base and `/list?offset=`, followed by the offset and ending in `&limit=` and the limit; `ListUrlInjective` shows it determines the page |
| PokemonApi.DetailUrl | pokedex-frontend/src/services/pokemonService.js:23-25 | The URL is the base, a slash and the identifier lower-cased character by character, untrimmed |
| PokemonApi.GetPokemonList | pokedex-frontend/src/services/pokemonService.js:6-18 | Requests the list URL with offset and limit defaulting to 0 and 20, then settles with "Failed to fetch Pokemon list" |
| PokemonApi.GetPokemonDetails | pokedex-frontend/src/services/pokemonService.js:21-33 | Requests the detail URL, then settles with "Pokemon not found" |
| PokemonApi.ListUrlInjective | pokedex-frontend/src/services/pokemonService.js:8-10 | Two list URLs are equal only for the same offset and limit |
| PokemonApi.ErrorsCarryNoStatus | pokedex-frontend/src/services/pokemonService.js:11-17 | An error thrown by either call has no `status` |
| PokemonApi.DetailStatusIsDiscarded | pokedex-frontend/src/services/pokemonService.js:26-28 | Every non-ok detail status gives the same error |
| PokemonApi.DetailSegmentIsNormalised | pokedex-frontend/src/services/pokemonService.js:24 | For an identifier the backend accepts untrimmed, the requested path segment is the backend's normalised identifier |
| PokemonCard.TypeAt | pokedex-frontend/src/components/PokemonCard/PokemonCard.jsx:6 | `types?.[i]` is present exactly when the list exists, is long enough and holds a non-null string there |
| PokemonCard.BackgroundColor | pokedex-frontend/src/components/PokemonCard/PokemonCard.jsx:6-7 | The colour always comes from the table; there is none only when the primary type has no colour and the table has no `normal` |
| PokemonCard.BackgroundFallsBackToNormal | pokedex-frontend/src/components/PokemonCard/PokemonCard.jsx:6-7 | The background is the first type's colour when that type is truthy and has a colour, and the `normal` colour otherwise |
| PokemonCard.PadStart | pokedex-frontend/src/components/PokemonCard/PokemonCard.jsx:16 | `padStart` keeps the text as the suffix, fills only in front, and reaches the width |
| PokemonCard.IdLabel | pokedex-frontend/src/components/PokemonCard/PokemonCard.jsx:16 | At least three characters: zeros in front of the decimal id, which it ends with |
| PokemonCard.IdLabelReadsBack | pokedex-frontend/src/components/PokemonCard/PokemonCard.jsx:16 | A non-negative id's label has at least three digits and denotes the id |
| PokemonCard.IdLabelOfNegative | pokedex-frontend/src/components/PokemonCard/PokemonCard.jsx:16 | Id -1 is shown as `0-1` |
| PokemonCard.RenderCard | pokedex-frontend/src/components/PokemonCard/PokemonCard.jsx:5-35 | The card is keyed by the id, has the fallback background and the padded id, shows the pokemon's name and image, shows a badge if and only if the first type is truthy, and hands the pokemon to the click handler |
| PokemonCard.BadgeIsFirstType | pokedex-frontend/src/components/PokemonCard/PokemonCard.jsx:29-31 | The badge is the real first type; no badge means the primary type fell back to `normal` |
| PokemonDetail.DetailBackground | pokedex-frontend/src/components/PokemonDetail/PokemonDetail.jsx:6-13 | A gradient if and only if the second type is truthy and has a colour, running from the card's background to that colour; otherwise the card's background |
| PokemonDetail.SingleTypeIsSolid | pokedex-frontend/src/components/PokemonDetail/PokemonDetail.jsx:6-13 | With at most one type the background is solid |
| PokemonDetail.FormatTenths | pokedex-frontend/src/components/PokemonDetail/PokemonDetail.jsx:51 | `(n / 10).toFixed(1)` ends in a point and one digit, with a sign exactly for negatives |
| PokemonDetail.FormatTenthsReadsBack | pokedex-frontend/src/components/PokemonDetail/PokemonDetail.jsx:51-55 | For `n` ≥ 0 the text denotes exactly `n` tenths; for negative `n` the text after the sign denotes exactly `-n` tenths |
| PokemonDetail.FormatTenthsExamples | pokedex-frontend/src/components/PokemonDetail/PokemonDetail.jsx:51-55 | 7 is shown as `0.7` and 69 as `6.9` |
| PokemonDetail.HeightText | pokedex-frontend/src/components/PokemonDetail/PokemonDetail.jsx:51 | Ends in " m", with a sign exactly for negatives; the number before the unit denotes the height in tenths |
| PokemonDetail.WeightText | pokedex-frontend/src/components/PokemonDetail/PokemonDetail.jsx:55 | Ends in " kg", with a sign exactly for negatives; the number before the unit denotes the weight in tenths |
| PokemonDetail.StatColor | pokedex-frontend/src/components/PokemonDetail/PokemonDetail.jsx:96-102 | One of the five band colours (`StatColorBands` gives the bands) |
| PokemonDetail.StatColorBands | pokedex-frontend/src/components/PokemonDetail/PokemonDetail.jsx:97-102 | The five colours cover the value bands 150+, 100-149, 70-99, 40-69 and below 40, and a larger value never gets a lower band |
| PokemonDetail.ReplaceFirst | pokedex-frontend/src/components/PokemonDetail/PokemonDetail.jsx:107 | `replace` with a string pattern changes only the first occurrence |
| PokemonDetail.StatLabel | pokedex-frontend/src/components/PokemonDetail/PokemonDetail.jsx:107 | Same length; a changed character is a hyphen turned into a space, with everything before and after it kept |
| PokemonDetail.StatLabelSplitsAtFirstHyphen | pokedex-frontend/src/components/PokemonDetail/PokemonDetail.jsx:107 | Only the first hyphen of a stat name becomes a space |
| PokemonDetail.StatLabelOfSpecialAttack | pokedex-frontend/src/components/PokemonDetail/PokemonDetail.jsx:107 | `special-attack` is shown as `special attack` |
| PokemonDetail.RenderDetail | pokedex-frontend/src/components/PokemonDetail/PokemonDetail.jsx:5-128 | The page has the background, id label, height and weight texts, and one stat row per entry in order, each with its label, value and colour; missing stats give no rows |
| PokemonGrid.RenderGrid | pokedex-frontend/src/components/PokemonGrid/PokemonGrid.jsx:5-49 | One card per item in order; the spinner if and only if loading; the button if and only if idle with more; the end message if and only if idle, no more and a non-empty list |
| PokemonGrid.ControlsExclusive | pokedex-frontend/src/components/PokemonGrid/PokemonGrid.jsx:24-46 | At most one control is shown; once idle with items, exactly one of button and end message |
| PokemonGrid.CardClickTarget | pokedex-frontend/src/components/PokemonGrid/PokemonGrid.jsx:15-21 | The i-th card hands the i-th item to the click handler |
| App.JsTrim | pokedex-frontend/src/App.jsx:53 | The JavaScript `trim` result neither starts nor ends with JavaScript whitespace |
| App.BlankMeansWhitespace | pokedex-frontend/src/App.jsx:53 | A query is blank exactly when it is `null` or all JavaScript whitespace |
| App.ListFetched | pokedex-frontend/src/App.jsx:28-50 | The list fetch requests the list URL and ends idle; the selection and query are kept; at most the one list-failure toast is added |
| App.DetailFetched | pokedex-frontend/src/App.jsx:52-81 | The list, pagination and query are kept; a blank query requests nothing and leaves `loading` as it was; otherwise the detail URL is requested and the fetch ends idle |
| App.DetailSent | pokedex-frontend/src/App.jsx:58-80 | The detail URL is requested, the list, pagination and query are kept, the fetch ends idle and at most one toast is added |
| App.DetailSettled | pokedex-frontend/src/App.jsx:61-80 | Settling keeps the list, pagination, query and requests, ends idle and adds at most one toast |
| App.Searched | pokedex-frontend/src/App.jsx:83-87 | A blank query changes nothing; otherwise the trimmed query's detail URL is requested; the query and the list are kept |
| App.LoadedMore | pokedex-frontend/src/App.jsx:98-101 | Requests the list URL at `offset + limit` with the same limit and ends idle |
| App.BackToHome | pokedex-frontend/src/App.jsx:103-106 | Clears the selection and the query and keeps every other cell |
| App.CurrentScreen | pokedex-frontend/src/App.jsx:130-140 | The detail page exactly when a pokemon is selected, rendered from it; otherwise exactly the grid `RenderGrid` gives for the list, the loading flag and `hasMore` |
| App.JsTrimOfTrimmed | pokedex-frontend/src/App.jsx:84-85 | Trimming trimmed text changes nothing |
| App.ListFetchSucceeds | pokedex-frontend/src/App.jsx:28-43 | A success at offset 0 replaces the list. Elsewhere it appends the page after the old items, duplicates kept. Pagination is the response's; no toast; idle |
| App.ListFetchFails | pokedex-frontend/src/App.jsx:44-49 | A failure keeps the list and pagination, sets the error, raises one error toast, records the request and ends idle |
| App.BlankQueryRequestsNothing | pokedex-frontend/src/App.jsx:53-56 | A blank query only raises the warning toast |
| App.SearchUsesTrimmedQuery | pokedex-frontend/src/App.jsx:83-87 | A blank search does nothing; otherwise the trimmed query is requested |
| App.DetailRequest | pokedex-frontend/src/App.jsx:58-62 | A non-blank query is requested exactly once |
| App.DetailFailureIsGeneric | pokedex-frontend/src/App.jsx:64-77 | Every detail failure clears the selection, keeps the error message (the rejection's own message for a network failure, "Pokemon not found" for a non-ok status), raises the generic toast and ends idle |
| App.StatuslessErrorIsGeneric | pokedex-frontend/src/App.jsx:67-75 | An error without a status gets the generic toast |
| App.DetailErrorMessageHidesStatus | pokedex-frontend/src/App.jsx:77 | Every non-ok status shows "Pokemon not found" in the error cell |
| App.DetailFetchSucceeds | pokedex-frontend/src/App.jsx:58-63 | A successful detail fetch selects the response's pokemon, clears the error, raises no toast, keeps the list and ends idle |
| App.DetailToastByStatus | pokedex-frontend/src/App.jsx:67-75 | 404 shows the error's message as an error, 400 as a warning, 503 the fixed unavailability text, anything else the generic text |
| App.FetchesEndIdle | pokedex-frontend/src/App.jsx:28-81 | Every fetch ends with loading off; a blank query leaves it as it was |
| App.FirstTwoPages | pokedex-frontend/src/App.jsx:98-101 | After mount and one load-more, the list is the two pages in order, fetched from offsets 0 and 20 |
| App.LoadMoreIgnoresHasMore | pokedex-frontend/src/App.jsx:98-101 | Load-more requests the next page even when `hasMore` is false; only the grid hides the button |
| App.BackToHomeShowsGrid | pokedex-frontend/src/App.jsx:103-106 | Going back shows the grid with an empty query and everything else kept |
| App.App.constructor | pokedex-frontend/src/App.jsx:13-22 | The cells start at their `useState` values |
| App.App.Mount | pokedex-frontend/src/App.jsx:24-26 | Mounting fetches offset 0, limit 20 |
| App.App.FetchPokemonList | pokedex-frontend/src/App.jsx:28-50 | The new state is the list-fetch transition of the old one |
| App.App.FetchPokemonDetails | pokedex-frontend/src/App.jsx:52-81 | The new state is the detail-fetch transition of the old one |
| App.App.SendDetails | pokedex-frontend/src/App.jsx:58-80 | Past the blank check: the request, then its outcome |
| App.App.SettleDetails | pokedex-frontend/src/App.jsx:61-80 | The `try`/`catch`/`finally` applied to the result |
| App.App.HandleSearch | pokedex-frontend/src/App.jsx:83-87 | The search transition |
| App.App.HandleExampleClick | pokedex-frontend/src/App.jsx:89-92 | Sets the query, then fetches the name |
| App.App.HandleCardClick | pokedex-frontend/src/App.jsx:94-96 | Fetches the card's name |
| App.App.HandleLoadMore | pokedex-frontend/src/App.jsx:98-101 | Fetches from `offset + limit` with the same limit |
| App.App.HandleBackToHome | pokedex-frontend/src/App.jsx:103-106 | Clears the selection and the query only |
| App.App.SetSearchQuery | pokedex-frontend/src/App.jsx:123 | Sets the query only |

## Left out

- `PokeApiClient`, the controllers, `CacheConfig`, `CacheStatsController` and `Header.jsx` are not part of this model. The client is a pair of functions from identifier to decoded body or thrown exception. So `fetchPokemon`'s one mapping, a PokeAPI 404 to `PokemonNotFoundException("Pokemon not found: " + name)`, is not modelled; `fetchPokemonSpecies` and `fetchPokemonList` map nothing, and no code throws `ExternalServiceException`.
- Caching (`@Cacheable`) is left out: a cached call returns what the first call returned, which the model does not track.
- The exception classes are assumed unrelated to one another: each reaches its own handler.
- Text: both trims are modelled exactly (Java's `trim` up to U+0020, JavaScript's `trim` on its full whitespace set). Lower-casing, Java's and JavaScript's `toLowerCase`, is modelled for ASCII only; a character such as U+0130, which JavaScript lower-cases to two code units, is not modelled. The regex `\d` is ASCII-only in Java by default, as modelled.
- PokemonService.ParseInt: accepts ASCII digits only. Java's `Integer.parseInt` also accepts other Unicode decimal digits (through `Character.digit`). So a url whose text left after the replacement holds such digits (a url without the segment, or text after it) is rejected here but may be parsed in Java.
- JSON numbers are integers. A fractional number, and a `null` stat value rendered by the front end, are not modelled.
- PokemonDetail.FormatTenths: works on whole tenths. It does not model floating-point `toFixed` rounding for magnitudes where a double is no longer exact.
- The front end's `Number` arithmetic (`pagination.offset + pagination.limit`) is unbounded here rather than a double.
- The stat bar's width percentage, and the type and ability badges of the detail page, are not modelled.
- `TYPE_COLORS` is a parameter. JavaScript prototype keys such as `constructor` are not modelled.
- The order of `Object.entries` on the stats object is taken to be the order the JSON gives.
- A list body of the wrong shape is not modelled: the page body is assumed to parse into its fields.
- Toast rendering, `console.error` logging and auto-close are left out.
- Asynchrony is left out. Each handler runs to completion on one `fetch` outcome, so interleaved requests are not modelled. The transient `loading = true` is visible only through the fact that every fetch ends idle.
- App.JsTrim: states only that the result neither starts nor ends with whitespace. That the result is empty exactly for all-whitespace text is the lemma `App.BlankMeansWhitespace`.
