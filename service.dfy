/** `PokemonService`: the detail lookup (validate, fetch the pokemon and its
    species, build the response), the English description, and the page of
    the list with its links. The PokeAPI client is a pair of functions from
    identifier to what the client returns: a decoded body or the exception it
    threw. */
module PokemonService {
  import opened Common
  import opened Exceptions
  import opened JavaCasts
  import opened Text
  import opened PokemonValidator
  import opened ResponseDto

  const NoDescription := "No description available."
  const ArtworkPrefix := "https://raw.githubusercontent.com/PokeAPI/sprites/master/sprites/pokemon/other/official-artwork/"
  const ListPath := "/api/v1/pokemon/list?offset="
  const FormFeed: char := '\U{000C}'

  // ----- English description -----

  /** `s.replace(from, to)` for one-character strings: every occurrence is replaced. */
  function ReplaceChar(s: string, from: char, to: char): (r: string)
    ensures |r| == |s|
    ensures forall i :: 0 <= i < |s| ==> r[i] == (if s[i] == from then to else s[i])
  {
    if s == [] then [] else [if s[0] == from then to else s[0]] + ReplaceChar(s[1..], from, to)
  }

  /** `.replace("\n", " ").replace("\f", " ")`. */
  function Flatten(s: string): (r: string)
    ensures |r| == |s|
    ensures forall i :: 0 <= i < |r| ==> r[i] != '\n' && r[i] != FormFeed
    ensures forall i :: 0 <= i < |s| ==> r[i] == (if s[i] == '\n' || s[i] == FormFeed then ' ' else s[i])
  {
    ReplaceChar(ReplaceChar(s, '\n', ' '), FormFeed, ' ')
  }

  /** An element the stream keeps: a map whose `language` is a map whose
      `name` is the string `"en"`. */
  predicate IsEnglishEntry(item: Json)
  {
    item.JObj? && Get(item.fields, "language").JObj?
    && Get(Get(item.fields, "language").fields, "name") == JStr("en")
  }

  /** The index `findFirst` stops at. */
  function FirstEnglish(items: seq<Json>): (r: Option<nat>)
    ensures r.Some? ==> r.value < |items| && IsEnglishEntry(items[r.value])
                        && forall j :: 0 <= j < r.value ==> !IsEnglishEntry(items[j])
    ensures r.None? ==> forall j :: 0 <= j < |items| ==> !IsEnglishEntry(items[j])
  {
    if items == [] then None
    else if IsEnglishEntry(items[0]) then Some(0)
    else match FirstEnglish(items[1..])
      case None => None
      case Some(i) => Some(i + 1)
  }

  /** The text of the entry the stream maps: `(String) entry.get("flavor_text")`,
      then the two `replace` calls, which reject `null`. */
  function EntryText(entry: Json): Result<string, Exception>
    requires entry.JObj?
  {
    var text :- DerefString(Get(entry.fields, "flavor_text"));
    Ok(Flatten(text))
  }

  /** `extractEnglishDescription(speciesData)`. */
  function ExtractEnglishDescription(species: map<string, Json>): (r: Result<string, Exception>)
    ensures !Get(species, "flavor_text_entries").JList? ==> r == Ok(NoDescription)
    ensures Get(species, "flavor_text_entries").JList? ==>
              var items := Get(species, "flavor_text_entries").items;
              && ((forall k :: 0 <= k < |items| ==> !IsEnglishEntry(items[k])) ==> r == Ok(NoDescription))
              && (forall i :: 0 <= i < |items| && IsEnglishEntry(items[i])
                              && (forall j :: 0 <= j < i ==> !IsEnglishEntry(items[j])) ==>
                    r == EntryText(items[i]))
    ensures r.Ok? ==> forall i :: 0 <= i < |r.value| ==> r.value[i] != '\n' && r.value[i] != FormFeed
    ensures r.Err? ==> r.error.Unexpected?
  {
    var entries := Get(species, "flavor_text_entries");
    if !entries.JList? then Ok(NoDescription)
    else match FirstEnglish(entries.items)
      case None => Ok(NoDescription)
      case Some(i) => EntryText(entries.items[i])
  }

  // ----- Id from the list url -----

  /** The characters Java's `.` does not match. */
  predicate IsLineTerminator(c: char)
  {
    c == '\n' || c == '\r' || c == '\U{0085}' || c == '\U{2028}' || c == '\U{2029}'
  }

  predicate HasLineTerminator(s: string)
  {
    exists i :: 0 <= i < |s| && IsLineTerminator(s[i])
  }

  const Marker := "/pokemon/"

  /** `/pokemon/(\d+)/` matches at position `k` of `s`. */
  predicate MatchAt(s: string, k: nat)
  {
    k + |Marker| <= |s| && s[k..k + |Marker|] == Marker
    && var d := LeadingDigits(s[k + |Marker|..]);
       d > 0 && k + |Marker| + d < |s| && s[k + |Marker| + d] == '/'
  }

  /** The last position before `k` where the segment matches. */
  function LastMatchBefore(s: string, k: nat): (r: Option<nat>)
    requires k <= |s|
    ensures r.Some? ==> r.value < k && MatchAt(s, r.value)
                        && forall q :: r.value < q < k ==> !MatchAt(s, q)
    ensures r.None? ==> forall q :: 0 <= q < k ==> !MatchAt(s, q)
  {
    if k == 0 then None
    else if MatchAt(s, k - 1) then Some(k - 1)
    else LastMatchBefore(s, k - 1)
  }

  // `url.replaceAll` of the pattern "any text, then /pokemon/<digits>/" by the
  // digits, on a url without line terminators.
  /** The greedy leading wildcard stretches the one match from the start of
      the url to the last `/pokemon/<digits>/`; that text is replaced by the
      digits and the rest of the url is kept. Without such a segment the url
      is returned unchanged. */
  function ReplaceThroughLastSegment(url: string): (r: string)
    ensures LastMatchBefore(url, |url|).None? ==> r == url
    ensures LastMatchBefore(url, |url|).Some? ==>
              var start := LastMatchBefore(url, |url|).value + |Marker|;
              var n := LeadingDigits(url[start..]);
              && n > 0 && start + n < |url| && url[start + n] == '/'
              && r == url[start..start + n] + url[start + n + 1..]
              && |r| < |url| && r != [] && IsDigit(r[0])
  {
    match LastMatchBefore(url, |url|)
    case None => url
    case Some(k) =>
      var start := k + |Marker|;
      var end := start + LeadingDigits(url[start..]);
      url[start..end] + url[end + 1..]
  }

  /** `Integer.parseInt(s)` over ASCII digits: an optional sign, at least one
      digit, and a value in the 32-bit range. */
  function ParseInt(s: string): (r: Result<int, Exception>)
    ensures r.Ok? ==> InIntRange(r.value)
    ensures r.Err? ==> r.error == Unexpected(NumberFormat)
    ensures s == [] || s[0] != '+' ==>
              && (r.Ok? <==> ParseDecimal(s).Some? && InIntRange(ParseDecimal(s).value))
              && (r.Ok? ==> r.value == ParseDecimal(s).value)
    ensures s != [] && s[0] == '+' ==>
              && (r.Ok? <==> |s| > 1 && s[1] != '-' && ParseDecimal(s[1..]).Some?
                             && ParseDecimal(s[1..]).value <= MaxInt)
              && (r.Ok? ==> r.value == ParseDecimal(s[1..]).value)
  {
    if s == [] then Err(Unexpected(NumberFormat))
    else
      var digits := if s[0] == '-' || s[0] == '+' then s[1..] else s;
      if digits == [] || !AllDigits(digits) then Err(Unexpected(NumberFormat))
      else
        var v: int := if s[0] == '-' then -(DigitsValue(digits) as int) else DigitsValue(digits);
        if InIntRange(v) then Ok(v) else Err(Unexpected(NumberFormat))
  }

  /** `Integer.parseInt(url.replaceAll(...))`. A line terminator is never
      matched by `.` nor by the literal parts of the pattern, so it survives
      the replacement and `parseInt` rejects it. */
  function IdFromUrl(url: string): (r: Result<int, Exception>)
    ensures r.Ok? ==> InIntRange(r.value)
    ensures r.Err? ==> r.error == Unexpected(NumberFormat)
    ensures HasLineTerminator(url) ==> r.Err?
    ensures LastMatchBefore(url, |url|).None? && !HasLineTerminator(url) ==> r == ParseInt(url)
    ensures !HasLineTerminator(url) ==> r == ParseInt(ReplaceThroughLastSegment(url))
  {
    if HasLineTerminator(url) then Err(Unexpected(NumberFormat))
    else ParseInt(ReplaceThroughLastSegment(url))
  }

  /** `parseInt` reads back the decimal notation of every 32-bit integer. */
  lemma ParseIntOfIntToString(i: int)
    requires InIntRange(i)
    ensures ParseInt(IntToString(i)) == Ok(i)
  {
    IntToStringRoundTrip(i);
    var s := IntToString(i);
    if i < 0 {
      assert s[1..] == NatToString(-i);
    } else {
      NatToStringRoundTrip(i);
    }
  }

  lemma NoMatchAfterSegment(prefix: string, digits: string)
    requires IsNumericId(digits)
    ensures var url := prefix + Marker + digits + "/";
            forall q :: |prefix| < q < |url| ==> !MatchAt(url, q)
  {
    var url := prefix + Marker + digits + "/";
    var p := |prefix|;
    forall q | p < q < |url| ensures !MatchAt(url, q) {
      if q + |Marker| <= |url| {
        assert url[q..q + |Marker|][0] == url[q];
        assert url[q..q + |Marker|][1] == url[q + 1];
        if q < p + |Marker| {
          assert url[q] == Marker[q - p];
          assert q == p + 8 ==> url[q + 1] == digits[0];
        } else {
          assert url[q] == digits[q - p - |Marker|];
        }
      }
    }
  }

  /** A url ending in `/pokemon/<digits>/` yields the number those digits
      denote, whatever precedes the segment (earlier segments included) and
      whatever leading zeros the digits carry. */
  lemma {:induction false} IdFromCanonicalUrl(prefix: string, digits: string)
    requires !HasLineTerminator(prefix)
    requires IsNumericId(digits) && DigitsValue(digits) <= MaxInt
    ensures IdFromUrl(prefix + Marker + digits + "/") == Ok(DigitsValue(digits))
  {
    var url := prefix + Marker + digits + "/";
    SegmentIsLastMatch(prefix, digits);
    assert ReplaceThroughLastSegment(url) == digits by {
      var start := |prefix| + |Marker|;
      assert url[start..] == digits + "/";
      LeadingDigitsOfDigits(digits, "/");
      assert url[start..start + |digits|] == digits;
      assert url[start + |digits| + 1..] == [];
    }
    CanonicalUrlHasNoLineTerminator(prefix, digits);
  }

  /** In such a url the segment the pattern matches last is the final one. */
  lemma SegmentIsLastMatch(prefix: string, digits: string)
    requires IsNumericId(digits)
    ensures LastMatchBefore(prefix + Marker + digits + "/", |prefix + Marker + digits + "/"|) == Some(|prefix|)
  {
    var url := prefix + Marker + digits + "/";
    var p := |prefix|;
    var start := p + |Marker|;
    assert url[p..start] == Marker;
    assert url[start..] == digits + "/";
    LeadingDigitsOfDigits(digits, "/");
    assert MatchAt(url, p);
    NoMatchAfterSegment(prefix, digits);
  }

  lemma CanonicalUrlHasNoLineTerminator(prefix: string, digits: string)
    requires !HasLineTerminator(prefix) && AllDigits(digits)
    ensures !HasLineTerminator(prefix + Marker + digits + "/")
  {
    var url := prefix + Marker + digits + "/";
    var p := |prefix|;
    var start := p + |Marker|;
    forall i | 0 <= i < |url| ensures !IsLineTerminator(url[i]) {
      if i < p { assert url[i] == prefix[i]; }
      else if i < start { assert url[i] == Marker[i - p]; }
      else if i < start + |digits| { assert url[i] == digits[i - start]; }
    }
  }

  /** Without a `/pokemon/<digits>/` segment the whole url goes to `parseInt`,
      which rejects it unless all but its first character are digits. */
  lemma UrlWithoutSegment(url: string)
    requires forall q :: 0 <= q < |url| ==> !MatchAt(url, q)
    ensures !HasLineTerminator(url) ==> IdFromUrl(url) == ParseInt(url)
    ensures url == [] || !AllDigits(url[1..]) ==> IdFromUrl(url) == Err(Unexpected(NumberFormat))
  {
    assert LastMatchBefore(url, |url|) == None;
    if url != [] && !HasLineTerminator(url) && !AllDigits(url[1..]) {
      var k :| 0 <= k < |url[1..]| && !IsDigit(url[1..][k]);
      assert url[k + 1] == url[1..][k];
    }
  }

  // ----- Page of the list -----

  /** The link `"/api/v1/pokemon/list?offset=" + offset + "&limit=" + limit`. */
  function ListLink(offset: int, limit: int): string
  {
    ListPath + (IntToString(offset) + ("&limit=" + IntToString(limit)))
  }

  /** Different pages have different links: a link determines its offset and limit. */
  lemma ListLinkInjective(o1: int, l1: int, o2: int, l2: int)
    requires ListLink(o1, l1) == ListLink(o2, l2)
    ensures o1 == o2 && l1 == l2
  {
    var t1, t2 := "&limit=" + IntToString(l1), "&limit=" + IntToString(l2);
    var a1, a2 := IntToString(o1) + t1, IntToString(o2) + t2;
    assert a1 == (ListPath + a1)[|ListPath|..];
    assert a2 == (ListPath + a2)[|ListPath|..];
    assert t1[0] == '&' && t2[0] == '&';
    IntToStringPrefixFree(o1, o2, t1, t2);
    assert IntToString(l1) == t1[7..] && IntToString(l2) == t2[7..];
    IntToStringRoundTrip(l1);
    IntToStringRoundTrip(l2);
  }

  /** `next`: present when the `int` sum `offset + limit` is below `count`. */
  function NextLink(offset: int, limit: int, count: int): (r: Option<string>)
    ensures r.Some? <==> WrapInt(offset + limit) < count
    ensures r.Some? ==> r.value == ListLink(WrapInt(offset + limit), limit)
    ensures InIntRange(offset + limit) ==> (r.Some? <==> offset + limit < count)
  {
    var end := WrapInt(offset + limit);
    if end < count then Some(ListLink(end, limit)) else None
  }

  /** `previous`: present exactly when the page does not start at 0; it never
      goes below offset 0. */
  function PreviousLink(offset: int, limit: int): (r: Option<string>)
    ensures r.Some? <==> offset > 0
    ensures offset > 0 && InIntRange(offset - limit) ==>
              r == Some(ListLink(if offset > limit then offset - limit else 0, limit))
    ensures InIntRange(offset) && InIntRange(limit) && offset > 0 && !InIntRange(offset - limit) ==>
              r == Some(ListLink(0, limit))
  {
    var start := WrapInt(offset - limit);
    if offset > 0 then Some(ListLink(if start > 0 then start else 0, limit)) else None
  }

  /** Following `next` and then `previous` comes back to the same page, as
      long as `offset + limit` fits in an `int`. */
  lemma NextThenPrevious(offset: int, limit: int, count: int, o: int, l: int)
    requires offset >= 0 && limit > 0 && offset + limit <= MaxInt
    requires NextLink(offset, limit, count) == Some(ListLink(o, l))
    ensures PreviousLink(o, l) == Some(ListLink(offset, limit))
  {
    ListLinkInjective(offset + limit, limit, o, l);
  }

  /** When `offset + limit` overflows an `int`, the sum wraps to a negative
      number: a non-negative `count` then reports more results, and `next`
      points at a negative offset. */
  lemma OverflowedNextIsNegative(offset: int, limit: int, count: int)
    requires InIntRange(offset) && InIntRange(limit) && offset + limit > MaxInt && count >= 0
    ensures offset + limit - 0x1_0000_0000 < 0
    ensures NextLink(offset, limit, count) == Some(ListLink(offset + limit - 0x1_0000_0000, limit))
  {
    assert WrapInt(offset + limit) == offset + limit - 0x1_0000_0000;
  }

  /** An element of `results` the mapping can read: a map whose `name` is a
      string or `null` and whose `url` is a string `IdFromUrl` reads a number
      from. */
  predicate IsListEntry(raw: Json)
  {
    raw.JObj? && IsStringOrNull(Get(raw.fields, "name"))
    && Get(raw.fields, "url").JStr? && IdFromUrl(Get(raw.fields, "url").s).Ok?
  }

  /** One element of `results` mapped to a `PokemonListDto`: the name is the
      entry's own, the id is the one its url carries, and the image is the
      artwork path built from that id. */
  function ToListItem(raw: Json): (r: Result<PokemonListDto, Exception>)
    ensures r.Ok? <==> IsListEntry(raw)
    ensures r.Ok? ==> raw.JObj? && CastString(Get(raw.fields, "name")) == Ok(r.value.name)
                      && Get(raw.fields, "url").JStr?
                      && IdFromUrl(Get(raw.fields, "url").s) == Ok(r.value.id)
    ensures r.Ok? ==> r.value.image == ArtworkPrefix + IntToString(r.value.id) + ".png"
                      && r.value.types == [] && InIntRange(r.value.id)
    ensures r.Err? ==> r.error.Unexpected?
  {
    var pokemon :- DerefMap(raw);
    var name :- CastString(Get(pokemon, "name"));
    var url :- DerefString(Get(pokemon, "url"));
    var id :- IdFromUrl(url);
    Ok(PokemonListDto(id, name, ArtworkPrefix + IntToString(id) + ".png", []))
  }

  /** An entry as PokeAPI lists it: a name and the canonical url of the
      pokemon, whose id is the number in its last path segment. */
  lemma CanonicalListEntry(fields: map<string, Json>, prefix: string, digits: string)
    requires IsStringOrNull(Get(fields, "name"))
    requires Get(fields, "url") == JStr(prefix + Marker + digits + "/")
    requires !HasLineTerminator(prefix)
    requires IsNumericId(digits) && DigitsValue(digits) <= MaxInt
    ensures ToListItem(JObj(fields)).Ok?
    ensures ToListItem(JObj(fields)).value.id == DigitsValue(digits)
    ensures ToListItem(JObj(fields)).value.image == ArtworkPrefix + IntToString(DigitsValue(digits)) + ".png"
  {
    IdFromCanonicalUrl(prefix, digits);
  }

  /** A list response the page can be built from: an `int` `count` and a list
      of `results` every element of which is a readable entry. */
  predicate IsListResponse(response: map<string, Json>)
  {
    IsIntValue(Get(response, "count")) && Get(response, "results").JList?
    && forall i :: 0 <= i < |Get(response, "results").items| ==> IsListEntry(Get(response, "results").items[i])
  }

  /** `getPokemonPage(offset, limit)` over the decoded PokeAPI list response. */
  function GetPokemonPage(offset: int, limit: int, response: map<string, Json>): (r: Result<PokemonPageResponseDto, Exception>)
    requires InIntRange(offset) && InIntRange(limit)
    ensures r.Ok? <==> IsListResponse(response)
    ensures r.Err? ==> r.error.Unexpected?
    ensures r.Ok? ==> r.value.offset == offset && r.value.limit == limit
                      && UnboxInt(Get(response, "count")) == Ok(r.value.count)
    ensures r.Ok? ==> (r.value.hasMore <==> WrapInt(offset + limit) < r.value.count)
    ensures r.Ok? && InIntRange(offset + limit) ==> (r.value.hasMore <==> offset + limit < r.value.count)
    ensures r.Ok? ==> (r.value.next.Some? <==> r.value.hasMore)
                      && (r.value.hasMore ==> r.value.next == Some(ListLink(WrapInt(offset + limit), limit)))
    ensures r.Ok? ==> (r.value.previous.Some? <==> offset > 0)
                      && (offset > 0 ==>
                            r.value.previous == Some(ListLink(if WrapInt(offset - limit) > 0 then WrapInt(offset - limit) else 0, limit)))
                      && (offset > 0 && InIntRange(offset - limit) ==>
                            r.value.previous == Some(ListLink(if offset > limit then offset - limit else 0, limit)))
    ensures r.Ok? ==> Get(response, "results").JList?
                      && var results := Get(response, "results").items;
                         |r.value.data| == |results|
                         && forall i :: 0 <= i < |results| ==> ToListItem(results[i]) == Ok(r.value.data[i])
  {
    var count :- UnboxInt(Get(response, "count"));
    var results :- DerefList(Get(response, "results"));
    var pokemons :- MapToList(results, ToListItem);
    var hasMore := WrapInt(offset + limit) < count;
    Ok(PokemonPageResponseDto(count, offset, limit, hasMore,
                              NextLink(offset, limit, count), PreviousLink(offset, limit), pokemons))
  }

  // ----- Detail lookup -----

  /** A request the service sends to PokeAPI through the client. */
  datatype ApiCall = FetchPokemon(identifier: string) | FetchSpecies(identifier: string)

  /** What one client call returns: the decoded body or the exception it threw. */
  type ApiResponse = Result<map<string, Json>, Exception>

  /** The calls the lookup made, in order, and what it returned or threw. */
  datatype Lookup = Lookup(calls: seq<ApiCall>, result: Result<PokemonResponseDto, Exception>)

  /** `getPokemonByName(nameOrId)`: validation first, then the pokemon, then
      its species, then the description and the response record. */
  function GetPokemonByName(nameOrId: Option<string>, pokemonApi: string -> ApiResponse,
                            speciesApi: string -> ApiResponse): (r: Lookup)
    ensures ValidateAndNormalizeName(nameOrId).Err? ==>
              r == Lookup([], Err(ValidateAndNormalizeName(nameOrId).error))
    ensures ValidateAndNormalizeName(nameOrId).Ok? ==>
              var id := ValidateAndNormalizeName(nameOrId).value;
              && (pokemonApi(id).Err? ==> r == Lookup([FetchPokemon(id)], Err(pokemonApi(id).error)))
              && (pokemonApi(id).Ok? ==> r.calls == [FetchPokemon(id), FetchSpecies(id)])
              && (pokemonApi(id).Ok? && speciesApi(id).Err? ==> r.result == Err(speciesApi(id).error))
              && (pokemonApi(id).Ok? && speciesApi(id).Ok? ==>
                    var description := ExtractEnglishDescription(speciesApi(id).value);
                    && (description.Err? ==> r.result == Err(description.error))
                    && (description.Ok? ==> r.result == From(pokemonApi(id).value, description.value)))
    ensures r.result.Ok? ==>
              var id := ValidateAndNormalizeName(nameOrId).value;
              && ValidateAndNormalizeName(nameOrId).Ok?
              && pokemonApi(id).Ok? && speciesApi(id).Ok?
              && ExtractEnglishDescription(speciesApi(id).value) == Ok(r.result.value.description)
              && From(pokemonApi(id).value, r.result.value.description) == r.result
  {
    match ValidateAndNormalizeName(nameOrId)
    case Err(e) => Lookup([], Err(e))
    case Ok(identifier) =>
      match pokemonApi(identifier)
      case Err(e) => Lookup([FetchPokemon(identifier)], Err(e))
      case Ok(pokemonData) =>
        var calls := [FetchPokemon(identifier), FetchSpecies(identifier)];
        match speciesApi(identifier)
        case Err(e) => Lookup(calls, Err(e))
        case Ok(speciesData) =>
          match ExtractEnglishDescription(speciesData)
          case Err(e) => Lookup(calls, Err(e))
          case Ok(description) => Lookup(calls, From(pokemonData, description))
  }

  /** Whatever the client would answer, an identifier the validator rejects
      reaches no client call, and every call made uses the normalised
      identifier. */
  lemma ClientSeesOnlyNormalisedIds(nameOrId: Option<string>, pokemonApi: string -> ApiResponse,
                                    speciesApi: string -> ApiResponse)
    ensures var r := GetPokemonByName(nameOrId, pokemonApi, speciesApi);
            && (ValidateAndNormalizeName(nameOrId).Err? ==> r.calls == [])
            && (forall c :: c in r.calls ==>
                  ValidateAndNormalizeName(nameOrId) == Ok(c.identifier)
                  && ValidateAndNormalizeName(Some(c.identifier)) == Ok(c.identifier))
  {
    if ValidateAndNormalizeName(nameOrId).Ok? {
      CallsUseIdentifier(nameOrId, pokemonApi, speciesApi);
      ValidateIdempotent(nameOrId);
    }
  }

  lemma CallsUseIdentifier(nameOrId: Option<string>, pokemonApi: string -> ApiResponse,
                           speciesApi: string -> ApiResponse)
    requires ValidateAndNormalizeName(nameOrId).Ok?
    ensures forall c :: c in GetPokemonByName(nameOrId, pokemonApi, speciesApi).calls ==>
              c.identifier == ValidateAndNormalizeName(nameOrId).value
  {
    var id := ValidateAndNormalizeName(nameOrId).value;
    var r := GetPokemonByName(nameOrId, pokemonApi, speciesApi);
    if pokemonApi(id).Err? {
      assert r.calls == [FetchPokemon(id)];
    } else {
      assert r.calls == [FetchPokemon(id), FetchSpecies(id)];
    }
  }
}
