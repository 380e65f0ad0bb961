/** `pokemonService.js`: the browser side of the two backend calls. Each call
    builds its URL, hands it to `fetch`, and turns the outcome into the parsed
    body or a thrown `Error`. The outcome of `fetch` is an input. */
module PokemonApi {
  import opened Common
  import opened Text
  import opened PokemonValidator

  /** The types of a pokemon as the JSON gives them: the list may be missing
      and an element may be `null`. */
  type Types = Option<seq<Option<string>>>

  /** One element of `data` in a list page. */
  datatype ListItem = ListItem(id: int, name: Option<string>, image: Option<string>, types: Types)

  /** The list page body; the fields the front end reads. */
  datatype PageBody = PageBody(data: seq<ListItem>, offset: int, limit: int, hasMore: bool)

  /** The detail body. `stats` is the list of `Object.entries(pokemon.stats)`,
      `None` when the field is missing. */
  datatype Pokemon = Pokemon(
    id: int,
    name: Option<string>,
    image: Option<string>,
    types: Types,
    abilities: Option<seq<Option<string>>>,
    stats: Option<seq<(string, int)>>,
    height: int,
    weight: int,
    description: Option<string>)

  /** An `Error` as the front end sees it: its `message` and its `status`
      property, `None` when it has none. */
  datatype JsError = JsError(message: string, status: Option<int>)

  /** What `response.json()` gives: the body or the parse error it throws. */
  datatype JsonBody<B> = Parsed(value: B) | Unparsable(reason: string)

  /** What `fetch` gives: a response (status and body) or the rejection of the
      request itself. */
  datatype FetchOutcome<B> = Responded(status: int, body: JsonBody<B>) | Transport(reason: string)

  /** The URL a call requested and what it returned or threw. */
  datatype Call<B> = Call(url: string, result: Result<B, JsError>)

  const ListFailure := "Failed to fetch Pokemon list"
  const DetailFailure := "Pokemon not found"

  /** `response.ok`. */
  predicate IsOk(status: int) { 200 <= status <= 299 }

  /** The shared handling of an outcome: a non-ok status throws `failure`; a
      rejected request or an unparsable body rethrows, as a plain error with
      no `status`. */
  function Settle<B>(outcome: FetchOutcome<B>, failure: string): (r: Result<B, JsError>)
    ensures r.Err? ==> r.error.status.None?
    ensures r.Ok? <==> outcome.Responded? && IsOk(outcome.status) && outcome.body.Parsed?
    ensures r.Ok? ==> r.value == outcome.body.value
    ensures outcome.Responded? && !IsOk(outcome.status) ==> r == Err(JsError(failure, None))
    ensures outcome.Transport? ==> r == Err(JsError(outcome.reason, None))
    ensures outcome.Responded? && IsOk(outcome.status) && outcome.body.Unparsable? ==>
              r == Err(JsError(outcome.body.reason, None))
  {
    match outcome
    case Transport(reason) => Err(JsError(reason, None))
    case Responded(status, body) =>
      if !IsOk(status) then Err(JsError(failure, None))
      else match body
        case Parsed(value) => Ok(value)
        case Unparsable(reason) => Err(JsError(reason, None))
  }

  /** `${API_BASE_URL}/list?offset=${offset}&limit=${limit}`. */
  function ListUrl(base: string, offset: int, limit: int): (u: string)
    ensures |u| > |base| + 13 && u[..|base| + 13] == base + "/list?offset="
    ensures |u| > |IntToString(limit)| + 7
            && u[|u| - |IntToString(limit)| - 7..] == "&limit=" + IntToString(limit)
  {
    base + ("/list?offset=" + (IntToString(offset) + ("&limit=" + IntToString(limit))))
  }

  /** `${API_BASE_URL}/${nameOrId.toLowerCase()}`: lower-cased, not trimmed. */
  function DetailUrl(base: string, nameOrId: string): (u: string)
    ensures |u| == |base| + 1 + |nameOrId| && u[..|base| + 1] == base + "/"
    ensures forall i :: 0 <= i < |nameOrId| ==> u[|base| + 1 + i] == LowerChar(nameOrId[i])
  {
    base + "/" + AsciiLower(nameOrId)
  }

  /** `getPokemonList(offset = 0, limit = 20)`; `None` is an omitted argument. */
  function GetPokemonList(base: string, offset: Option<int>, limit: Option<int>,
                          outcome: FetchOutcome<PageBody>): (r: Call<PageBody>)
    ensures r.url == ListUrl(base, if offset.Some? then offset.value else 0,
                                   if limit.Some? then limit.value else 20)
    ensures r.result == Settle(outcome, ListFailure)
  {
    var o := if offset.Some? then offset.value else 0;
    var l := if limit.Some? then limit.value else 20;
    Call(ListUrl(base, o, l), Settle(outcome, ListFailure))
  }

  /** `getPokemonDetails(nameOrId)`. */
  function GetPokemonDetails(base: string, nameOrId: string, outcome: FetchOutcome<Pokemon>): (r: Call<Pokemon>)
    ensures r.url == DetailUrl(base, nameOrId)
    ensures r.result == Settle(outcome, DetailFailure)
  {
    Call(DetailUrl(base, nameOrId), Settle(outcome, DetailFailure))
  }

  /** Two list requests go to the same URL only when they ask for the same page. */
  lemma ListUrlInjective(base: string, o1: int, l1: int, o2: int, l2: int)
    requires ListUrl(base, o1, l1) == ListUrl(base, o2, l2)
    ensures o1 == o2 && l1 == l2
  {
    var p := "/list?offset=";
    var t1, t2 := "&limit=" + IntToString(l1), "&limit=" + IntToString(l2);
    var a1, a2 := IntToString(o1) + t1, IntToString(o2) + t2;
    assert p + a1 == (base + (p + a1))[|base|..];
    assert p + a2 == (base + (p + a2))[|base|..];
    assert a1 == (p + a1)[|p|..] && a2 == (p + a2)[|p|..];
    assert t1[0] == '&' && t2[0] == '&';
    IntToStringPrefixFree(o1, o2, t1, t2);
    assert IntToString(l1) == t1[7..] && IntToString(l2) == t2[7..];
    IntToStringRoundTrip(l1);
    IntToStringRoundTrip(l2);
  }

  /** Whatever the backend answers, an error from either call has no `status`. */
  lemma ErrorsCarryNoStatus(base: string, nameOrId: string, o: Option<int>, l: Option<int>,
                            listOutcome: FetchOutcome<PageBody>, detailOutcome: FetchOutcome<Pokemon>)
    ensures GetPokemonList(base, o, l, listOutcome).result.Err? ==>
              GetPokemonList(base, o, l, listOutcome).result.error.status == None
    ensures GetPokemonDetails(base, nameOrId, detailOutcome).result.Err? ==>
              GetPokemonDetails(base, nameOrId, detailOutcome).result.error.status == None
  {
  }

  /** Every non-ok detail response, 404, 400, 500 or 503 alike, becomes the
      same error. */
  lemma DetailStatusIsDiscarded(base: string, nameOrId: string, s1: int, s2: int,
                                b1: JsonBody<Pokemon>, b2: JsonBody<Pokemon>)
    requires !IsOk(s1) && !IsOk(s2)
    ensures GetPokemonDetails(base, nameOrId, Responded(s1, b1)).result
         == GetPokemonDetails(base, nameOrId, Responded(s2, b2)).result
         == Err(JsError(DetailFailure, None))
  {
  }

  /** For an identifier the backend accepts and would not trim, the path
      segment the front end requests is already the backend's normalised
      identifier: both sides lower-case the same ASCII letters. */
  lemma DetailSegmentIsNormalised(nameOrId: string)
    requires Trim(nameOrId) == nameOrId && ValidateAndNormalizeName(Some(nameOrId)).Ok?
    ensures AsciiLower(nameOrId) == ValidateAndNormalizeName(Some(nameOrId)).value
  {
    if IsNumericId(nameOrId) {
      assert forall i :: 0 <= i < |nameOrId| ==> AsciiLower(nameOrId)[i] == nameOrId[i];
    }
  }
}
