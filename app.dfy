/** `App`: the state cells of the page and the handlers that update them. Each
    handler runs to completion over a given `fetch` outcome; the toasts it
    raises and the URLs it requests are kept in two logs so that they can be
    stated. */
module App {
  import opened Common
  import opened PokemonApi
  import opened PokemonCard
  import opened PokemonDetail
  import opened PokemonGrid

  /** The `pagination` cell. */
  datatype Pagination = Pagination(offset: int, limit: int, hasMore: bool)

  datatype ToastKind = ErrorToast | WarningToast

  /** One `toast.error(text)` or `toast.warning(text)`. */
  datatype Toast = Toast(kind: ToastKind, text: string)

  /** The state cells, the toasts raised so far and the URLs requested so far. */
  datatype State = State(
    pokemonList: seq<ListItem>,
    selectedPokemon: Option<Pokemon>,
    searchQuery: string,
    loading: bool,
    error: Option<string>,
    pagination: Pagination,
    toasts: seq<Toast>,
    requests: seq<string>)

  const ListLoadFailure := "Failed to load Pok\U{e9}mon list"
  const BlankQuery := "Please enter a Pok\U{e9}mon name or ID"
  const ServiceUnavailable := "Pok\U{e9}API service is unavailable. Try again later."
  const GenericFailure := "Something went wrong. Please try again."

  /** The `useState` initial values. */
  function InitialState(): State
  {
    State([], None, "", false, None, Pagination(0, 20, true), [], [])
  }

  /** The characters JavaScript's `String.prototype.trim` removes. */
  predicate IsJsWhitespace(c: char)
  {
    ('\t' <= c <= '\r') || c == ' ' || c == '\U{00A0}' || c == '\U{1680}'
    || ('\U{2000}' <= c <= '\U{200A}') || c == '\U{2028}' || c == '\U{2029}'
    || c == '\U{202F}' || c == '\U{205F}' || c == '\U{3000}' || c == '\U{FEFF}'
  }

  function JsTrimStart(s: string): (t: string)
    ensures |t| <= |s| && t == s[|s| - |t|..]
    ensures forall i :: 0 <= i < |s| - |t| ==> IsJsWhitespace(s[i])
    ensures t != [] ==> !IsJsWhitespace(t[0])
  {
    if s != [] && IsJsWhitespace(s[0]) then JsTrimStart(s[1..]) else s
  }

  function JsTrimEnd(s: string): (t: string)
    ensures |t| <= |s| && t == s[..|t|]
    ensures forall i :: |t| <= i < |s| ==> IsJsWhitespace(s[i])
    ensures t != [] ==> !IsJsWhitespace(t[|t| - 1])
  {
    if s != [] && IsJsWhitespace(s[|s| - 1]) then JsTrimEnd(s[..|s| - 1]) else s
  }

  /** `s.trim()`. */
  function JsTrim(s: string): (t: string)
    ensures t != [] ==> !IsJsWhitespace(t[0]) && !IsJsWhitespace(t[|t| - 1])
  {
    JsTrimEnd(JsTrimStart(s))
  }

  /** A query is blank exactly when it is missing or all its characters are
      white space. */
  lemma BlankMeansWhitespace(nameOrId: Option<string>)
    ensures IsBlank(nameOrId) <==>
              nameOrId.None? || forall i :: 0 <= i < |nameOrId.value| ==> IsJsWhitespace(nameOrId.value[i])
  {
    if nameOrId.Some? {
      var s := nameOrId.value;
      var t := JsTrimStart(s);
      assert JsTrim(s) == [] <==> t == [] || JsTrimEnd(t) == [];
    }
  }

  /** `!nameOrId || !nameOrId.trim()`. */
  predicate IsBlank(nameOrId: Option<string>)
  {
    nameOrId.None? || JsTrim(nameOrId.value) == []
  }

  /** The new `pokemonList`: `offset === 0 ? data.data : [...prev, ...data.data]`. */
  function MergePage(prev: seq<ListItem>, offset: int, page: seq<ListItem>): seq<ListItem>
  {
    if offset == 0 then page else prev + page
  }

  /** `fetchPokemonList(offset, limit)` from state `s`. */
  function ListFetched(s: State, base: string, offset: int, limit: int, outcome: FetchOutcome<PageBody>): (t: State)
    ensures !t.loading && t.requests == s.requests + [ListUrl(base, offset, limit)]
    ensures t.selectedPokemon == s.selectedPokemon && t.searchQuery == s.searchQuery
    ensures t.toasts == s.toasts || t.toasts == s.toasts + [Toast(ErrorToast, ListLoadFailure)]
  {
    var call := GetPokemonList(base, Some(offset), Some(limit), outcome);
    var started := s.(loading := true, error := None, requests := s.requests + [call.url]);
    match call.result
    case Ok(data) =>
      started.(pokemonList := MergePage(s.pokemonList, offset, data.data),
               pagination := Pagination(data.offset, data.limit, data.hasMore),
               loading := false)
    case Err(_) =>
      started.(toasts := s.toasts + [Toast(ErrorToast, ListLoadFailure)],
               error := Some(ListLoadFailure),
               loading := false)
  }

  /** The notification `fetchPokemonDetails` raises for a failure, chosen by
      the error's `status`. */
  function DetailToast(err: JsError): Toast
  {
    if err.status == Some(404) then Toast(ErrorToast, err.message)
    else if err.status == Some(400) then Toast(WarningToast, err.message)
    else if err.status == Some(503) then Toast(ErrorToast, ServiceUnavailable)
    else Toast(ErrorToast, GenericFailure)
  }

  /** `fetchPokemonDetails(nameOrId)` from state `s`. */
  function DetailFetched(s: State, base: string, nameOrId: Option<string>, outcome: FetchOutcome<Pokemon>): (t: State)
    ensures t.pokemonList == s.pokemonList && t.pagination == s.pagination && t.searchQuery == s.searchQuery
    ensures IsBlank(nameOrId) ==> t.requests == s.requests && t.loading == s.loading
    ensures !IsBlank(nameOrId) ==> t.requests == s.requests + [DetailUrl(base, nameOrId.value)] && !t.loading
  {
    if IsBlank(nameOrId) then s.(toasts := s.toasts + [Toast(WarningToast, BlankQuery)])
    else DetailSent(s, base, nameOrId.value, outcome)
  }

  /** `fetchPokemonDetails` past its blank check: the request for `nameOrId` and its outcome. */
  function DetailSent(s: State, base: string, nameOrId: string, outcome: FetchOutcome<Pokemon>): (t: State)
    ensures t.pokemonList == s.pokemonList && t.pagination == s.pagination && t.searchQuery == s.searchQuery
    ensures t.requests == s.requests + [DetailUrl(base, nameOrId)] && !t.loading
    ensures |s.toasts| <= |t.toasts| <= |s.toasts| + 1 && t.toasts[..|s.toasts|] == s.toasts
  {
    var call := GetPokemonDetails(base, nameOrId, outcome);
    DetailSettled(s.(loading := true, error := None, requests := s.requests + [call.url]), call.result)
  }

  /** The `try`/`catch`/`finally` of `fetchPokemonDetails` once the request is sent. */
  function DetailSettled(started: State, result: Result<Pokemon, JsError>): (t: State)
    ensures t.pokemonList == started.pokemonList && t.pagination == started.pagination
            && t.searchQuery == started.searchQuery && t.requests == started.requests && !t.loading
    ensures |started.toasts| <= |t.toasts| <= |started.toasts| + 1 && t.toasts[..|started.toasts|] == started.toasts
  {
    match result
    case Ok(pokemon) => started.(selectedPokemon := Some(pokemon), loading := false)
    case Err(err) =>
      started.(selectedPokemon := None, toasts := started.toasts + [DetailToast(err)],
               error := Some(err.message), loading := false)
  }

  /** `handleSearch()`. */
  function Searched(s: State, base: string, outcome: FetchOutcome<Pokemon>): (t: State)
    ensures JsTrim(s.searchQuery) == [] ==> t == s
    ensures t.searchQuery == s.searchQuery && t.pokemonList == s.pokemonList
    ensures JsTrim(s.searchQuery) != [] ==> t.requests == s.requests + [DetailUrl(base, JsTrim(s.searchQuery))]
  {
    if JsTrim(s.searchQuery) != [] then DetailFetched(s, base, Some(JsTrim(s.searchQuery)), outcome) else s
  }

  /** `handleExampleClick(name)`. */
  function ExampleClicked(s: State, base: string, name: string, outcome: FetchOutcome<Pokemon>): State
  {
    DetailFetched(s.(searchQuery := name), base, Some(name), outcome)
  }

  /** `handleCardClick(pokemon)`. */
  function CardClicked(s: State, base: string, pokemon: ListItem, outcome: FetchOutcome<Pokemon>): State
  {
    DetailFetched(s, base, pokemon.name, outcome)
  }

  /** `handleLoadMore()`: the page after the current one, with no check of `hasMore`. */
  function LoadedMore(s: State, base: string, outcome: FetchOutcome<PageBody>): (t: State)
    ensures t.requests == s.requests + [ListUrl(base, s.pagination.offset + s.pagination.limit, s.pagination.limit)]
    ensures !t.loading
  {
    ListFetched(s, base, s.pagination.offset + s.pagination.limit, s.pagination.limit, outcome)
  }

  /** `handleBackToHome()`. */
  function BackToHome(s: State): (t: State)
    ensures t.selectedPokemon.None? && t.searchQuery == ""
    ensures t.pokemonList == s.pokemonList && t.pagination == s.pagination && t.loading == s.loading
            && t.error == s.error && t.toasts == s.toasts && t.requests == s.requests
  {
    s.(selectedPokemon := None, searchQuery := "")
  }

  /** What the page shows below the header. */
  datatype Screen = DetailScreen(detail: DetailView) | GridScreen(grid: GridView)

  /** `selectedPokemon ? <PokemonDetail> : <PokemonGrid>`. */
  function CurrentScreen(colors: map<string, string>, s: State): (r: Screen)
    ensures r.DetailScreen? <==> s.selectedPokemon.Some?
    ensures r.DetailScreen? ==> r.detail == RenderDetail(colors, s.selectedPokemon.value)
    ensures r.GridScreen? ==> r.grid == RenderGrid(colors, s.pokemonList, s.loading, s.pagination.hasMore)
  {
    match s.selectedPokemon
    case Some(pokemon) => DetailScreen(RenderDetail(colors, pokemon))
    case None => GridScreen(RenderGrid(colors, s.pokemonList, s.loading, s.pagination.hasMore))
  }

  // ----- Properties of the handlers -----

  /** A successful list fetch at offset 0 replaces the list; at any other
      offset it appends the page after the items already there, keeping
      duplicates. The pagination is the one the response reports. */
  lemma ListFetchSucceeds(s: State, base: string, offset: int, limit: int, outcome: FetchOutcome<PageBody>)
    requires GetPokemonList(base, Some(offset), Some(limit), outcome).result.Ok?
    ensures var data := GetPokemonList(base, Some(offset), Some(limit), outcome).result.value;
            var t := ListFetched(s, base, offset, limit, outcome);
            && (offset == 0 ==> t.pokemonList == data.data)
            && (offset != 0 ==> t.pokemonList[..|s.pokemonList|] == s.pokemonList
                                && t.pokemonList[|s.pokemonList|..] == data.data
                                && multiset(t.pokemonList) == multiset(s.pokemonList) + multiset(data.data))
            && t.pagination == Pagination(data.offset, data.limit, data.hasMore)
            && t.error.None? && !t.loading && t.toasts == s.toasts
            && t.selectedPokemon == s.selectedPokemon && t.searchQuery == s.searchQuery
  {
    var data := GetPokemonList(base, Some(offset), Some(limit), outcome).result.value;
    if offset != 0 {
      var t := ListFetched(s, base, offset, limit, outcome);
      assert t.pokemonList == s.pokemonList + data.data;
    }
  }

  /** A failed list fetch (a rejected request, a non-ok status or an
      unparsable body) leaves the list and the pagination as they were,
      records the failure and raises one error toast. */
  lemma ListFetchFails(s: State, base: string, offset: int, limit: int, outcome: FetchOutcome<PageBody>)
    requires !(outcome.Responded? && IsOk(outcome.status) && outcome.body.Parsed?)
    ensures var t := ListFetched(s, base, offset, limit, outcome);
            && t.pokemonList == s.pokemonList && t.pagination == s.pagination
            && t.error == Some(ListLoadFailure) && !t.loading
            && t.toasts == s.toasts + [Toast(ErrorToast, ListLoadFailure)]
            && t.requests == s.requests + [ListUrl(base, offset, limit)]
  {
  }

  /** A `null` or blank detail query sends no request and changes nothing but
      the warning it raises. */
  lemma BlankQueryRequestsNothing(s: State, base: string, nameOrId: Option<string>, outcome: FetchOutcome<Pokemon>)
    requires IsBlank(nameOrId)
    ensures DetailFetched(s, base, nameOrId, outcome) == s.(toasts := s.toasts + [Toast(WarningToast, BlankQuery)])
  {
  }

  /** `handleSearch` does nothing at all for a blank query; otherwise it
      requests the trimmed query, lower-cased. */
  lemma SearchUsesTrimmedQuery(s: State, base: string, outcome: FetchOutcome<Pokemon>)
    ensures JsTrim(s.searchQuery) == [] ==> Searched(s, base, outcome) == s
    ensures JsTrim(s.searchQuery) != [] ==>
              Searched(s, base, outcome).requests == s.requests + [DetailUrl(base, JsTrim(s.searchQuery))]
  {
    var q := JsTrim(s.searchQuery);
    if q != [] {
      JsTrimOfTrimmed(q);
      assert !IsBlank(Some(q));
      assert Searched(s, base, outcome) == DetailFetched(s, base, Some(q), outcome);
      DetailRequest(s, base, q, outcome);
    }
  }

  /** A query that is not blank is requested exactly once. */
  lemma DetailRequest(s: State, base: string, q: string, outcome: FetchOutcome<Pokemon>)
    requires !IsBlank(Some(q))
    ensures DetailFetched(s, base, Some(q), outcome).requests == s.requests + [DetailUrl(base, q)]
  {
  }

  /** Trimming twice trims nothing more. */
  lemma JsTrimOfTrimmed(q: string)
    requires q == [] || (!IsJsWhitespace(q[0]) && !IsJsWhitespace(q[|q| - 1]))
    ensures JsTrim(q) == q
  {
    assert JsTrimStart(q) == q;
    assert JsTrimEnd(q) == q;
  }

  /** The front end's service never gives an error a `status`, so a failed
      detail fetch always raises the generic notification: the 404, 400 and
      503 branches cannot be taken. The selection is cleared and the error
      message kept. */
  lemma DetailFailureIsGeneric(s: State, base: string, nameOrId: Option<string>, outcome: FetchOutcome<Pokemon>)
    requires !IsBlank(nameOrId)
    requires !(outcome.Responded? && IsOk(outcome.status) && outcome.body.Parsed?)
    ensures var t := DetailFetched(s, base, nameOrId, outcome);
            && t.toasts == s.toasts + [Toast(ErrorToast, GenericFailure)]
            && t.selectedPokemon.None?
            && t.error == Some(GetPokemonDetails(base, nameOrId.value, outcome).result.error.message)
            && (outcome.Transport? ==> t.error == Some(outcome.reason))
            && (outcome.Responded? && !IsOk(outcome.status) ==> t.error == Some(DetailFailure))
            && !t.loading
  {
    var err := GetPokemonDetails(base, nameOrId.value, outcome).result.error;
    StatuslessErrorIsGeneric(err);
  }

  lemma StatuslessErrorIsGeneric(err: JsError)
    requires err.status.None?
    ensures DetailToast(err) == Toast(ErrorToast, GenericFailure)
  {
  }

  /** A non-ok detail response is reported to the user as "Pokemon not found"
      in the error cell, whatever its status, 503 and 500 included. */
  lemma DetailErrorMessageHidesStatus(s: State, base: string, nameOrId: Option<string>, status: int, body: JsonBody<Pokemon>)
    requires !IsBlank(nameOrId) && !IsOk(status)
    ensures DetailFetched(s, base, nameOrId, Responded(status, body)).error == Some(DetailFailure)
  {
  }

  /** A successful detail fetch selects the pokemon the response holds, with
      the error cleared, no notification, and the list left alone. */
  lemma DetailFetchSucceeds(s: State, base: string, nameOrId: Option<string>, outcome: FetchOutcome<Pokemon>)
    requires !IsBlank(nameOrId)
    requires outcome.Responded? && IsOk(outcome.status) && outcome.body.Parsed?
    ensures var t := DetailFetched(s, base, nameOrId, outcome);
            && t.selectedPokemon == Some(outcome.body.value)
            && t.error.None? && !t.loading && t.toasts == s.toasts
            && t.pokemonList == s.pokemonList && t.pagination == s.pagination
  {
  }

  /** The notification chosen for each status an error could carry: 404 and
      400 show the error's own message, as an error and as a warning; 503
      shows the fixed unavailability text; anything else, and no status at
      all, the generic text. */
  lemma DetailToastByStatus(err: JsError)
    ensures err.status == Some(404) ==> DetailToast(err) == Toast(ErrorToast, err.message)
    ensures err.status == Some(400) ==> DetailToast(err) == Toast(WarningToast, err.message)
    ensures err.status == Some(503) ==> DetailToast(err) == Toast(ErrorToast, ServiceUnavailable)
    ensures err.status !in {Some(404), Some(400), Some(503)} ==> DetailToast(err) == Toast(ErrorToast, GenericFailure)
  {
  }

  /** Every fetch ends with the page idle: whether it succeeds or fails,
      `loading` is false when it returns, and a blank detail query leaves it
      as it was. */
  lemma FetchesEndIdle(s: State, base: string, offset: int, limit: int, nameOrId: Option<string>,
                       listOutcome: FetchOutcome<PageBody>, detailOutcome: FetchOutcome<Pokemon>)
    ensures !ListFetched(s, base, offset, limit, listOutcome).loading
    ensures !IsBlank(nameOrId) ==> !DetailFetched(s, base, nameOrId, detailOutcome).loading
    ensures IsBlank(nameOrId) ==> DetailFetched(s, base, nameOrId, detailOutcome).loading == s.loading
  {
  }

  /** Mounting loads the first page; loading more then requests the page that
      starts where the first one ended and appends it, so the list is the two
      pages in order. */
  lemma FirstTwoPages(base: string, page1: PageBody, page2: PageBody)
    requires page1.offset == 0 && page1.limit == 20
    ensures var s1 := ListFetched(InitialState(), base, 0, 20, Responded(200, Parsed(page1)));
            var s2 := LoadedMore(s1, base, Responded(200, Parsed(page2)));
            && s1.requests == [ListUrl(base, 0, 20)]
            && s2.requests == [ListUrl(base, 0, 20), ListUrl(base, 20, 20)]
            && s2.pokemonList == page1.data + page2.data
            && s2.pagination == Pagination(page2.offset, page2.limit, page2.hasMore)
  {
  }

  /** Loading more does not look at `hasMore`: even on the last page it asks
      for the next one. Only the grid, which hides the button, prevents it. */
  lemma LoadMoreIgnoresHasMore(colors: map<string, string>, s: State, base: string, outcome: FetchOutcome<PageBody>)
    requires !s.pagination.hasMore
    ensures LoadedMore(s, base, outcome).requests
         == s.requests + [ListUrl(base, s.pagination.offset + s.pagination.limit, s.pagination.limit)]
    ensures s.selectedPokemon.None? ==> !CurrentScreen(colors, s).grid.loadMore
  {
  }

  /** Going back home always shows the grid, with the list and pagination
      kept as they were. */
  lemma BackToHomeShowsGrid(colors: map<string, string>, s: State)
    ensures var t := BackToHome(s);
            && CurrentScreen(colors, t) == GridScreen(RenderGrid(colors, s.pokemonList, s.loading, s.pagination.hasMore))
            && t.searchQuery == "" && t.pokemonList == s.pokemonList && t.pagination == s.pagination
            && t.toasts == s.toasts && t.requests == s.requests && t.error == s.error
  {
  }

  /** The component itself: its state cells as fields, its handlers as methods. */
  class App {
    const baseUrl: string
    var pokemonList: seq<ListItem>
    var selectedPokemon: Option<Pokemon>
    var searchQuery: string
    var loading: bool
    var error: Option<string>
    var pagination: Pagination
    var toasts: seq<Toast>
    var requests: seq<string>

    function Snapshot(): State
      reads this
    {
      State(pokemonList, selectedPokemon, searchQuery, loading, error, pagination, toasts, requests)
    }

    constructor(baseUrl: string)
      ensures this.baseUrl == baseUrl && Snapshot() == InitialState()
    {
      this.baseUrl := baseUrl;
      pokemonList := [];
      selectedPokemon := None;
      searchQuery := "";
      loading := false;
      error := None;
      pagination := Pagination(0, 20, true);
      toasts := [];
      requests := [];
    }

    /** The `useEffect` run once on mount. */
    method Mount(outcome: FetchOutcome<PageBody>)
      modifies this
      ensures Snapshot() == ListFetched(old(Snapshot()), baseUrl, 0, 20, outcome)
    {
      FetchPokemonList(0, 20, outcome);
    }

    method FetchPokemonList(offset: int, limit: int, outcome: FetchOutcome<PageBody>)
      modifies this
      ensures Snapshot() == ListFetched(old(Snapshot()), baseUrl, offset, limit, outcome)
    {
      loading := true;
      error := None;
      var call := GetPokemonList(baseUrl, Some(offset), Some(limit), outcome);
      requests := requests + [call.url];
      if call.result.Ok? {
        var data := call.result.value;
        pokemonList := if offset == 0 then data.data else pokemonList + data.data;
        pagination := Pagination(data.offset, data.limit, data.hasMore);
      } else {
        toasts := toasts + [Toast(ErrorToast, ListLoadFailure)];
        error := Some(ListLoadFailure);
      }
      loading := false;
    }

    method FetchPokemonDetails(nameOrId: Option<string>, outcome: FetchOutcome<Pokemon>)
      modifies this
      ensures Snapshot() == DetailFetched(old(Snapshot()), baseUrl, nameOrId, outcome)
    {
      if IsBlank(nameOrId) {
        toasts := toasts + [Toast(WarningToast, BlankQuery)];
        return;
      }
      SendDetails(nameOrId.value, outcome);
    }

    /** The part of `fetchPokemonDetails` after its blank check. */
    method SendDetails(nameOrId: string, outcome: FetchOutcome<Pokemon>)
      modifies this
      ensures Snapshot() == DetailSent(old(Snapshot()), baseUrl, nameOrId, outcome)
    {
      loading := true;
      error := None;
      var call := GetPokemonDetails(baseUrl, nameOrId, outcome);
      requests := requests + [call.url];
      SettleDetails(call.result);
    }

    /** The `try`/`catch`/`finally` of `fetchPokemonDetails` once the request is sent. */
    method SettleDetails(result: Result<Pokemon, JsError>)
      modifies this
      ensures Snapshot() == DetailSettled(old(Snapshot()), result)
    {
      match result {
        case Ok(pokemon) =>
          selectedPokemon := Some(pokemon);
        case Err(err) =>
          selectedPokemon := None;
          toasts := toasts + [DetailToast(err)];
          error := Some(err.message);
      }
      loading := false;
    }

    method HandleSearch(outcome: FetchOutcome<Pokemon>)
      modifies this
      ensures Snapshot() == Searched(old(Snapshot()), baseUrl, outcome)
    {
      var query := JsTrim(searchQuery);
      if query != [] {
        FetchPokemonDetails(Some(query), outcome);
      }
    }

    method HandleExampleClick(name: string, outcome: FetchOutcome<Pokemon>)
      modifies this
      ensures Snapshot() == ExampleClicked(old(Snapshot()), baseUrl, name, outcome)
    {
      searchQuery := name;
      FetchPokemonDetails(Some(name), outcome);
    }

    method HandleCardClick(pokemon: ListItem, outcome: FetchOutcome<Pokemon>)
      modifies this
      ensures Snapshot() == CardClicked(old(Snapshot()), baseUrl, pokemon, outcome)
    {
      FetchPokemonDetails(pokemon.name, outcome);
    }

    method HandleLoadMore(outcome: FetchOutcome<PageBody>)
      modifies this
      ensures Snapshot() == LoadedMore(old(Snapshot()), baseUrl, outcome)
    {
      var nextOffset := pagination.offset + pagination.limit;
      FetchPokemonList(nextOffset, pagination.limit, outcome);
    }

    method HandleBackToHome()
      modifies this
      ensures Snapshot() == BackToHome(old(Snapshot()))
    {
      selectedPokemon := None;
      searchQuery := "";
    }

    /** `setSearchQuery`, as the header's input calls it. */
    method SetSearchQuery(query: string)
      modifies this
      ensures Snapshot() == old(Snapshot()).(searchQuery := query)
    {
      searchQuery := query;
    }
  }
}
