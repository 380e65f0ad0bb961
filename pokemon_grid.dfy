/** `PokemonGrid`: the cards of the loaded list and the three controls below
    them (spinner, load-more button, end message). */
module PokemonGrid {
  import opened Common
  import opened PokemonApi
  import opened PokemonCard

  /** What the grid shows. */
  datatype GridView = GridView(cards: seq<CardView>, spinner: bool, loadMore: bool, endMessage: bool)

  /** `PokemonGrid({ pokemonList, loading, hasMore })`. */
  function RenderGrid(colors: map<string, string>, pokemonList: seq<ListItem>, loading: bool, hasMore: bool): (v: GridView)
    ensures |v.cards| == |pokemonList|
    ensures forall i :: 0 <= i < |pokemonList| ==>
              v.cards[i] == RenderCard(colors, pokemonList[i]) && v.cards[i].key == pokemonList[i].id
    ensures v.spinner <==> loading
    ensures v.loadMore <==> !loading && hasMore
    ensures v.endMessage <==> !loading && !hasMore && |pokemonList| > 0
  {
    var cards := seq(|pokemonList|, i requires 0 <= i < |pokemonList| => RenderCard(colors, pokemonList[i]));
    GridView(cards, loading, !loading && hasMore, !loading && !hasMore && |pokemonList| > 0)
  }

  /** At most one of the three controls is shown; once loading is over and
      something is listed, exactly one of load-more and the end message is. */
  lemma ControlsExclusive(colors: map<string, string>, pokemonList: seq<ListItem>, loading: bool, hasMore: bool)
    ensures var v := RenderGrid(colors, pokemonList, loading, hasMore);
            && !(v.spinner && v.loadMore) && !(v.spinner && v.endMessage) && !(v.loadMore && v.endMessage)
            && (!loading && |pokemonList| > 0 ==> v.loadMore != v.endMessage)
  {
  }

  /** Clicking the card at position `i` hands the `i`-th list item to the
      click handler, unchanged. */
  lemma CardClickTarget(colors: map<string, string>, pokemonList: seq<ListItem>, loading: bool, hasMore: bool, i: nat)
    requires i < |pokemonList|
    ensures RenderGrid(colors, pokemonList, loading, hasMore).cards[i].pokemon == pokemonList[i]
  {
  }
}
