/** `PokemonCard`: the tile of one pokemon in the grid. Its primary-type
    fallback, background colour and id label are shared with the detail page. */
module PokemonCard {
  import opened Common
  import opened Text
  import opened PokemonApi

  /** JavaScript truthiness of a string that may be `null` or `undefined`. */
  predicate Truthy(s: Option<string>) { s.Some? && s.value != "" }

  /** `types?.[i]`: `None` when the list is missing, too short, or holds `null` there. */
  function TypeAt(types: Types, i: nat): (r: Option<string>)
    ensures r.Some? <==> types.Some? && i < |types.value| && types.value[i].Some?
    ensures r.Some? ==> r == types.value[i]
  {
    if types.Some? && i < |types.value| then types.value[i] else None
  }

  /** `pokemon.types?.[0] || 'normal'`. */
  function PrimaryType(types: Types): string
  {
    if Truthy(TypeAt(types, 0)) then TypeAt(types, 0).value else "normal"
  }

  /** `TYPE_COLORS[t]` when it is truthy; `None` for a type with no colour.
      `TYPE_COLORS` itself is a parameter. */
  function TypeColor(colors: map<string, string>, t: string): Option<string>
  {
    if t in colors && colors[t] != "" then Some(colors[t]) else None
  }

  /** `TYPE_COLORS[primaryType] || TYPE_COLORS.normal`. */
  function BackgroundColor(colors: map<string, string>, types: Types): (r: Option<string>)
    ensures r.Some? ==> r.value in colors.Values
    ensures r.None? <==> TypeColor(colors, PrimaryType(types)).None? && "normal" !in colors
  {
    match TypeColor(colors, PrimaryType(types))
    case Some(c) => Some(c)
    case None => if "normal" in colors then Some(colors["normal"]) else None
  }

  /** The card and the detail page take the colour of the first type when it
      has one and the `normal` colour in every other case: no types, an empty
      or `null` first type, or a type missing from the colour table. */
  lemma BackgroundFallsBackToNormal(colors: map<string, string>, types: Types)
    ensures var first := TypeAt(types, 0);
            && (Truthy(first) && TypeColor(colors, first.value).Some? ==>
                  BackgroundColor(colors, types) == Some(colors[first.value]))
            && ((!Truthy(first) || TypeColor(colors, first.value).None?) && "normal" in colors ==>
                  BackgroundColor(colors, types) == Some(colors["normal"]))
  {
  }

  /** `n` copies of `c`. */
  function Repeat(c: char, n: nat): (r: string)
    ensures |r| == n && forall i :: 0 <= i < n ==> r[i] == c
  {
    if n == 0 then [] else [c] + Repeat(c, n - 1)
  }

  /** `s.padStart(width, fill)`: `fill` repeated in front of `s` up to `width` characters. */
  function PadStart(s: string, width: nat, fill: char): (r: string)
    ensures |r| == (if |s| < width then width else |s|)
    ensures r[|r| - |s|..] == s
    ensures forall i :: 0 <= i < |r| - |s| ==> r[i] == fill
  {
    if |s| >= width then s else Repeat(fill, width - |s|) + s
  }

  /** `String(id).padStart(3, '0')`. */
  function IdLabel(id: int): (r: string)
    ensures |r| >= 3 && |r| >= |IntToString(id)|
    ensures r[|r| - |IntToString(id)|..] == IntToString(id)
    ensures forall i :: 0 <= i < |r| - |IntToString(id)| ==> r[i] == '0'
  {
    PadStart(IntToString(id), 3, '0')
  }

  /** The label of a non-negative id is a digit string of at least three
      characters that still denotes the id, so different ids get different
      labels. */
  lemma IdLabelReadsBack(id: nat)
    ensures var shown := IdLabel(id);
            |shown| >= 3 && AllDigits(shown) && DigitsValue(shown) == id
  {
    var s := IntToString(id);
    var shown := IdLabel(id);
    var zeros := shown[..|shown| - |s|];
    assert shown == zeros + s;
    DigitsValueLeadingZeros(zeros, s);
    NatToStringRoundTrip(id);
  }

  /** A negative id is padded in front of its sign. */
  lemma IdLabelOfNegative()
    ensures IdLabel(-1) == "0-1"
  {
    assert IntToString(-1) == "-1";
  }

  /** What the card shows; `pokemon` is what a click hands to `onClick`. */
  datatype CardView = CardView(
    key: int,
    background: Option<string>,
    idLabel: string,
    name: Option<string>,
    image: Option<string>,
    badge: Option<string>,
    pokemon: ListItem)

  /** `PokemonCard({ pokemon, onClick })`. */
  function RenderCard(colors: map<string, string>, pokemon: ListItem): (v: CardView)
    ensures v.pokemon == pokemon && v.key == pokemon.id
    ensures v.background == BackgroundColor(colors, pokemon.types)
    ensures v.idLabel == IdLabel(pokemon.id)
    ensures v.badge.Some? <==> Truthy(TypeAt(pokemon.types, 0))
    ensures v.name == pokemon.name && v.image == pokemon.image
  {
    var first := TypeAt(pokemon.types, 0);
    CardView(pokemon.id, BackgroundColor(colors, pokemon.types), IdLabel(pokemon.id),
             pokemon.name, pokemon.image, if Truthy(first) then first else None, pokemon)
  }

  /** The badge shows the actual first type, never the `normal` fallback: a
      card without a badge is one whose primary type fell back to `normal`. */
  lemma BadgeIsFirstType(colors: map<string, string>, pokemon: ListItem)
    ensures var v := RenderCard(colors, pokemon);
            && (v.badge.Some? ==> v.badge.value == PrimaryType(pokemon.types) == pokemon.types.value[0].value)
            && (v.badge.None? ==> PrimaryType(pokemon.types) == "normal")
  {
  }
}
