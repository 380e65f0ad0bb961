/** `PokemonDetail`: the values the detail page derives from a pokemon: its
    background, id label, height and weight texts, and one row per base stat. */
module PokemonDetail {
  import opened Common
  import opened Text
  import opened PokemonApi
  import opened PokemonCard

  /** The page background: a two-colour gradient or one solid colour. A
      colour is `None` when the colour table has none to give. */
  datatype Background = Gradient(from: Option<string>, to: string) | Solid(color: Option<string>)

  /** `secondaryColor ? linear-gradient(bgColor, secondaryColor) : bgColor`,
      where `secondaryColor` is the colour of `types?.[1]` when that type is truthy. */
  function DetailBackground(colors: map<string, string>, types: Types): (b: Background)
    ensures b.Gradient? <==> Truthy(TypeAt(types, 1)) && TypeColor(colors, TypeAt(types, 1).value).Some?
    ensures b.Gradient? ==> b.from == BackgroundColor(colors, types)
                            && b.to == colors[TypeAt(types, 1).value] && b.to != ""
    ensures b.Solid? ==> b.color == BackgroundColor(colors, types)
  {
    var secondaryType := TypeAt(types, 1);
    var secondaryColor := if Truthy(secondaryType) then TypeColor(colors, secondaryType.value) else None;
    match secondaryColor
    case Some(c) => Gradient(BackgroundColor(colors, types), c)
    case None => Solid(BackgroundColor(colors, types))
  }

  /** A pokemon with at most one type always has a solid background, the one
      its card has. */
  lemma SingleTypeIsSolid(colors: map<string, string>, types: Types)
    requires types.None? || |types.value| <= 1
    ensures DetailBackground(colors, types) == Solid(BackgroundColor(colors, types))
  {
  }

  /** `(n / 10).toFixed(1)` for an integer `n`: the tenths written out exactly. */
  function FormatTenths(n: int): (r: string)
    ensures |r| >= 3 && r[|r| - 2] == '.' && IsDigit(r[|r| - 1])
    ensures n < 0 <==> r[0] == '-'
  {
    var m := if n < 0 then -n else n;
    (if n < 0 then "-" else "") + NatToString(m / 10) + "." + [DigitChar(m % 10)]
  }

  /** `t` is digits, a point and one digit, denoting `m` tenths. */
  predicate DenotesTenths(t: string, m: nat)
  {
    |t| >= 3 && t[|t| - 2] == '.' && IsDigit(t[|t| - 1]) && AllDigits(t[..|t| - 2])
    && 10 * DigitsValue(t[..|t| - 2]) + DigitValue(t[|t| - 1]) == m
  }

  /** The text reads back as the number of tenths it was made from: after the
      sign of a negative `n`, the digits before the point are `|n| div 10`
      and the one after it is `|n| mod 10`. */
  lemma FormatTenthsReadsBack(n: int)
    ensures var r := FormatTenths(n);
            if n < 0 then DenotesTenths(r[1..], -n) else DenotesTenths(r, n)
  {
    var r := FormatTenths(n);
    var m := if n < 0 then -n else n;
    var t := if n < 0 then r[1..] else r;
    assert t == NatToString(m / 10) + "." + [DigitChar(m % 10)];
    assert t[..|t| - 2] == NatToString(m / 10);
    NatToStringRoundTrip(m / 10);
  }

  lemma FormatTenthsExamples()
    ensures FormatTenths(7) == "0.7"
    ensures FormatTenths(69) == "6.9"
  {
    assert NatToString(0) == "0";
    assert NatToString(6) == "6";
  }

  /** The height line, `${...} m`. */
  function HeightText(height: int): (r: string)
    ensures |r| >= 5 && r[|r| - 2..] == " m"
    ensures height < 0 <==> r[0] == '-'
    ensures if height < 0 then DenotesTenths(r[1..|r| - 2], -height) else DenotesTenths(r[..|r| - 2], height)
  {
    FormatTenthsReadsBack(height);
    var t := FormatTenths(height);
    assert (t + " m")[..|t|] == t;
    t + " m"
  }

  /** The weight line, `${...} kg`. */
  function WeightText(weight: int): (r: string)
    ensures |r| >= 6 && r[|r| - 3..] == " kg"
    ensures weight < 0 <==> r[0] == '-'
    ensures if weight < 0 then DenotesTenths(r[1..|r| - 3], -weight) else DenotesTenths(r[..|r| - 3], weight)
  {
    FormatTenthsReadsBack(weight);
    var t := FormatTenths(weight);
    assert (t + " kg")[..|t|] == t;
    t + " kg"
  }

  const Purple := "#8b5cf6"
  const Blue := "#3b82f6"
  const Green := "#10b981"
  const Orange := "#f59e0b"
  const Red := "#ef4444"

  /** The bar colour of a stat value. */
  function StatColor(value: int): (c: string)
    ensures c == Purple || c == Blue || c == Green || c == Orange || c == Red
  {
    if value >= 150 then Purple
    else if value >= 100 then Blue
    else if value >= 70 then Green
    else if value >= 40 then Orange
    else Red
  }

  /** The position of a colour on the scale from low (0) to excellent (4). */
  function Band(c: string): nat
  {
    if c == Red then 0 else if c == Orange then 1 else if c == Green then 2 else if c == Blue then 3 else 4
  }

  /** Every value gets exactly one of the five colours, the bands cover the
      value ranges below, and a larger value never gets a lower band. */
  lemma StatColorBands(v: int, w: int)
    ensures StatColor(v) == Purple <==> v >= 150
    ensures StatColor(v) == Blue <==> 100 <= v < 150
    ensures StatColor(v) == Green <==> 70 <= v < 100
    ensures StatColor(v) == Orange <==> 40 <= v < 70
    ensures StatColor(v) == Red <==> v < 40
    ensures v <= w ==> Band(StatColor(v)) <= Band(StatColor(w))
  {
  }

  /** `s.replace(from, to)` with a one-character string pattern: only the
      first occurrence is replaced. */
  function ReplaceFirst(s: string, from: char, to: char): (r: string)
    ensures |r| == |s|
    ensures forall i :: 0 <= i < |s| ==>
              r[i] == (if s[i] == from && (forall j :: 0 <= j < i ==> s[j] != from) then to else s[i])
  {
    if s == [] then []
    else if s[0] == from then [to] + s[1..]
    else [s[0]] + ReplaceFirst(s[1..], from, to)
  }

  /** `stat.replace('-', ' ')`. */
  function StatLabel(stat: string): (r: string)
    ensures |r| == |stat|
    ensures forall i :: 0 <= i < |stat| && r[i] != stat[i] ==>
              stat[i] == '-' && r[i] == ' ' && r[..i] == stat[..i] && r[i + 1..] == stat[i + 1..]
  {
    ReplaceFirst(stat, '-', ' ')
  }

  /** Only the first hyphen of a stat name becomes a space; the text after it
      is kept as it is, later hyphens included. */
  lemma StatLabelSplitsAtFirstHyphen(before: string, after: string)
    requires forall i :: 0 <= i < |before| ==> before[i] != '-'
    ensures StatLabel(before + "-" + after) == before + " " + after
  {
    var s := before + "-" + after;
    var r := StatLabel(s);
    assert s[|before|] == '-';
    forall i | 0 <= i < |s| ensures r[i] == (before + " " + after)[i] {
      if i < |before| { assert s[i] == before[i]; }
      else if i > |before| { assert s[i] == after[i - |before| - 1]; }
    }
  }

  lemma StatLabelOfSpecialAttack()
    ensures StatLabel("special-attack") == "special attack"
  {
    var before, after := "special", "attack";
    assert forall i :: 0 <= i < |before| ==> before[i] != '-';
    StatLabelSplitsAtFirstHyphen(before, after);
    assert before + "-" + after == "special-attack";
    assert before + " " + after == "special attack";
  }

  /** One row of the base stats: label, value and bar colour. */
  datatype StatRow = StatRow(name: string, value: int, color: string)

  /** What the detail page shows. */
  datatype DetailView = DetailView(
    background: Background,
    name: Option<string>,
    idLabel: string,
    heightText: string,
    weightText: string,
    stats: seq<StatRow>)

  /** `PokemonDetail({ pokemon })`: one stat row per entry, in entry order. */
  function RenderDetail(colors: map<string, string>, pokemon: Pokemon): (v: DetailView)
    ensures v.background == DetailBackground(colors, pokemon.types)
    ensures v.idLabel == IdLabel(pokemon.id)
    ensures v.heightText == HeightText(pokemon.height) && v.weightText == WeightText(pokemon.weight)
    ensures pokemon.stats.None? ==> v.stats == []
    ensures pokemon.stats.Some? ==>
              |v.stats| == |pokemon.stats.value|
              && forall i :: 0 <= i < |v.stats| ==>
                   v.stats[i] == StatRow(StatLabel(pokemon.stats.value[i].0), pokemon.stats.value[i].1,
                                         StatColor(pokemon.stats.value[i].1))
  {
    var rows := if pokemon.stats.None? then [] else
      var entries := pokemon.stats.value;
      seq(|entries|, i requires 0 <= i < |entries| =>
        StatRow(StatLabel(entries[i].0), entries[i].1, StatColor(entries[i].1)));
    DetailView(DetailBackground(colors, pokemon.types), pokemon.name, IdLabel(pokemon.id),
               HeightText(pokemon.height), WeightText(pokemon.weight), rows)
  }
}
