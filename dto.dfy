/** The backend's response records and `PokemonResponseDto.from`, which
    reads the PokeAPI `pokemon` document into the detail record. */
module ResponseDto {
  import opened Common
  import opened Exceptions
  import opened JavaCasts

  /** `PokemonResponseDto`. A `None` is a `null` the JSON left in place; the
      stats map, a `HashMap`, accepts `null` keys and values. */
  datatype PokemonResponseDto = PokemonResponseDto(
    id: int,
    name: Option<string>,
    image: Option<string>,
    types: seq<Option<string>>,
    abilities: seq<Option<string>>,
    stats: map<Option<string>, Option<int>>,
    height: int,
    weight: int,
    description: string)

  /** `PokemonListDto`, one entry of a page. */
  datatype PokemonListDto = PokemonListDto(id: int, name: Option<string>, image: string, types: seq<string>)

  /** `PokemonPageResponseDto`; `None` is a `null` link. */
  datatype PokemonPageResponseDto = PokemonPageResponseDto(
    count: int,
    offset: int,
    limit: int,
    hasMore: bool,
    next: Option<string>,
    previous: Option<string>,
    data: seq<PokemonListDto>)

  /** `((Map<String, String>) element.get(field)).get("name")`, as the
      `types` and `abilities` streams and the `stats` loop read each element. */
  function NestedName(element: Json, field: string): (r: Result<Option<string>, Exception>)
    ensures r.Ok? <==> HasNestedName(element, field)
  {
    var entry :- DerefMap(element);
    var inner :- DerefMap(Get(entry, field));
    CastString(Get(inner, "name"))
  }

  /** An element from which `NestedName` can read: a map whose `field` is a
      map whose `name` is a string or `null`. */
  predicate HasNestedName(element: Json, field: string)
  {
    element.JObj? && Get(element.fields, field).JObj?
    && IsStringOrNull(Get(Get(element.fields, field).fields, "name"))
  }

  /** One element of `types` mapped to its name. */
  function TypeName(element: Json): (r: Result<Option<string>, Exception>)
    ensures r.Ok? <==> HasNestedName(element, "type")
  {
    NestedName(element, "type")
  }

  /** One element of `abilities` mapped to its name. */
  function AbilityName(element: Json): (r: Result<Option<string>, Exception>)
    ensures r.Ok? <==> HasNestedName(element, "ability")
  {
    NestedName(element, "ability")
  }

  /** A document whose `sprites.other["official-artwork"]` are maps and whose
      `front_default` there is a string or `null`. */
  predicate HasArtwork(data: map<string, Json>)
  {
    var sprites := Get(data, "sprites");
    sprites.JObj? && Get(sprites.fields, "other").JObj?
    && var artwork := Get(Get(sprites.fields, "other").fields, "official-artwork");
       artwork.JObj? && IsStringOrNull(Get(artwork.fields, "front_default"))
  }

  /** `sprites.other["official-artwork"].front_default`, each map dereferenced in turn. */
  function ArtworkImage(data: map<string, Json>): (r: Result<Option<string>, Exception>)
    ensures r.Ok? <==> HasArtwork(data)
    ensures r.Err? ==> r.error.Unexpected?
    ensures r.Ok? ==> Get(data, "sprites").JObj?
                      && Get(Get(data, "sprites").fields, "other").JObj?
                      && var other := Get(Get(data, "sprites").fields, "other").fields;
                         Get(other, "official-artwork").JObj?
                         && CastString(Get(Get(other, "official-artwork").fields, "front_default")) == r
  {
    var sprites :- DerefMap(Get(data, "sprites"));
    var other :- DerefMap(Get(sprites, "other"));
    var officialArtwork :- DerefMap(Get(other, "official-artwork"));
    CastString(Get(officialArtwork, "front_default"))
  }

  /** The key and the value one iteration of the `stats` loop puts; the
      loop variable is a map before `get("stat")` is called on it. */
  function StatEntry(element: Json): (r: Result<(Option<string>, Option<int>), Exception>)
    ensures r.Err? ==> r.error.Unexpected?
  {
    var entry :- DerefMap(element);
    var name :- NestedName(element, "stat");
    var value :- CastInteger(Get(entry, "base_stat"));
    Ok((name, value))
  }

  /** An element of `stats` the loop can read: a named `stat`, and a
      `base_stat` that is `null` or fits an `int`. */
  predicate IsStatElement(element: Json)
  {
    HasNestedName(element, "stat")
    && var value := Get(element.fields, "base_stat");
       value.JNull? || IsIntValue(value)
  }

  /** One iteration of the loop succeeds exactly on such an element, and then
      puts the nested `stat` name with the `base_stat` value. */
  lemma StatEntrySucceedsExactly(element: Json)
    ensures StatEntry(element).Ok? <==> IsStatElement(element)
    ensures StatEntry(element).Ok? ==>
              element.JObj? && NestedName(element, "stat") == Ok(StatEntry(element).value.0)
              && CastInteger(Get(element.fields, "base_stat")) == Ok(StatEntry(element).value.1)
  {
  }

  /** The `stats` loop from the map `acc` on: each entry is put in order, so a
      later entry with the same name overwrites an earlier one. */
  function StatsFold(acc: map<Option<string>, Option<int>>, raw: seq<Json>): (r: Result<map<Option<string>, Option<int>>, Exception>)
    ensures r.Err? ==> r.error.Unexpected?
    decreases |raw|
  {
    if raw == [] then Ok(acc)
    else
      var entry :- StatEntry(raw[0]);
      StatsFold(acc[entry.0 := entry.1], raw[1..])
  }

  /** The map the `stats` loop builds, starting from an empty `HashMap`. */
  function StatsOf(raw: seq<Json>): Result<map<Option<string>, Option<int>>, Exception>
  {
    StatsFold(map[], raw)
  }

  /** The `stats` loop itself. */
  method BuildStats(statsRaw: seq<Json>) returns (r: Result<map<Option<string>, Option<int>>, Exception>)
    ensures r == StatsOf(statsRaw)
  {
    var stats: map<Option<string>, Option<int>> := map[];
    var i := 0;
    while i < |statsRaw|
      invariant 0 <= i <= |statsRaw|
      invariant StatsFold(stats, statsRaw[i..]) == StatsOf(statsRaw)
    {
      assert statsRaw[i..][1..] == statsRaw[i + 1..];
      var entry := StatEntry(statsRaw[i]);
      if entry.Err? {
        return Err(entry.error);
      }
      stats := stats[entry.value.0 := entry.value.1];
      i := i + 1;
    }
    r := Ok(stats);
  }

  predicate IsLastWithName(raw: seq<Json>, i: nat)
    requires i < |raw| && forall k :: 0 <= k < |raw| ==> StatEntry(raw[k]).Ok?
  {
    forall j :: i < j < |raw| ==> StatEntry(raw[j]).value.0 != StatEntry(raw[i]).value.0
  }

  /** What the `stats` loop leaves in the map: when every entry can be read,
      the keys are `acc`'s and the entries' names, each name maps to the value
      of its last entry, and a key of `acc` no entry names keeps its value. */
  lemma StatsFoldContents(acc: map<Option<string>, Option<int>>, raw: seq<Json>)
    requires StatsFold(acc, raw).Ok?
    ensures forall k :: 0 <= k < |raw| ==> StatEntry(raw[k]).Ok?
    ensures var m := StatsFold(acc, raw).value;
            && m.Keys == acc.Keys + (set k | 0 <= k < |raw| && StatEntry(raw[k]).Ok? :: StatEntry(raw[k]).value.0)
            && (forall i :: 0 <= i < |raw| && IsLastWithName(raw, i) ==>
                  m[StatEntry(raw[i]).value.0] == StatEntry(raw[i]).value.1)
            && (forall key :: key in acc && (forall k :: 0 <= k < |raw| ==> StatEntry(raw[k]).value.0 != key) ==>
                  m[key] == acc[key])
  {
    StatsFoldKeys(acc, raw);
    StatsFoldLastWins(acc, raw);
    StatsFoldKeepsUntouched(acc, raw);
  }

  lemma {:induction false} StatsFoldAllRead(acc: map<Option<string>, Option<int>>, raw: seq<Json>)
    requires StatsFold(acc, raw).Ok?
    ensures forall k :: 0 <= k < |raw| ==> StatEntry(raw[k]).Ok?
    decreases |raw|
  {
    if raw != [] {
      var entry := StatEntry(raw[0]).value;
      StatsFoldAllRead(acc[entry.0 := entry.1], raw[1..]);
      forall k | 0 < k < |raw| ensures StatEntry(raw[k]).Ok? {
        assert raw[k] == raw[1..][k - 1];
      }
    }
  }

  lemma {:induction false} StatsFoldKeys(acc: map<Option<string>, Option<int>>, raw: seq<Json>)
    requires StatsFold(acc, raw).Ok?
    ensures StatsFold(acc, raw).value.Keys
            == acc.Keys + (set k | 0 <= k < |raw| && StatEntry(raw[k]).Ok? :: StatEntry(raw[k]).value.0)
    decreases |raw|
  {
    if raw != [] {
      var entry := StatEntry(raw[0]).value;
      var rest := raw[1..];
      StatsFoldKeys(acc[entry.0 := entry.1], rest);
      var names := set k | 0 <= k < |raw| && StatEntry(raw[k]).Ok? :: StatEntry(raw[k]).value.0;
      var restNames := set k | 0 <= k < |rest| && StatEntry(rest[k]).Ok? :: StatEntry(rest[k]).value.0;
      assert names == {entry.0} + restNames by {
        forall key | key in names ensures key in {entry.0} + restNames {
          var k :| 0 <= k < |raw| && StatEntry(raw[k]).Ok? && StatEntry(raw[k]).value.0 == key;
          if k > 0 { assert raw[k] == rest[k - 1]; }
        }
        forall key | key in restNames ensures key in names {
          var k :| 0 <= k < |rest| && StatEntry(rest[k]).Ok? && StatEntry(rest[k]).value.0 == key;
          assert rest[k] == raw[k + 1];
        }
      }
    }
  }

  lemma {:induction false} StatsFoldLastWins(acc: map<Option<string>, Option<int>>, raw: seq<Json>)
    requires StatsFold(acc, raw).Ok?
    ensures forall k :: 0 <= k < |raw| ==> StatEntry(raw[k]).Ok?
    ensures forall i :: 0 <= i < |raw| && IsLastWithName(raw, i) ==>
              StatEntry(raw[i]).value.0 in StatsFold(acc, raw).value
              && StatsFold(acc, raw).value[StatEntry(raw[i]).value.0] == StatEntry(raw[i]).value.1
    decreases |raw|
  {
    StatsFoldAllRead(acc, raw);
    if raw != [] {
      var entry := StatEntry(raw[0]).value;
      var acc' := acc[entry.0 := entry.1];
      var rest := raw[1..];
      StatsFoldLastWins(acc', rest);
      StatsFoldKeepsUntouched(acc', rest);
      var m := StatsFold(acc, raw).value;
      forall i | 0 <= i < |raw| && IsLastWithName(raw, i)
        ensures StatEntry(raw[i]).value.0 in m && m[StatEntry(raw[i]).value.0] == StatEntry(raw[i]).value.1
      {
        if i == 0 {
          forall k | 0 <= k < |rest| ensures StatEntry(rest[k]).value.0 != entry.0 {
            assert rest[k] == raw[k + 1];
          }
        } else {
          assert raw[i] == rest[i - 1];
          assert IsLastWithName(rest, i - 1) by {
            forall j | i - 1 < j < |rest| ensures StatEntry(rest[j]).value.0 != StatEntry(rest[i - 1]).value.0 {
              assert rest[j] == raw[j + 1];
            }
          }
        }
      }
    }
  }

  lemma {:induction false} StatsFoldKeepsUntouched(acc: map<Option<string>, Option<int>>, raw: seq<Json>)
    requires StatsFold(acc, raw).Ok?
    ensures forall k :: 0 <= k < |raw| ==> StatEntry(raw[k]).Ok?
    ensures forall key :: key in acc && (forall k :: 0 <= k < |raw| ==> StatEntry(raw[k]).value.0 != key) ==>
              key in StatsFold(acc, raw).value && StatsFold(acc, raw).value[key] == acc[key]
    decreases |raw|
  {
    StatsFoldAllRead(acc, raw);
    if raw != [] {
      var entry := StatEntry(raw[0]).value;
      var rest := raw[1..];
      StatsFoldKeepsUntouched(acc[entry.0 := entry.1], rest);
      forall key | key in acc && (forall k :: 0 <= k < |raw| ==> StatEntry(raw[k]).value.0 != key)
        ensures key in StatsFold(acc, raw).value && StatsFold(acc, raw).value[key] == acc[key]
      {
        assert StatEntry(raw[0]).value.0 != key;
        forall k | 0 <= k < |rest| ensures StatEntry(rest[k]).value.0 != key {
          assert rest[k] == raw[k + 1];
        }
      }
    }
  }

  /** The `stats` loop fails exactly when some entry cannot be read, and then
      with the exception of the first such entry. */
  lemma {:induction false} StatsFoldFailure(acc: map<Option<string>, Option<int>>, raw: seq<Json>)
    ensures StatsFold(acc, raw).Err? <==> exists k :: 0 <= k < |raw| && StatEntry(raw[k]).Err?
    ensures StatsFold(acc, raw).Err? ==>
              exists k :: 0 <= k < |raw| && StatEntry(raw[k]) == Err(StatsFold(acc, raw).error)
                          && forall j :: 0 <= j < k ==> StatEntry(raw[j]).Ok?
    decreases |raw|
  {
    if raw != [] {
      var rest := raw[1..];
      if StatEntry(raw[0]).Ok? {
        var entry := StatEntry(raw[0]).value;
        StatsFoldFailure(acc[entry.0 := entry.1], rest);
        if StatsFold(acc, raw).Err? {
          var k :| 0 <= k < |rest| && StatEntry(rest[k]) == Err(StatsFold(acc, raw).error)
                   && forall j :: 0 <= j < k ==> StatEntry(rest[j]).Ok?;
          assert rest[k] == raw[k + 1];
          forall j | 0 <= j < k + 1 ensures StatEntry(raw[j]).Ok? {
            if j > 0 { assert raw[j] == rest[j - 1]; }
          }
        } else {
          forall k | 0 <= k < |raw| ensures StatEntry(raw[k]).Ok? {
            if k > 0 { assert raw[k] == rest[k - 1]; }
          }
        }
      }
    }
  }

  /** `PokemonResponseDto.from(data, description)`. The fields are read in the
      order of the source; the first one that cannot be read raises. */
  function From(data: map<string, Json>, description: string): (r: Result<PokemonResponseDto, Exception>)
    ensures r.Err? ==> r.error.Unexpected?
    ensures r.Ok? ==> r.value.description == description
    ensures r.Ok? ==> Get(data, "id") == JInt(r.value.id)
                      && Get(data, "height") == JInt(r.value.height)
                      && Get(data, "weight") == JInt(r.value.weight)
                      && CastString(Get(data, "name")) == Ok(r.value.name)
    ensures r.Ok? ==> ArtworkImage(data) == Ok(r.value.image)
    ensures r.Ok? ==> Get(data, "types").JList?
                      && |r.value.types| == |Get(data, "types").items|
                      && forall i :: 0 <= i < |r.value.types| ==>
                           TypeName(Get(data, "types").items[i]) == Ok(r.value.types[i])
    ensures r.Ok? ==> Get(data, "abilities").JList?
                      && |r.value.abilities| == |Get(data, "abilities").items|
                      && forall i :: 0 <= i < |r.value.abilities| ==>
                           AbilityName(Get(data, "abilities").items[i]) == Ok(r.value.abilities[i])
    ensures r.Ok? ==> Get(data, "stats").JList? && StatsOf(Get(data, "stats").items) == Ok(r.value.stats)
  {
    var id :- UnboxInt(Get(data, "id"));
    var name :- CastString(Get(data, "name"));
    var image :- ArtworkImage(data);
    var typesRaw :- DerefList(Get(data, "types"));
    var types :- MapToList(typesRaw, TypeName);
    var abilitiesRaw :- DerefList(Get(data, "abilities"));
    var abilities :- MapToList(abilitiesRaw, AbilityName);
    var statsRaw :- DerefList(Get(data, "stats"));
    var stats :- StatsOf(statsRaw);
    var height :- UnboxInt(Get(data, "height"));
    var weight :- UnboxInt(Get(data, "weight"));
    Ok(PokemonResponseDto(id, name, image, types, abilities, stats, height, weight, description))
  }

  /** A PokeAPI `pokemon` document `from` can read: 32-bit `id`, `height` and
      `weight`; a string or `null` `name`; the artwork path; lists of `types`,
      `abilities` and `stats` whose elements all have the expected shape. */
  predicate IsPokemonDocument(data: map<string, Json>)
  {
    && IsIntValue(Get(data, "id"))
    && IsStringOrNull(Get(data, "name"))
    && HasArtwork(data)
    && Get(data, "types").JList?
    && (forall i :: 0 <= i < |Get(data, "types").items| ==> HasNestedName(Get(data, "types").items[i], "type"))
    && Get(data, "abilities").JList?
    && (forall i :: 0 <= i < |Get(data, "abilities").items| ==>
          HasNestedName(Get(data, "abilities").items[i], "ability"))
    && Get(data, "stats").JList?
    && (forall i :: 0 <= i < |Get(data, "stats").items| ==> IsStatElement(Get(data, "stats").items[i]))
    && IsIntValue(Get(data, "height"))
    && IsIntValue(Get(data, "weight"))
  }

  /** `from` returns a record exactly for the documents of that shape; for
      every other document it throws. */
  lemma FromSucceedsExactly(data: map<string, Json>, description: string)
    ensures From(data, description).Ok? <==> IsPokemonDocument(data)
  {
    if Get(data, "stats").JList? {
      var statsRaw := Get(data, "stats").items;
      StatsFoldFailure(map[], statsRaw);
      forall i | 0 <= i < |statsRaw| ensures StatEntry(statsRaw[i]).Ok? <==> IsStatElement(statsRaw[i]) {
        StatEntrySucceedsExactly(statsRaw[i]);
      }
    }
  }
}
