/** `PokemonData` and `performGraphQlQuery`: the search name is lowercased and
    sent; what comes back (or the transport exception) is turned into one
    record, or into nothing for "not found". */
module Records {
  import opened Wrappers
  import opened Text
  import opened JsonModel
  import opened Extractors

  /** The record the results screen shows. */
  datatype PokemonData = PokemonData(name: string, imageUrl: Option<string>, cryUrl: Option<string>)

  /** One entity of the query's `pokemon` list: its name, and the `sprites`
      and `cries` column of each row of its `pokemonsprites` and
      `pokemoncries` lists. */
  datatype PokemonEntity = PokemonEntity(name: string, sprites: seq<Json>, cries: seq<Json>)

  /** What executing the query yields: a response whose `data?.pokemon` may be
      missing, or the transport exception (`ApolloException`). */
  datatype QueryOutcome =
    | Response(pokemon: Option<seq<PokemonEntity>>)
    | TransportFailure

  /** `list.firstOrNull()?.column`: the first row's payload, or null. */
  function FirstPayload(rows: seq<Json>): (p: Json)
    ensures |rows| == 0 ==> p == JNull
    ensures |rows| > 0 ==> p == rows[0]
  {
    if |rows| == 0 then JNull else rows[0]
  }

  /** The entity the record is built from, when the response has one. */
  function FirstEntity(outcome: QueryOutcome): (r: Option<PokemonEntity>)
    ensures r.Some? <==> outcome.Response? && outcome.pokemon.Some? && |outcome.pokemon.value| > 0
    ensures r.Some? ==> r.value == outcome.pokemon.value[0]
  {
    if outcome.Response? && outcome.pokemon.Some? && |outcome.pokemon.value| > 0
    then Some(outcome.pokemon.value[0]) else None
  }

  /** The body of `performGraphQlQuery` after the network call. */
  function AssembleRecord(outcome: QueryOutcome, includeImage: bool, includeCry: bool, json: JsonText): (r: Option<PokemonData>)
    ensures outcome.TransportFailure? ==> r.None?
    ensures outcome.Response? && (outcome.pokemon.None? || outcome.pokemon.value == []) ==> r.None?
    ensures r.Some? <==> outcome.Response? && outcome.pokemon.Some? && |outcome.pokemon.value| > 0
    ensures r.Some? ==> var e := outcome.pokemon.value[0];
              && |r.value.name| == |e.name|
              && (|e.name| > 0 ==> && !IsAsciiLower(r.value.name[0])
                                   && LowerChar(r.value.name[0]) == LowerChar(e.name[0])
                                   && r.value.name[1..] == e.name[1..])
              && (if includeImage then r.value.imageUrl == ExtractFrontSpriteUrl(FirstPayload(e.sprites), json) else r.value.imageUrl.None?)
              && (if includeCry then r.value.cryUrl == ExtractLatestCryUrl(FirstPayload(e.cries), json) else r.value.cryUrl.None?)
    ensures r.Some? && r.value.imageUrl.Some? ==> includeImage && !IsBlank(r.value.imageUrl.value)
    ensures r.Some? && r.value.cryUrl.Some? ==> includeCry && !IsBlank(r.value.cryUrl.value)
  {
    match FirstEntity(outcome)
    case None => None
    case Some(e) =>
      var imageUrl := if includeImage then ExtractFrontSpriteUrl(FirstPayload(e.sprites), json) else None;
      var cryUrl := if includeCry then ExtractLatestCryUrl(FirstPayload(e.cries), json) else None;
      Some(PokemonData(Capitalize(e.name), imageUrl, cryUrl))
  }

  /** `performGraphQlQuery(name, includeImage, includeCry)`, with the network
      call `query(PokemonQuery(name.lowercase())).execute()` as the parameter
      `execute`. */
  function PerformQuery(name: string, includeImage: bool, includeCry: bool, json: JsonText,
                        execute: string -> QueryOutcome): (r: Option<PokemonData>)
    ensures execute(LowerCase(name)).TransportFailure? ==> r.None?
    ensures r.Some? <==> FirstEntity(execute(LowerCase(name))).Some?
    ensures r == AssembleRecord(execute(LowerCase(name)), includeImage, includeCry, json)
  {
    AssembleRecord(execute(LowerCase(name)), includeImage, includeCry, json)
  }

  /** The flags gate the URLs: without `includeImage` there is no image URL,
      without `includeCry` no cry URL, whatever the payloads hold. */
  lemma FlagsGateUrls(outcome: QueryOutcome, json: JsonText)
    ensures forall c :: AssembleRecord(outcome, false, c, json).Some? ==> AssembleRecord(outcome, false, c, json).value.imageUrl.None?
    ensures forall i :: AssembleRecord(outcome, i, false, json).Some? ==> AssembleRecord(outcome, i, false, json).value.cryUrl.None?
  {
  }

  /** The flags change only the URLs: the record exists, and has the same
      name, whichever flags are set. */
  lemma FlagsKeepName(outcome: QueryOutcome, i1: bool, c1: bool, i2: bool, c2: bool, json: JsonText)
    ensures AssembleRecord(outcome, i1, c1, json).Some? == AssembleRecord(outcome, i2, c2, json).Some?
    ensures AssembleRecord(outcome, i1, c1, json).Some? ==>
              AssembleRecord(outcome, i1, c1, json).value.name == AssembleRecord(outcome, i2, c2, json).value.name
  {
  }

  /** The search is case-insensitive: names that lowercase alike give the same result. */
  lemma SearchIgnoresCase(a: string, b: string, includeImage: bool, includeCry: bool, json: JsonText,
                          execute: string -> QueryOutcome)
    requires LowerCase(a) == LowerCase(b)
    ensures PerformQuery(a, includeImage, includeCry, json, execute) == PerformQuery(b, includeImage, includeCry, json, execute)
  {
  }

  /** An example: "pikachu" with both flags and plain map payloads. */
  lemma PikachuExample(json: JsonText)
    ensures var e := PokemonEntity("pikachu",
                                   [JObject(map[FrontDefault := JString("a.png")])],
                                   [JObject(map[Latest := JString("a.ogg")])]);
            AssembleRecord(Response(Some([e])), true, true, json) == Some(PokemonData("Pikachu", Some("a.png"), Some("a.ogg")))
  {
    assert !IsBlank("a.png") by { assert !IsWhitespace("a.png"[0]); }
    assert !IsBlank("a.ogg") by { assert !IsWhitespace("a.ogg"[0]); }
    assert UpperChar('p') == 'P';
    assert Capitalize("pikachu") == "Pikachu";
    var sprites := map[FrontDefault := JString("a.png")];
    assert SpriteFromMap(sprites) == Some("a.png");
    assert ExtractLatestCryUrl(JObject(map[Latest := JString("a.ogg")]), json) == Some("a.ogg");
  }
}
