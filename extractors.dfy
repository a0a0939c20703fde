/** `extractFrontSpriteUrl` and `extractLatestCryUrl`: turn a `sprites` or
    `cries` payload, which arrives either as JSON text or as an already-decoded
    map, into one display-ready URL, or nothing. */
module Extractors {
  import opened Wrappers
  import opened Text
  import opened JsonModel

  const FrontDefault := "front_default"
  const Other := "other"
  const OfficialArtwork := "official-artwork"
  const Latest := "latest"

  /** Where the primary sprite and its fallback sit in the payload. */
  const FrontPath: seq<string> := [FrontDefault]
  const ArtworkPath: seq<string> := [Other, OfficialArtwork, FrontDefault]
  const LatestPath: seq<string> := [Latest]

  // ------------------------------------------------------------------
  // Sprites
  // ------------------------------------------------------------------

  /** The string branch after a successful parse: `optString("front_default")`
      if not blank, else `optJSONObject("other")?.optJSONObject("official-artwork")
      ?.optString("front_default")` if not blank. */
  function SpriteFromParsed(obj: map<string, Json>, render: Json -> string): (r: Option<string>)
    ensures r.Some? ==> !IsBlank(r.value)
    ensures r == FirstNonBlank(CoercedAt(obj, FrontPath, render), CoercedAt(obj, ArtworkPath, render))
  {
    ArtworkPathUnfolds(obj);
    ArtworkParentUnfolds(obj);
    match NonBlank(OptString(obj, FrontDefault, render))
    case Some(url) => Some(url)
    case None =>
      match ObjectField(obj, Other)
      case None => None
      case Some(other) =>
        match ObjectField(other, OfficialArtwork)
        case None => None
        case Some(art) => NonBlank(OptString(art, FrontDefault, render))
  }

  /** The map branch: `spritesAny["front_default"] as? String` if not blank,
      else the `as? Map` chain down to `official-artwork.front_default` if that
      is a non-blank string. */
  function SpriteFromMap(m: map<string, Json>): (r: Option<string>)
    ensures r.Some? ==> !IsBlank(r.value)
    ensures r == FirstNonBlank(StringAt(m, FrontPath), StringAt(m, ArtworkPath))
  {
    ArtworkPathUnfolds(m);
    var front := StringField(m, FrontDefault);
    if front.Some? && !IsBlank(front.value) then front
    else
      match ObjectField(m, Other)
      case None => None
      case Some(other) =>
        match ObjectField(other, OfficialArtwork)
        case None => None
        case Some(official) =>
          match StringField(official, FrontDefault)
          case None => None
          case Some(art) => NonBlank(art)
  }

  /** The reference reading of the artwork path is the chain of two object
      lookups and a final field lookup. */
  lemma ArtworkPathUnfolds(o: map<string, Json>)
    ensures ValueAt(o, ArtworkPath) ==
      match ObjectField(o, Other)
      case None => None
      case Some(other) =>
        match ObjectField(other, OfficialArtwork)
        case None => None
        case Some(official) =>
          if FrontDefault in official then Some(official[FrontDefault]) else None
  {
    ArtworkParentUnfolds(o);
    var tail := [OfficialArtwork, FrontDefault];
    assert ArtworkPath[0] == Other && ArtworkPath[1..] == tail;
    assert tail[1..] == [FrontDefault];
    if Other in o && o[Other].JObject? {
      var other := o[Other].fields;
      assert ValueAt(o, ArtworkPath) == ValueAt(other, tail);
      if OfficialArtwork in other && other[OfficialArtwork].JObject? {
        assert ValueAt(other, tail) == ValueAt(other[OfficialArtwork].fields, [FrontDefault]);
      }
    }
  }

  /** The same, for the enclosing object of the artwork field. */
  lemma ArtworkParentUnfolds(o: map<string, Json>)
    ensures |ArtworkPath| == 3 && ArtworkPath[..2] == [Other, OfficialArtwork]
    ensures ValueAt(o, ArtworkPath[..2]) ==
      match ObjectField(o, Other)
      case None => None
      case Some(other) => if OfficialArtwork in other then Some(other[OfficialArtwork]) else None
  {
  }

  /** `extractFrontSpriteUrl`: dispatch on the payload's runtime shape. Text
      that does not parse, and a payload that is neither text nor a map,
      give nothing; whatever is returned is never blank. */
  function ExtractFrontSpriteUrl(payload: Json, json: JsonText): (r: Option<string>)
    ensures r.Some? ==> !IsBlank(r.value)
    ensures !payload.JString? && !payload.JObject? ==> r.None?
    ensures payload.JString? && json.parse(payload.s).None? ==> r.None?
    ensures payload.JObject? ==>
              r == FirstNonBlank(StringAt(payload.fields, FrontPath), StringAt(payload.fields, ArtworkPath))
    ensures payload.JString? && json.parse(payload.s).Some? ==>
              r == FirstNonBlank(CoercedAt(json.parse(payload.s).value, FrontPath, json.render),
                                 CoercedAt(json.parse(payload.s).value, ArtworkPath, json.render))
  {
    match payload
    case JString(text) =>
      (match json.parse(text)
       case None => None
       case Some(obj) => SpriteFromParsed(obj, json.render))
    case JObject(m) => SpriteFromMap(m)
    case _ => None
  }

  // ------------------------------------------------------------------
  // Cries
  // ------------------------------------------------------------------

  /** `extractLatestCryUrl`: `optString("latest")` on parsed text, or
      `criesAny["latest"] as? String` on a map, kept only when not blank. */
  function ExtractLatestCryUrl(payload: Json, json: JsonText): (r: Option<string>)
    ensures r.Some? ==> !IsBlank(r.value)
    ensures !payload.JString? && !payload.JObject? ==> r.None?
    ensures payload.JString? && json.parse(payload.s).None? ==> r.None?
    ensures payload.JObject? ==> (r.Some? <==> StringAt(payload.fields, LatestPath).Some? && !IsBlank(StringAt(payload.fields, LatestPath).value))
    ensures payload.JObject? && r.Some? ==> payload.fields[Latest] == JString(r.value)
    ensures payload.JString? && json.parse(payload.s).Some? ==>
              r == FirstNonBlank(CoercedAt(json.parse(payload.s).value, LatestPath, json.render), None)
  {
    match payload
    case JString(text) =>
      (match json.parse(text)
       case None => None
       case Some(obj) => NonBlank(OptString(obj, Latest, json.render)))
    case JObject(m) =>
      (match StringField(m, Latest)
       case None => None
       case Some(url) => NonBlank(url))
    case _ => None
  }

  // ------------------------------------------------------------------
  // Properties of the two extractors
  // ------------------------------------------------------------------

  /** Either encoding of the same sprite object gives the same URL, as long
      as the two looked-up fields hold strings or are absent. */
  lemma SpriteEncodingsAgree(text: string, m: map<string, Json>, json: JsonText)
    requires json.parse(text) == Some(m)
    requires StringOrAbsentAt(m, FrontPath) && StringOrAbsentAt(m, ArtworkPath)
    ensures ExtractFrontSpriteUrl(JString(text), json) == ExtractFrontSpriteUrl(JObject(m), json)
  {
  }

  /** Either encoding of the same cry object gives the same URL, as long as
      `latest` holds a string or is absent. */
  lemma CryEncodingsAgree(text: string, m: map<string, Json>, json: JsonText)
    requires json.parse(text) == Some(m)
    requires StringOrAbsentAt(m, LatestPath)
    ensures ExtractLatestCryUrl(JString(text), json) == ExtractLatestCryUrl(JObject(m), json)
  {
  }

  /** Where the encodings part: a present, non-string `front_default` is
      coerced to text in the string branch and wins when that text is not
      blank, while the map branch skips it as if it were absent. */
  lemma SpriteCoercionDiverges(text: string, m: map<string, Json>, json: JsonText)
    requires json.parse(text) == Some(m)
    requires FrontDefault in m && !m[FrontDefault].JString?
    requires !IsBlank(json.render(m[FrontDefault]))
    ensures ExtractFrontSpriteUrl(JString(text), json) == Some(json.render(m[FrontDefault]))
    ensures ExtractFrontSpriteUrl(JObject(m), json) == SpriteFromMap(m - {FrontDefault})
  {
  }

  /** The cry counterpart: a present, non-string `latest` is coerced to text
      in the string branch and is the URL when that text is not blank, while
      the map branch gives nothing for it. */
  lemma CryCoercionDiverges(text: string, m: map<string, Json>, json: JsonText)
    requires json.parse(text) == Some(m)
    requires Latest in m && !m[Latest].JString?
    requires !IsBlank(json.render(m[Latest]))
    ensures ExtractLatestCryUrl(JString(text), json) == Some(json.render(m[Latest]))
    ensures ExtractLatestCryUrl(JObject(m), json) == None
  {
  }

  /** Map branch: a blank `front_default` counts as absent. */
  lemma MapBlankFrontIsAbsent(m: map<string, Json>, s: string)
    requires IsBlank(s)
    ensures SpriteFromMap(m[FrontDefault := JString(s)]) == SpriteFromMap(m - {FrontDefault})
  {
  }

  /** Map branch: a non-string `front_default` counts as absent. */
  lemma MapNonStringFrontIsAbsent(m: map<string, Json>, v: Json)
    requires !v.JString?
    ensures SpriteFromMap(m[FrontDefault := v]) == SpriteFromMap(m - {FrontDefault})
  {
  }

  /** String branch: a blank `front_default` counts as absent. */
  lemma ParsedBlankFrontIsAbsent(obj: map<string, Json>, s: string, render: Json -> string)
    requires IsBlank(s)
    ensures SpriteFromParsed(obj[FrontDefault := JString(s)], render) == SpriteFromParsed(obj - {FrontDefault}, render)
  {
  }

  /** Without a usable `front_default`, an `other` that is not an object ends
      the fallback with nothing, in both branches. */
  lemma NonObjectOtherEndsFallback(m: map<string, Json>, render: Json -> string)
    requires Other in m && !m[Other].JObject?
    ensures SpriteFromMap(m) == (if StringField(m, FrontDefault).Some? then NonBlank(StringField(m, FrontDefault).value) else None)
    ensures SpriteFromParsed(m, render) == NonBlank(OptString(m, FrontDefault, render))
  {
  }

  /** Likewise for an `official-artwork` that is not an object. */
  lemma NonObjectArtworkEndsFallback(m: map<string, Json>, render: Json -> string)
    requires Other in m && m[Other].JObject?
    requires OfficialArtwork in m[Other].fields && !m[Other].fields[OfficialArtwork].JObject?
    ensures SpriteFromMap(m) == (if StringField(m, FrontDefault).Some? then NonBlank(StringField(m, FrontDefault).value) else None)
    ensures SpriteFromParsed(m, render) == NonBlank(OptString(m, FrontDefault, render))
  {
  }

  /** A blank `front_default` falls back to a non-blank official artwork
      (the `{"front_default":"", "other":{"official-artwork":{...}}}` case). */
  lemma BlankFrontFallsBackToArtwork(front: string, art: string, json: JsonText)
    requires IsBlank(front) && !IsBlank(art)
    ensures var m := map[FrontDefault := JString(front),
                         Other := JObject(map[OfficialArtwork := JObject(map[FrontDefault := JString(art)])])];
            ExtractFrontSpriteUrl(JObject(m), json) == Some(art)
  {
  }
}
