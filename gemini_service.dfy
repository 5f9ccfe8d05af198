/** The post-processing around the two calls to the generative service
    (services/geminiService.ts). The calls themselves are parameters: a
    request goes in, a response or a thrown error comes out. */
module GeminiService {
  import opened Wrappers
  import opened Types

  /** An exception thrown by the client library or the network. */
  datatype ApiError = ApiError(message: string)

  // ---------------------------------------------------------------------
  // Recommendations
  // ---------------------------------------------------------------------

  /** What `JSON.parse` produces from the response text: an array of
      records, some other JSON value, or a `SyntaxError`. */
  datatype Parsed = JsonArray(items: seq<TravelSpot>) | JsonOther | SyntaxError

  /** The decimal digit for `d`. */
  function Digit(d: nat): char
    requires d < 10
  {
    ('0' as int + d) as char
  }

  /** A non-negative number as a template literal writes it. */
  function NatToString(n: nat): (s: string)
    ensures |s| > 0
    decreases n
  {
    (if n < 10 then "" else NatToString(n / 10)) + [Digit(n % 10)]
  }

  /** Different numbers are written differently. */
  lemma {:induction false} NatToStringInjective(n: nat, m: nat)
    requires NatToString(n) == NatToString(m)
    ensures n == m
    decreases n
  {
    var pn := if n < 10 then "" else NatToString(n / 10);
    var pm := if m < 10 then "" else NatToString(m / 10);
    var s := NatToString(n);
    assert s == pn + [Digit(n % 10)] == pm + [Digit(m % 10)];
    assert pn == s[..|s| - 1] == pm;
    assert Digit(n % 10) == s[|s| - 1] == Digit(m % 10);
    assert n % 10 == m % 10;
    if 10 <= n && 10 <= m {
      NatToStringInjective(n / 10, m / 10);
    }
  }

  /** `${archetypeId}-${index}`. */
  function SpotId(archetypeId: ArchetypeId, index: nat): string
  {
    IdName(archetypeId) + "-" + NatToString(index)
  }

  /** Two positions never get the same id. */
  lemma SpotIdInjective(archetypeId: ArchetypeId, i: nat, j: nat)
    requires SpotId(archetypeId, i) == SpotId(archetypeId, j)
    ensures i == j
  {
    var prefix := IdName(archetypeId) + "-";
    assert SpotId(archetypeId, i)[|prefix|..] == NatToString(i);
    assert SpotId(archetypeId, j)[|prefix|..] == NatToString(j);
    NatToStringInjective(i, j);
  }

  /** `a` and `b` agree on every field except, possibly, `id`. */
  predicate SameExceptId(a: TravelSpot, b: TravelSpot) {
    a.(id := b.id) == b
  }

  /** Every spot id in the list is different. */
  predicate DistinctIds(spots: seq<TravelSpot>) {
    forall i, j :: 0 <= i < j < |spots| ==> spots[i].id != spots[j].id
  }

  /** `data.map((item, index) => ({...item, id: ...}))`: every item keeps
      its fields, in order, and gets the synthetic id of its position; an
      `id` the item already had is overwritten. */
  function AssignIds(archetypeId: ArchetypeId, items: seq<TravelSpot>): (spots: seq<TravelSpot>)
    ensures |spots| == |items|
    ensures forall i :: 0 <= i < |items| ==>
      spots[i].id == SpotId(archetypeId, i) && SameExceptId(spots[i], items[i])
    ensures DistinctIds(spots)
  {
    var spots := seq(|items|, i requires 0 <= i < |items| => items[i].(id := SpotId(archetypeId, i)));
    assert DistinctIds(spots) by {
      forall i, j | 0 <= i < j < |spots| ensures spots[i].id != spots[j].id {
        if spots[i].id == spots[j].id {
          SpotIdInjective(archetypeId, i, j);
        }
      }
    }
    spots
  }

  /** `response.text || '[]'`: a missing or empty text reads as an empty
      array. */
  function ResponseText(text: Option<string>): string
  {
    if text.Some? && text.value != "" then text.value else "[]"
  }

  /** `getTravelRecommendations`: a thrown request propagates; a parse
      failure, and a parsed value that is not an array (whose `map` throws
      inside the same `try`), give the empty list. */
  function GetTravelRecommendations(
    archetypeId: ArchetypeId,
    recommend: ArchetypeId -> Result<Option<string>, ApiError>,
    parse: string -> Parsed): (r: Result<seq<TravelSpot>, ApiError>)
    ensures r.Ok? ==> DistinctIds(r.value)
  {
    match recommend(archetypeId)
    case Err(e) => Err(e)
    case Ok(text) =>
      match parse(ResponseText(text))
      case JsonArray(items) => Ok(AssignIds(archetypeId, items))
      case _ => Ok([])
  }

  /** A successful parse gives one spot per parsed item, in order, item `i`
      carrying the id `archetypeId-i`, and all ids distinct. */
  lemma RecommendationsFromArray(
    archetypeId: ArchetypeId,
    recommend: ArchetypeId -> Result<Option<string>, ApiError>,
    parse: string -> Parsed)
    requires recommend(archetypeId).Ok?
    requires parse(ResponseText(recommend(archetypeId).value)).JsonArray?
    ensures var items := parse(ResponseText(recommend(archetypeId).value)).items;
      var r := GetTravelRecommendations(archetypeId, recommend, parse);
      r.Ok? && |r.value| == |items| && DistinctIds(r.value) &&
      forall i :: 0 <= i < |items| ==>
        r.value[i].id == SpotId(archetypeId, i) && SameExceptId(r.value[i], items[i])
  {
  }

  /** A text that does not parse to an array gives the empty list. */
  lemma ParseFailureGivesNoSpots(
    archetypeId: ArchetypeId,
    recommend: ArchetypeId -> Result<Option<string>, ApiError>,
    parse: string -> Parsed)
    requires recommend(archetypeId).Ok?
    requires !parse(ResponseText(recommend(archetypeId).value)).JsonArray?
    ensures GetTravelRecommendations(archetypeId, recommend, parse) == Ok([])
  {
  }

  /** An empty or missing response text is parsed as `[]` and gives the
      empty list. */
  lemma EmptyTextGivesNoSpots(
    archetypeId: ArchetypeId,
    recommend: ArchetypeId -> Result<Option<string>, ApiError>,
    parse: string -> Parsed)
    requires recommend(archetypeId) == Ok(None) || recommend(archetypeId) == Ok(Some(""))
    requires parse("[]") == JsonArray([])
    ensures GetTravelRecommendations(archetypeId, recommend, parse) == Ok([])
  {
  }

  /** An error thrown by the request is not caught here. */
  lemma RequestErrorPropagates(
    archetypeId: ArchetypeId,
    recommend: ArchetypeId -> Result<Option<string>, ApiError>,
    parse: string -> Parsed)
    requires recommend(archetypeId).Err?
    ensures GetTravelRecommendations(archetypeId, recommend, parse) == Err(recommend(archetypeId).error)
  {
  }

  // ---------------------------------------------------------------------
  // Images
  // ---------------------------------------------------------------------

  datatype Variant = Present | Night

  function VariantName(v: Variant): string
  {
    match v
    case Present => "PRESENT"
    case Night => "NIGHT"
  }

  const NightStyle := "astrophotography, mesmerizing Milky Way, stars, long exposure, magical purple and deep blue night sky, professional photography, breathtaking nocturnal landscape"
  const DayStyle := "cinematic landscape photography, golden hour light, vibrant colors, 8k resolution, serene and peaceful atmosphere, professional travel magazine style"

  /** The `switch` on the variant: NIGHT has a case, everything else falls to
      the default. */
  function StylePrompt(v: Variant): string
  {
    match v
    case Night => NightStyle
    case _ => DayStyle
  }

  /** The night style is chosen for NIGHT and only for NIGHT. */
  lemma NightStyleOnlyForNight(v: Variant)
    ensures StylePrompt(v) == NightStyle <==> v == Night
    ensures StylePrompt(v) == DayStyle <==> v != Night
  {
    assert |NightStyle| != |DayStyle|;
  }

  /** What reaches the image model: the spot's name and location and the
      chosen style, which the prompt text interpolates. */
  datatype ImageRequest = ImageRequest(spotName: string, location: string, style: string)

  datatype InlineData = InlineData(mimeType: Option<string>, data: Option<string>)
  datatype Part = Part(text: Option<string>, inlineData: Option<InlineData>)
  datatype Content = Content(parts: Option<seq<Part>>)
  datatype Candidate = Candidate(content: Option<Content>)
  datatype ImageResponse = ImageResponse(candidates: Option<seq<Candidate>>)

  /** `response.candidates?.[0]?.content?.parts || []`. */
  function ResponseParts(response: ImageResponse): seq<Part>
  {
    match response.candidates
    case Some(cs) =>
      if |cs| > 0 && cs[0].content.Some? && cs[0].content.value.parts.Some?
      then cs[0].content.value.parts.value
      else []
    case None => []
  }

  /** How a template literal writes a possibly missing string. */
  function TemplateString(s: Option<string>): string
  {
    match s
    case Some(v) => v
    case None => "undefined"
  }

  /** `data:image/png;base64,${data}`. */
  function DataUrl(inline: InlineData): string
  {
    "data:image/png;base64," + TemplateString(inline.data)
  }

  /** The placeholder address used when no part carries an image. */
  function FallbackUrl(spotName: string, variant: Variant): string
  {
    "https://picsum.photos/seed/" + spotName + "-" + VariantName(variant) + "/1080/1920"
  }

  /** The URL the scan over the parts produces. */
  function ImageUrl(parts: seq<Part>, spotName: string, variant: Variant): string
  {
    if parts == [] then FallbackUrl(spotName, variant)
    else if parts[0].inlineData.Some? then DataUrl(parts[0].inlineData.value)
    else ImageUrl(parts[1..], spotName, variant)
  }

  /** The first part carrying inline data decides the URL; later parts are
      ignored. */
  lemma {:induction false} ImageUrlFirstInline(parts: seq<Part>, spotName: string, variant: Variant, i: nat)
    requires i < |parts| && parts[i].inlineData.Some?
    requires forall j :: 0 <= j < i ==> parts[j].inlineData.None?
    ensures ImageUrl(parts, spotName, variant) == DataUrl(parts[i].inlineData.value)
  {
    if i > 0 {
      ImageUrlFirstInline(parts[1..], spotName, variant, i - 1);
    }
  }

  /** With no inline data anywhere, the fallback address is returned. */
  lemma {:induction false} ImageUrlFallback(parts: seq<Part>, spotName: string, variant: Variant)
    requires forall j :: 0 <= j < |parts| ==> parts[j].inlineData.None?
    ensures ImageUrl(parts, spotName, variant) == FallbackUrl(spotName, variant)
  {
    if parts != [] {
      ImageUrlFallback(parts[1..], spotName, variant);
    }
  }

  /** Either way the URL is never empty. */
  lemma {:induction false} ImageUrlNonEmpty(parts: seq<Part>, spotName: string, variant: Variant)
    ensures ImageUrl(parts, spotName, variant) != ""
  {
    if parts != [] && parts[0].inlineData.None? {
      ImageUrlNonEmpty(parts[1..], spotName, variant);
    }
  }

  /** The `for ... of` over the parts with its early return. */
  method ScanParts(parts: seq<Part>, spotName: string, variant: Variant) returns (url: string)
    ensures url == ImageUrl(parts, spotName, variant)
  {
    var i := 0;
    while i < |parts|
      invariant 0 <= i <= |parts|
      invariant ImageUrl(parts[i..], spotName, variant) == ImageUrl(parts, spotName, variant)
    {
      if parts[i].inlineData.Some? {
        return DataUrl(parts[i].inlineData.value);
      }
      assert parts[i..][1..] == parts[i + 1..];
      i := i + 1;
    }
    url := FallbackUrl(spotName, variant);
  }

  /** The outcome of `generateSpotImageVariant`. */
  function ImageVariant(
    spotName: string, location: string, variant: Variant,
    generate: ImageRequest -> Result<ImageResponse, ApiError>): Result<string, ApiError>
  {
    match generate(ImageRequest(spotName, location, StylePrompt(variant)))
    case Err(e) => Err(e)
    case Ok(response) => Ok(ImageUrl(ResponseParts(response), spotName, variant))
  }

  /** A generated image URL is never empty. */
  lemma ImageVariantNonEmpty(spotName: string, location: string, variant: Variant, generate: ImageRequest -> Result<ImageResponse, ApiError>)
    requires ImageVariant(spotName, location, variant, generate).Ok?
    ensures ImageVariant(spotName, location, variant, generate).value != ""
  {
    var response := generate(ImageRequest(spotName, location, StylePrompt(variant)));
    ImageUrlNonEmpty(ResponseParts(response.value), spotName, variant);
  }

  /** `generateSpotImageVariant`: an error from the request propagates;
      otherwise the scan decides the URL. */
  method GenerateSpotImageVariant(
    spotName: string, location: string, variant: Variant,
    generate: ImageRequest -> Result<ImageResponse, ApiError>) returns (r: Result<string, ApiError>)
    ensures r == ImageVariant(spotName, location, variant, generate)
    ensures r.Ok? ==> r.value != ""
  {
    var style := StylePrompt(variant);
    var response := generate(ImageRequest(spotName, location, style));
    match response
    case Err(e) =>
      r := Err(e);
    case Ok(resp) =>
      var url := ScanParts(ResponseParts(resp), spotName, variant);
      r := Ok(url);
      ImageVariantNonEmpty(spotName, location, variant, generate);
  }
}
