/** The result view's bookkeeping (components/Dashboard.tsx): the
    recommended spots, which of them still wait for images, the day/night
    slider value per spot, and the spot-by-spot image enrichment. */
module Dashboard {
  import opened Wrappers
  import opened Types
  import opened GeminiService

  /** `{...s, imageUrl: day, nightImageUrl: night}`. */
  function WithImages(s: TravelSpot, day: string, night: string): TravelSpot
  {
    s.(imageUrl := Some(day), nightImageUrl := Some(night))
  }

  /** `a` and `b` agree on every field except, possibly, the two image URLs. */
  predicate SameExceptImages(a: TravelSpot, b: TravelSpot) {
    a.(imageUrl := b.imageUrl, nightImageUrl := b.nightImageUrl) == b
  }

  /** `prev.map(s => s.id === id ? {...} : s)`: same length and order; a
      spot whose id matches gets both URLs and keeps every other field, every
      other spot is left as it was. */
  function UpdateById(spots: seq<TravelSpot>, id: string, day: string, night: string): (r: seq<TravelSpot>)
    ensures |r| == |spots|
    ensures forall i :: 0 <= i < |spots| && spots[i].id != id ==> r[i] == spots[i]
    ensures forall i :: 0 <= i < |spots| && spots[i].id == id ==>
      r[i].imageUrl == Some(day) && r[i].nightImageUrl == Some(night) &&
      SameExceptImages(r[i], spots[i])
  {
    if spots == [] then []
    else
      [if spots[0].id == id then WithImages(spots[0], day, night) else spots[0]] +
      UpdateById(spots[1..], id, day, night)
  }

  /** The ids of the spots in a list. */
  function IdsOf(spots: seq<TravelSpot>): set<string>
  {
    set i | 0 <= i < |spots| :: spots[i].id
  }

  lemma IdsOfPrefix(spots: seq<TravelSpot>, i: nat)
    requires i < |spots|
    ensures IdsOf(spots[..i + 1]) == IdsOf(spots[..i]) + {spots[i].id}
  {
    var a, b := spots[..i + 1], spots[..i];
    forall id | id in IdsOf(a) ensures id in IdsOf(b) + {spots[i].id} {
      var k :| 0 <= k < |a| && a[k].id == id;
      if k < i {
        assert b[k].id == id;
      }
    }
    forall id | id in IdsOf(b) + {spots[i].id} ensures id in IdsOf(a) {
      if id == spots[i].id {
        assert a[i].id == id;
      } else {
        var k :| 0 <= k < |b| && b[k].id == id;
        assert a[k].id == id;
      }
    }
  }

  /** The map that gives every id in `ids` the value `v`. */
  function Flags<V>(ids: set<string>, v: V): (m: map<string, V>)
    ensures m.Keys == ids
    ensures forall id :: id in m ==> m[id] == v
  {
    map id | id in ids :: v
  }

  /** Setting one more id to `v` on top of a map overridden by `Flags`. */
  lemma FlagsAdd<V>(base: map<string, V>, ids: set<string>, id: string, v: V)
    ensures (base + Flags(ids, v))[id := v] == base + Flags(ids + {id}, v)
  {
  }

  /** `recommended.forEach(s => initialLoading[s.id] = true)`: one entry per
      spot id, each set. */
  method InitialLoading(recommended: seq<TravelSpot>) returns (m: map<string, bool>)
    ensures m.Keys == IdsOf(recommended)
    ensures forall id :: id in m ==> m[id]
  {
    m := map[];
    for i := 0 to |recommended|
      invariant m.Keys == IdsOf(recommended[..i])
      invariant forall id :: id in m ==> m[id]
    {
      IdsOfPrefix(recommended, i);
      m := m[recommended[i].id := true];
    }
    assert recommended[..|recommended|] == recommended;
  }

  /** `Promise.all` over the day and the night image of a spot: both URLs,
      or nothing when either request throws. */
  function ImagePair(spot: TravelSpot, generate: ImageRequest -> Result<ImageResponse, ApiError>): Option<(string, string)>
  {
    var day := ImageVariant(spot.name, spot.location, Present, generate);
    var night := ImageVariant(spot.name, spot.location, Night, generate);
    if day.Ok? && night.Ok? then Some((day.value, night.value)) else None
  }

  /** What one settled pair does to the list. */
  function ApplyPair(spots: seq<TravelSpot>, spot: TravelSpot, generate: ImageRequest -> Result<ImageResponse, ApiError>): seq<TravelSpot>
  {
    match ImagePair(spot, generate)
    case Some((day, night)) => UpdateById(spots, spot.id, day, night)
    case None => spots
  }

  /** The list after the first `k` spots have been processed in order. */
  function EnrichUpTo(recommended: seq<TravelSpot>, k: nat, generate: ImageRequest -> Result<ImageResponse, ApiError>): seq<TravelSpot>
    requires k <= |recommended|
  {
    if k == 0 then recommended
    else ApplyPair(EnrichUpTo(recommended, k - 1, generate), recommended[k - 1], generate)
  }

  /** How one spot ends up: with both images when its pair succeeded, as it
      was otherwise. */
  function Enriched(spot: TravelSpot, generate: ImageRequest -> Result<ImageResponse, ApiError>): TravelSpot
  {
    match ImagePair(spot, generate)
    case Some((day, night)) => WithImages(spot, day, night)
    case None => spot
  }

  /** With distinct ids, processing the first `k` spots enriches exactly
      those `k` spots, each by its own pair, and leaves the rest alone. */
  lemma {:induction false} EnrichUpToSpec(recommended: seq<TravelSpot>, k: nat, generate: ImageRequest -> Result<ImageResponse, ApiError>)
    requires k <= |recommended| && DistinctIds(recommended)
    ensures |EnrichUpTo(recommended, k, generate)| == |recommended|
    ensures forall j :: 0 <= j < |recommended| ==>
      EnrichUpTo(recommended, k, generate)[j] ==
        if j < k then Enriched(recommended[j], generate) else recommended[j]
  {
    if k > 0 {
      EnrichUpToSpec(recommended, k - 1, generate);
      ApplyPairStep(recommended, EnrichUpTo(recommended, k - 1, generate), k, generate);
    }
  }

  /** One more turn of the loop: when the first `k - 1` spots are enriched,
      applying the pair of spot `k - 1` enriches exactly that spot too. */
  lemma ApplyPairStep(recommended: seq<TravelSpot>, cur: seq<TravelSpot>, k: nat, generate: ImageRequest -> Result<ImageResponse, ApiError>)
    requires 0 < k <= |recommended| && DistinctIds(recommended) && |cur| == |recommended|
    requires forall j :: 0 <= j < |recommended| ==>
      cur[j] == if j < k - 1 then Enriched(recommended[j], generate) else recommended[j]
    ensures |ApplyPair(cur, recommended[k - 1], generate)| == |recommended|
    ensures forall j :: 0 <= j < |recommended| ==>
      ApplyPair(cur, recommended[k - 1], generate)[j] ==
        if j < k then Enriched(recommended[j], generate) else recommended[j]
  {
    var spot := recommended[k - 1];
    match ImagePair(spot, generate)
    case None =>
    case Some((day, night)) =>
      var r := UpdateById(cur, spot.id, day, night);
      forall j | 0 <= j < |recommended|
        ensures r[j] == if j < k then Enriched(recommended[j], generate) else recommended[j]
      {
        assert cur[j].id == recommended[j].id;
        if j == k - 1 {
          assert r[j] == WithImages(spot, day, night);
        }
      }
  }

  /** `timeValues[id] || 1`: a missing entry or 0 counts as 1. */
  function SliderValue(timeValues: map<string, int>, id: string): int
  {
    if id in timeValues && timeValues[id] != 0 then timeValues[id] else 1
  }

  /** `a || b` on two optional strings: an absent or empty `a` gives `b`. */
  function OrElse(a: Option<string>, b: Option<string>): Option<string>
  {
    if a.Some? && a.value != "" then a else b
  }

  /** `getActiveImage`. */
  function GetActiveImage(timeValues: map<string, int>, spot: TravelSpot): Option<string>
  {
    if SliderValue(timeValues, spot.id) == 2 then OrElse(spot.nightImageUrl, spot.imageUrl)
    else spot.imageUrl
  }

  /** In night position the night image is shown, falling back to the day
      image when there is no (non-empty) night image. */
  lemma NightPositionShowsNightOrDay(timeValues: map<string, int>, spot: TravelSpot)
    requires spot.id in timeValues && timeValues[spot.id] == 2
    ensures spot.nightImageUrl.Some? && spot.nightImageUrl.value != "" ==>
      GetActiveImage(timeValues, spot) == spot.nightImageUrl
    ensures !(spot.nightImageUrl.Some? && spot.nightImageUrl.value != "") ==>
      GetActiveImage(timeValues, spot) == spot.imageUrl
  {
  }

  /** In any other position, a missing entry and 0 included, the day image
      is shown. */
  lemma OtherPositionShowsDay(timeValues: map<string, int>, spot: TravelSpot)
    requires !(spot.id in timeValues && timeValues[spot.id] == 2)
    ensures GetActiveImage(timeValues, spot) == spot.imageUrl
  {
  }

  /** What the image area of a card shows. */
  datatype SpotPicture = LoadingPlaceholder | Picture(src: Option<string>)

  function PictureOf(imageLoading: map<string, bool>, timeValues: map<string, int>, spot: TravelSpot): SpotPicture
  {
    if spot.id in imageLoading && imageLoading[spot.id] then LoadingPlaceholder
    else Picture(GetActiveImage(timeValues, spot))
  }

  /** A card shows the placeholder exactly while its loading flag is set. */
  lemma PlaceholderIffLoading(imageLoading: map<string, bool>, timeValues: map<string, int>, spot: TravelSpot)
    ensures PictureOf(imageLoading, timeValues, spot) == LoadingPlaceholder <==>
      spot.id in imageLoading && imageLoading[spot.id]
  {
  }

  /** Once a spot's pair has succeeded, the night position shows its night
      image and the day position its day image. */
  lemma EnrichedSpotFollowsSlider(timeValues: map<string, int>, spot: TravelSpot, generate: ImageRequest -> Result<ImageResponse, ApiError>)
    requires ImagePair(spot, generate).Some?
    ensures GetActiveImage(timeValues[spot.id := 2], Enriched(spot, generate)) == Some(ImagePair(spot, generate).value.1)
    ensures GetActiveImage(timeValues[spot.id := 1], Enriched(spot, generate)) == Some(ImagePair(spot, generate).value.0)
  {
    ImageVariantNonEmpty(spot.name, spot.location, Night, generate);
  }

  /** After a successful fetch each spot, in its place, carries its images
      exactly when its own pair succeeded. */
  lemma FetchedSpotsAreEnriched(
    archetypeId: ArchetypeId,
    recommend: ArchetypeId -> Result<Option<string>, ApiError>,
    parse: string -> Parsed,
    generate: ImageRequest -> Result<ImageResponse, ApiError>)
    requires GetTravelRecommendations(archetypeId, recommend, parse).Ok?
    ensures var recs := GetTravelRecommendations(archetypeId, recommend, parse).value;
      |EnrichUpTo(recs, |recs|, generate)| == |recs| &&
      forall j :: 0 <= j < |recs| ==>
        EnrichUpTo(recs, |recs|, generate)[j] == Enriched(recs[j], generate)
  {
    var recs := GetTravelRecommendations(archetypeId, recommend, parse).value;
    EnrichUpToSpec(recs, |recs|, generate);
  }

  /** After the loop no card shows the placeholder: each shows the day
      image it ended up with, which is the generated one when its pair
      succeeded. */
  lemma {:induction false} CardsAfterEnrichment(
    recommended: seq<TravelSpot>, timeValues: map<string, int>,
    generate: ImageRequest -> Result<ImageResponse, ApiError>)
    requires DistinctIds(recommended)
    ensures var spots := EnrichUpTo(recommended, |recommended|, generate);
      var tv := timeValues + Flags(IdsOf(recommended), 1);
      |spots| == |recommended| &&
      forall j :: 0 <= j < |recommended| ==>
        PictureOf(Flags(IdsOf(recommended), false), tv, spots[j]) == Picture(spots[j].imageUrl) &&
        spots[j].imageUrl ==
          match ImagePair(recommended[j], generate)
          case Some((day, _)) => Some(day)
          case None => recommended[j].imageUrl
  {
    EnrichUpToSpec(recommended, |recommended|, generate);
    var spots := EnrichUpTo(recommended, |recommended|, generate);
    forall j | 0 <= j < |recommended|
      ensures spots[j].id == recommended[j].id && recommended[j].id in IdsOf(recommended)
    {
    }
  }

  class Dashboard {
    const archetypeId: ArchetypeId
    var spots: seq<TravelSpot>
    var loading: bool
    var imageLoading: map<string, bool>
    var timeValues: map<string, int>

    /** The view mounts with no spots, loading, and empty maps. */
    constructor (archetypeId: ArchetypeId)
      ensures this.archetypeId == archetypeId
      ensures spots == [] && loading && imageLoading == map[] && timeValues == map[]
    {
      this.archetypeId := archetypeId;
      spots := [];
      loading := true;
      imageLoading := map[];
      timeValues := map[];
    }

    /** What the card of `spot` shows in the current state. */
    function CardPicture(spot: TravelSpot): SpotPicture
      reads this
    {
      PictureOf(imageLoading, timeValues, spot)
    }

    /** The recommendations arrive: they become the list, loading ends and
        every spot id is marked as waiting for images. */
    method ShowRecommendations(recommended: seq<TravelSpot>)
      modifies this
      ensures spots == recommended && !loading && timeValues == old(timeValues)
      ensures imageLoading.Keys == IdsOf(recommended)
      ensures forall id :: id in imageLoading ==> imageLoading[id]
      ensures forall j :: 0 <= j < |spots| ==> CardPicture(spots[j]) == LoadingPlaceholder
    {
      spots := recommended;
      loading := false;
      imageLoading := InitialLoading(recommended);
    }

    /** One turn of the `for` loop: the slider of the spot is put at 1, both
        images are requested, a successful pair is attached to the spot with
        the same id, and whatever happened the spot's loading flag is
        cleared. Nothing else changes. */
    method EnrichSpot(spot: TravelSpot, generate: ImageRequest -> Result<ImageResponse, ApiError>)
      modifies this
      ensures timeValues == old(timeValues)[spot.id := 1]
      ensures imageLoading == old(imageLoading)[spot.id := false]
      ensures spots == ApplyPair(old(spots), spot, generate)
      ensures ImagePair(spot, generate).None? ==> spots == old(spots)
      ensures loading == old(loading)
    {
      timeValues := timeValues[spot.id := 1];
      var day := GenerateSpotImageVariant(spot.name, spot.location, Present, generate);
      var night := GenerateSpotImageVariant(spot.name, spot.location, Night, generate);
      if day.Ok? && night.Ok? {
        spots := UpdateById(spots, spot.id, day.value, night.value);
      }
      imageLoading := imageLoading[spot.id := false];
    }

    /** The `for` loop over the recommended spots, in list order, one spot
        at a time: afterwards no spot waits for images, every spot's slider
        is at 1 and the list is the in-order enrichment of the spots. */
    method EnrichAll(recommended: seq<TravelSpot>, generate: ImageRequest -> Result<ImageResponse, ApiError>)
      requires spots == recommended
      requires imageLoading.Keys == IdsOf(recommended)
      modifies this
      ensures spots == EnrichUpTo(recommended, |recommended|, generate)
      ensures imageLoading == Flags(IdsOf(recommended), false)
      ensures timeValues == old(timeValues) + Flags(IdsOf(recommended), 1)
      ensures loading == old(loading)
    {
      for i := 0 to |recommended|
        invariant loading == old(loading)
        invariant spots == EnrichUpTo(recommended, i, generate)
        invariant imageLoading.Keys == IdsOf(recommended)
        invariant forall id :: id in IdsOf(recommended[..i]) ==> !imageLoading[id]
        invariant timeValues == old(timeValues) + Flags(IdsOf(recommended[..i]), 1)
      {
        IdsOfPrefix(recommended, i);
        assert recommended[i].id in IdsOf(recommended);
        FlagsAdd(old(timeValues), IdsOf(recommended[..i]), recommended[i].id, 1);
        EnrichSpot(recommended[i], generate);
      }
      assert recommended[..|recommended|] == recommended;
      assert imageLoading == Flags(IdsOf(recommended), false);
    }

    /** `fetchSpots`. If the recommendation request throws, the loading state
        stays on and nothing else changes. Otherwise the recommendations are
        shown and every spot is processed once, in list order. */
    method FetchSpots(
      recommend: ArchetypeId -> Result<Option<string>, ApiError>,
      parse: string -> Parsed,
      generate: ImageRequest -> Result<ImageResponse, ApiError>)
      modifies this
      ensures var r := GetTravelRecommendations(archetypeId, recommend, parse);
        r.Err? ==>
          loading && spots == old(spots) && imageLoading == old(imageLoading) &&
          timeValues == old(timeValues)
      ensures var r := GetTravelRecommendations(archetypeId, recommend, parse);
        r.Ok? ==>
          !loading &&
          spots == EnrichUpTo(r.value, |r.value|, generate) &&
          imageLoading == Flags(IdsOf(r.value), false) &&
          timeValues == old(timeValues) + Flags(IdsOf(r.value), 1)
      ensures var r := GetTravelRecommendations(archetypeId, recommend, parse);
        r.Ok? ==>
          |spots| == |r.value| &&
          forall j :: 0 <= j < |spots| ==>
            spots[j] == Enriched(r.value[j], generate) &&
            CardPicture(spots[j]) == Picture(spots[j].imageUrl)
    {
      loading := true;
      var r := GetTravelRecommendations(archetypeId, recommend, parse);
      if r.Err? {
        return;
      }
      ShowRecommendations(r.value);
      EnrichAll(r.value, generate);
      EnrichUpToSpec(r.value, |r.value|, generate);
      CardsAfterEnrichment(r.value, old(timeValues), generate);
    }

    /** The slider's `onChange`: the spot's entry takes the new value and no
        other entry changes. */
    method SetTimeValue(id: string, value: int)
      modifies this
      ensures timeValues == old(timeValues)[id := value]
      ensures spots == old(spots) && imageLoading == old(imageLoading) && loading == old(loading)
    {
      timeValues := timeValues[id := value];
    }
  }
}
