/** The resolution cascade of `SoilDataAPI` and its cache: measured
    properties (or mock data), then the salinity override, then the
    land-cover override, then the texture classifier. */
module SoilApi {
  import opened SoilTypes
  import Region
  import PropertyFetch
  import Salinity
  import LandCover
  import Texture

  /** The optional services that are configured: the GSAS point URL and the
      Bhuvan layer (the Bhuvan WMS address itself is always set). */
  datatype Config = Config(gsasConfigured: bool, bhuvanLayer: bool)

  /** The `location` entry; the timestamp is an opaque value. */
  datatype Location = Location(latitude: real, longitude: real, timestamp: string)

  /** The record the cascade returns and caches. */
  datatype SoilRecord = SoilRecord(
    location: Location,
    soilProperties: Props,
    soilType: SoilType,
    confidence: real,
    sources: seq<Source>,
    success: bool)

  /** What each provider answers for this coordinate: the SoilGrids batch
      request, each per-property SoilGrids request, GSAS and Bhuvan. */
  datatype Providers = Providers(
    batch: PropertyFetch.Answer,
    individual: string -> PropertyFetch.Answer,
    gsas: Salinity.GsasAnswer,
    wms: LandCover.WmsAnswer)

  /** The record as first built, before any provider was consulted. */
  function DefaultRecord(lat: real, lon: real, timestamp: string): SoilRecord {
    SoilRecord(Location(lat, lon, timestamp), map[], Loamy, 0.25, [], false)
  }

  /** The properties the cascade classifies (`sg` from the salinity step
      on) and the source tag they are reported under. */
  function Fetched(lat: real, lon: real, prov: Providers): (Props, Source) {
    var got := PropertyFetch.SoilGridsData(lat, lon, prov.batch, prov.individual);
    if Truthy(got) then (got.value, SoilGrids) else (Region.MockSoilData(lat, lon), Mock)
  }

  /** The land-cover category the cascade consults, if it consults one. */
  function LandCoverStep(config: Config, lat: real, lon: real, prov: Providers): Option<SoilType> {
    if Region.InIndia(lat, lon) && config.bhuvanLayer then LandCover.BhuvanCategory(config.bhuvanLayer, prov.wms)
    else None
  }

  predicate NoDuplicates(s: seq<Source>) {
    forall i, j :: 0 <= i < j < |s| ==> s[i] != s[j]
  }

  /** What every record the cascade caches satisfies. */
  predicate WellFormed(r: SoilRecord) {
    && 1 <= |r.sources| <= 2
    && (r.sources[0] == SoilGrids || r.sources[0] == Mock)
    && (forall i :: 1 <= i < |r.sources| ==> r.sources[i] != SoilGrids && r.sources[i] != Mock)
    && NoDuplicates(r.sources)
    && r.success
    && 0.0 < r.confidence <= 1.0
    && r.soilProperties != map[]
  }

  /** The record the cascade computes on a cache miss. Its `sources` start
      with exactly one of SoilGrids or Mock and hold no duplicates; `success`
      is always set; the confidence is in (0, 1]; the properties are never
      empty. */
  function Resolve(config: Config, lat: real, lon: real, timestamp: string, prov: Providers): (r: SoilRecord)
    ensures WellFormed(r)
  {
    var fetched := Fetched(lat, lon, prov);
    var sg, first := fetched.0, fetched.1;
    var location := Location(lat, lon, timestamp);
    var verdict := Salinity.SaltAlkClass(config.gsasConfigured, prov.gsas, Some(sg));
    if verdict.soilClass.Some? then
      var extra := if verdict.source.Some? && verdict.source.value != first then [verdict.source.value] else [];
      SoilRecord(location, sg, verdict.soilClass.value, verdict.confidence, [first] + extra, true)
    else
      var category := LandCoverStep(config, lat, lon, prov);
      if category.Some? && IsLandCover(category.value) then
        SoilRecord(location, sg, category.value, 0.85, [first, Bhuvan], true)
      else
        var family := Texture.TextureFamily(Some(sg));
        SoilRecord(location, sg, family.0, family.1, [first], true)
  }

  predicate AllWellFormed(cache: map<string, SoilRecord>) {
    forall k :: k in cache ==> WellFormed(cache[k])
  }

  /** Storing a well-formed record keeps every cached record well-formed. */
  lemma StoreKeepsWellFormed(cache: map<string, SoilRecord>, key: string, r: SoilRecord)
    requires AllWellFormed(cache) && WellFormed(r)
    ensures AllWellFormed(cache[key := r])
  {
  }

  /** The order of the cascade: the salinity verdict overrides everything;
      then a land-cover category (consulted only inside India with a layer
      set) at confidence 0.85; then the texture family. The properties are
      always the fetched ones. */
  lemma ResolveOrder(config: Config, lat: real, lon: real, timestamp: string, prov: Providers)
    ensures var r := Resolve(config, lat, lon, timestamp, prov);
      var fetched := Fetched(lat, lon, prov);
      var verdict := Salinity.SaltAlkClass(config.gsasConfigured, prov.gsas, Some(fetched.0));
      var category := LandCoverStep(config, lat, lon, prov);
      && r.soilProperties == fetched.0
      && r.sources[0] == fetched.1
      && r.location == Location(lat, lon, timestamp)
      && r.success
      && (verdict.soilClass.Some? ==>
            r.soilType == verdict.soilClass.value && r.confidence == verdict.confidence &&
            r.sources == [fetched.1, verdict.source.value])
      && (verdict.soilClass.None? && category.Some? ==>
            r.soilType == category.value && r.confidence == 0.85 && r.sources == [fetched.1, Bhuvan])
      && (verdict.soilClass.None? && category.None? ==>
            (r.soilType, r.confidence) == Texture.TextureFamily(Some(fetched.0)) && r.sources == [fetched.1])
      && (Bhuvan in r.sources <==> verdict.soilClass.None? && category.Some?)
      && (Bhuvan in r.sources ==> Region.InIndia(lat, lon) && config.bhuvanLayer)
  {
  }

  /** Outside the India box, or without a layer, the land-cover answer is
      never consulted: the record does not depend on it. */
  lemma LandCoverOnlyInIndia(config: Config, lat: real, lon: real, timestamp: string, prov: Providers, wms: LandCover.WmsAnswer)
    requires !Region.InIndia(lat, lon) || !config.bhuvanLayer
    ensures Resolve(config, lat, lon, timestamp, prov) == Resolve(config, lat, lon, timestamp, prov.(wms := wms))
  {
  }

  /** Which tag the fetched properties carry. Mock is reported exactly when
      SoilGrids produced nothing usable; but when the batch request itself
      raises, the mock data comes back from inside the SoilGrids step and is
      tagged SoilGrids. */
  lemma FetchedTag(lat: real, lon: real, prov: Providers)
    ensures Fetched(lat, lon, prov).1 == Mock <==>
      !Truthy(PropertyFetch.SoilGridsData(lat, lon, prov.batch, prov.individual))
    ensures Fetched(lat, lon, prov).1 == Mock ==> Fetched(lat, lon, prov).0 == Region.MockSoilData(lat, lon)
    ensures prov.batch.Failed? ==>
      Fetched(lat, lon, prov) == (Region.MockSoilData(lat, lon), SoilGrids)
  {
  }

  /** A coordinate at latitude 28.7 with no SoilGrids data and no optional
      service lies in the central band (the northern band starts above 30),
      so it gets the central mock row, whose 40 percent clay is Clayey. */
  lemma CentralMockExample(prov: Providers)
    requires prov.batch == PropertyFetch.Reply(200, PropertyFetch.Properties([]))
    ensures Resolve(Config(false, false), 28.7, 77.1, "t", prov) ==
      SoilRecord(Location(28.7, 77.1, "t"), Region.Sample(40.0, 35.0, 25.0, 7.2), Clayey, 0.75, [Mock], true)
  {
    assert PropertyFetch.ScanEntries([]) == PropertyFetch.Scanned(map[]);
    assert PropertyFetch.BatchResult([]) == PropertyFetch.Scanned(map[]);
    assert PropertyFetch.SoilGridsData(28.7, 77.1, prov.batch, prov.individual) == None;
    var sg := Region.Sample(40.0, 35.0, 25.0, 7.2);
    assert Fetched(28.7, 77.1, prov) == (sg, Mock);
    assert sg[PhH2O] < 8.3;
  }

  /** The service object: its configuration and its cache, keyed by the
      formatted coordinate. */
  class SoilDataApi {
    const config: Config
    /** The cache key of a coordinate (the source formats both to five decimals). */
    const cacheKey: (real, real) -> string
    var cache: map<string, SoilRecord>

    ghost predicate Valid()
      reads this
    {
      AllWellFormed(cache)
    }

    constructor (config: Config, cacheKey: (real, real) -> string)
      ensures Valid()
      ensures this.config == config && this.cacheKey == cacheKey && cache == map[]
    {
      this.config := config;
      this.cacheKey := cacheKey;
      cache := map[];
    }

    /** `get_soil_data_by_location`. `runtimeFault` stands for an exception
        that no provider answer produces (every provider failure is caught
        inside its own step) escaping before the record is first updated. */
    method GetSoilDataByLocation(latitude: real, longitude: real, timestamp: string, prov: Providers, runtimeFault: bool)
      returns (out: SoilRecord)
      requires Valid()
      modifies this
      ensures Valid()
      ensures cacheKey(latitude, longitude) in old(cache) ==>
        out == old(cache)[cacheKey(latitude, longitude)] && cache == old(cache)
      ensures cacheKey(latitude, longitude) !in old(cache) && runtimeFault ==>
        out == DefaultRecord(latitude, longitude, timestamp) && cache == old(cache)
      ensures cacheKey(latitude, longitude) !in old(cache) && !runtimeFault ==>
        out == Resolve(config, latitude, longitude, timestamp, prov) &&
        cache == old(cache)[cacheKey(latitude, longitude) := out]
    {
      var key := cacheKey(latitude, longitude);
      if key in cache {
        return cache[key];
      }
      if runtimeFault {
        return DefaultRecord(latitude, longitude, timestamp);
      }
      out := ResolveRecord(config, latitude, longitude, timestamp, prov);
      StoreKeepsWellFormed(cache, key, out);
      cache := cache[key := out];
    }
  }

  /** The body of `get_soil_data_by_location` after the cache lookup: the
      record starts as the default and each step of the cascade updates it. */
  method ResolveRecord(config: Config, latitude: real, longitude: real, timestamp: string, prov: Providers)
    returns (out: SoilRecord)
    ensures out == Resolve(config, latitude, longitude, timestamp, prov)
  {
    var location := Location(latitude, longitude, timestamp);
    var properties: Props := map[];
    var soilType := Loamy;
    var confidence := 0.25;
    var sources: seq<Source> := [];
    var success := false;

    var sg := PropertyFetch.GetSoilGridsData(latitude, longitude, prov.batch, prov.individual);
    if Truthy(sg) {
      properties := properties + sg.value;
      sources := sources + [SoilGrids];
    } else {
      sg := Some(Region.MockSoilData(latitude, longitude));
      if Truthy(sg) {
        properties := properties + sg.value;
        sources := sources + [Mock];
      }
    }
    ghost var fetched := Fetched(latitude, longitude, prov);
    assert sg == Some(fetched.0) && properties == fetched.0 && sources == [fetched.1];

    var verdict := Salinity.SaltAlkClass(config.gsasConfigured, prov.gsas, sg);
    if verdict.soilClass.Some? {
      soilType := verdict.soilClass.value;
      confidence := verdict.confidence;
      if verdict.source.Some? && verdict.source.value !in sources {
        sources := sources + [verdict.source.value];
      }
      success := true;
      return SoilRecord(location, properties, soilType, confidence, sources, success);
    }

    if Region.InIndia(latitude, longitude) && config.bhuvanLayer {
      var category := LandCover.GetBhuvanCategory(config.bhuvanLayer, prov.wms);
      assert category == LandCoverStep(config, latitude, longitude, prov);
      if category.Some? && IsLandCover(category.value) {
        soilType := category.value;
        confidence := 0.85;
        sources := sources + [Bhuvan];
        success := true;
        return SoilRecord(location, properties, soilType, confidence, sources, success);
      }
    }

    assert LandCoverStep(config, latitude, longitude, prov).None?;
    var family := Texture.TextureFamily(sg);
    soilType := family.0;
    confidence := family.1;
    success := sg.Some?;
    out := SoilRecord(location, properties, soilType, confidence, sources, success);
  }

  /** Asking twice for the same coordinate gives the same record the second
      time, whatever the providers answer then. */
  method RepeatedLookup(api: SoilDataApi, lat: real, lon: real, t1: string, t2: string, p1: Providers, p2: Providers)
    returns (first: SoilRecord, second: SoilRecord)
    requires api.Valid()
    modifies api
    ensures api.Valid()
    ensures second == first
    ensures api.cacheKey(lat, lon) in api.cache && api.cache[api.cacheKey(lat, lon)] == first
    ensures api.cacheKey(lat, lon) !in old(api.cache) ==> first == Resolve(api.config, lat, lon, t1, p1)
  {
    first := api.GetSoilDataByLocation(lat, lon, t1, p1, false);
    second := api.GetSoilDataByLocation(lat, lon, t2, p2, false);
  }
}
