# Soil resolution cascade of `backend/soil_api.py`

A Dafny model of the soil-data service of `backend/soil_api.py`. Given a
coordinate, `SoilDataAPI.get_soil_data_by_location` returns a soil record:

1. it consults its cache first;
2. it asks SoilGrids for clay, sand, silt and pH in a batch request. On a
   refused batch it asks for each property alone. When the batch request
   raises, it substitutes latitude-band mock data;
3. when SoilGrids yields nothing, it uses the mock data and tags it "Mock";
4. a GSAS salinity class, or a pH of at least 8.3, overrides the class;
5. inside India, with a Bhuvan layer configured, a land-cover category
   found in the WMS feature attributes overrides the class;
6. otherwise a four-way texture table classifies the fractions;
7. the record is cached.

Every network answer is an input value: `PropertyFetch.Answer` for
SoilGrids, `Salinity.GsasAnswer` for GSAS and `LandCover.WmsAnswer` for
Bhuvan. Each failure the source catches (timeout, error status, bad JSON,
a mean that `float()` rejects) is a variant of these types and drives the
same branch as in the source. A WMS feature on which `.get` raises (null,
not an object, or `"properties": null`) is the `Broken` feature: the scan
returns a match found before it and stops with None when it reaches it.

Modules:

- `SoilTypes`: the property dictionary, the soil classes and the source tags.
- `Text`: ASCII `lower()` and the substring test.
- `Region`: `in_india` and the mock table.
- `PropertyFetch`: batch and per-property parsing, each a loop method proved equal to a fold.
- `Salinity`: the salinity refinement.
- `LandCover`: the Bhuvan scan, a nested loop proved equal to a first-match function.
- `Texture`: the texture table.
- `SoilApi`: the cascade as a function `Resolve`, and the class `SoilDataApi`. Its method updates the cache and is proved against `Resolve`.

Percentages and pH are `real`.

### Behaviour of the code worth knowing

- When the SoilGrids batch request raises (timeout, connection error, bad
  body), `_get_soilgrids_data` returns mock data itself (lines 132-135), and
  the cascade tags that data "SoilGrids" (lines 41-43). "Mock" appears only
  when SoilGrids answered without usable data. See `SoilApi.FetchedTag`.
- `_get_mock_soil_data` never returns None, so `success` is true on every
  path that does not raise (lines 57, 67 and 74), mock data included. See
  `SoilApi.Resolve`.
- Latitude 28.7 is in the central mock band, because the northern band
  needs lat > 30 (line 174): its row is (40, 35, 25, 7.2), which the
  texture table classifies as Clayey at 0.75. See `SoilApi.CentralMockExample`.
- The only classifier in the file is the four-way texture table of lines
  235-242.

## Model

| member | source | states |
|---|---|---|
| `Text.Lower` | backend/soil_api.py:191 | lower-casing keeps the length and maps each character on its own; applying it twice changes nothing more (`Text.LowerIdempotent`) |
| `Text.ContainsIffOccurs` | backend/soil_api.py:226-229 | the substring test used by the land-cover rules holds exactly when the pattern occurs at some position |
| `Region.InIndia` | backend/soil_api.py:16-17 | the closed box 6.0 <= lat <= 37.2, 68.0 <= lon <= 97.5 |
| `Region.BoxIsClosed` | backend/soil_api.py:16-17 | the India box is closed: its corners are inside and points just outside are not |
| `Region.MockSoilData` | backend/soil_api.py:169-182 | mock data always has clay, sand, silt and phh2o; the three fractions sum to 100; outside the box it is the global default (20, 50, 30, 7.0) |
| `Region.MockBands` | backend/soil_api.py:172-179 | inside the box: lat > 30 gives (25, 45, 30, 7.5), lat < 15 gives (35, 40, 25, 6.8), and 15 <= lat <= 30, both ends included, gives (40, 35, 25, 7.2) |
| `PropertyFetch.Scaled` | backend/soil_api.py:116-120 | texture values are the raw mean divided by 10; phh2o and other properties are unscaled |
| `PropertyFetch.Renormalised` | backend/soil_api.py:122-129 | with all three fractions and a positive sum, they then sum to exactly 100 and keep their pairwise ratios; other keys are untouched; otherwise nothing changes |
| `PropertyFetch.SoilGridsData` | backend/soil_api.py:84-135 | the batch path never yields an empty dictionary, and yields None only after a reply that was not a failed request, a malformed body or a raising mean |
| `PropertyFetch.GetSoilGridsData` | backend/soil_api.py:84-135 | the batch loop returns what the batch-path specification gives for every answer (delegation, mock fallback, extraction, renormalisation) |
| `PropertyFetch.ScanRaisesIff` | backend/soil_api.py:113-118 | extraction raises exactly when some entry's first mean is not a number |
| `PropertyFetch.ScanKeys` | backend/soil_api.py:108-115 | the keys extracted are exactly the names of entries with a non-empty `depths` and a numeric mean |
| `PropertyFetch.ScanLastWins` | backend/soil_api.py:108-120 | the value stored under a name comes from `depths[0]` of the last usable entry with that name |
| `PropertyFetch.BatchOutcomes` | backend/soil_api.py:98-135 | a non-200 status delegates to the per-property path; a failed request, malformed body or non-numeric mean gives mock data; otherwise None exactly when no entry was usable |
| `PropertyFetch.Probe` | backend/soil_api.py:144-161 | one property request yields a value exactly when it is a 200 whose first entry has a numeric first mean, and the value is that mean, scaled |
| `PropertyFetch.SoilGridsIndividual` | backend/soil_api.py:137-167 | the per-property path never yields an empty dictionary, and its keys lie within clay, sand, silt and phh2o |
| `PropertyFetch.GetSoilGridsIndividual` | backend/soil_api.py:137-167 | the per-property loop returns the fold of the four probes |
| `PropertyFetch.GatherKeys` | backend/soil_api.py:143-161 | a key is gathered exactly when it is a requested property whose probe produced a value, and it holds that value |
| `PropertyFetch.IndividualShape` | backend/soil_api.py:143-167 | keys lie within clay, sand, silt, phh2o; a failed property is absent; values are the probed ones; None exactly when all four fail |
| `PropertyFetch.IndividualNotRenormalised` | backend/soil_api.py:158-165 | the per-property path does not renormalise: three answers of 100 g/kg give 10 percent each |
| `Salinity.SaltAlkClass` | backend/soil_api.py:184-203 | GSAS decides with 0.9 (saline or saline-sodic to Saline, sodic or alkaline to Alkaline) when configured and recognised; otherwise pH >= 8.3 gives Alkaline at 0.65 from the pH heuristic; otherwise no class, confidence 0, no source |
| `Salinity.ClassIsCaseInsensitive` | backend/soil_api.py:191-195 | only the lower-cased class text matters |
| `Salinity.UnconfiguredServiceIgnored` | backend/soil_api.py:185-202 | without a GSAS URL the service answer is irrelevant; pH exactly 8.3 is alkaline |
| `LandCover.TextCategory` | backend/soil_api.py:226-229 | a lower-cased attribute text maps to Red, Black, Laterite or Peaty or nothing; any text containing "red" is Red |
| `LandCover.TextCategoryCases` | backend/soil_api.py:226-229 | each category holds exactly when its words occur and the words of no earlier test do: red, then black or vertisol, then laterite or lateritic, then peat, histic or muck |
| `LandCover.AttrCategory` | backend/soil_api.py:222-229 | a missing or falsy attribute names nothing; a category always comes from a present, truthy attribute and is a land-cover class; a value containing "red" in any case is Red |
| `LandCover.BhuvanCategory` | backend/soil_api.py:204-233 | the result is Red, Black, Laterite, Peaty or None; no layer or a failed request gives None |
| `LandCover.GetBhuvanCategory` | backend/soil_api.py:204-233 | the nested scan with early returns equals the first-match specification and yields only land-cover categories |
| `LandCover.KeysFirstMatch` | backend/soil_api.py:221-229 | within one feature: no category iff no candidate key names one; otherwise the category of the first key that does |
| `LandCover.Reached` | backend/soil_api.py:219-220 | the features the scan reads before the first one on which `.get` raises: all intact, followed by a broken one or the end |
| `LandCover.FeaturesNoneIff` | backend/soil_api.py:219-233 | the scan finds nothing exactly when no (feature, key) position before the first broken feature names a category |
| `LandCover.FeaturesFirstMatch` | backend/soil_api.py:219-229 | a found category is the one at the first position, in scan order, that names a category, and that position precedes every broken feature |
| `LandCover.MatchBeforeBroken` | backend/soil_api.py:219-229 | a "Red soil" feature followed by a null feature gives Red |
| `LandCover.BrokenBeforeMatch` | backend/soil_api.py:219-233 | a "sandy" feature, then a broken one, then a "black" one gives None |
| `LandCover.RedBeforeBlack` | backend/soil_api.py:226-227 | a value naming both red and black is Red; a black value without red is Black |
| `Texture.TextureFamily` | backend/soil_api.py:235-242 | (Loamy, 0.25) exactly when there is no data; otherwise a texture family (Clayey, Sandy, Silty or Loamy) with confidence between 0.25 and 0.75 |
| `Texture.TextureFamilyIsFirstRule` | backend/soil_api.py:238-242 | the classifier is the ordered table clay >= 40, sand >= 70, silt >= 80, read top to bottom, with Loamy 0.60 after it |
| `Texture.TextureFamilyCases` | backend/soil_api.py:235-242 | no data gives (Loamy, 0.25); otherwise each family holds under exactly its first-match condition, with missing keys as 0.0 |
| `Texture.TextureBoundaries` | backend/soil_api.py:238-240 | clay exactly 40 with sand 70 is Clayey; clay 45 with sand 50 is Clayey; an empty dictionary is (Loamy, 0.25) |
| `SoilTypes.NamesMatchStrings` | backend/soil_api.py:56-63 | class and tag names are distinct strings, so the tag test `src not in sources` is a string test; the land-cover classes are exactly those named in `{"Red", "Black", "Laterite", "Peaty"}` |
| `SoilApi.Resolve` | backend/soil_api.py:39-77 | every computed record starts its sources with exactly one of SoilGrids or Mock, has no duplicates, at most two entries, success set, confidence in (0, 1] and non-empty properties |
| `SoilApi.ResolveOrder` | backend/soil_api.py:51-74 | salinity overrides land cover and texture; land cover (0.85, tagged Bhuvan) applies only inside India with a layer; otherwise the texture family; properties are the fetched ones |
| `SoilApi.LandCoverOnlyInIndia` | backend/soil_api.py:61-62 | outside the box or without a layer, the Bhuvan answer does not affect the record |
| `SoilApi.FetchedTag` | backend/soil_api.py:40-49 | Mock is the tag exactly when SoilGrids yielded nothing usable; a raising batch request yields mock data tagged SoilGrids |
| `SoilApi.CentralMockExample` | backend/soil_api.py:174-179 | (28.7, 77.1) without SoilGrids data gets the central mock row and is Clayey at 0.75, tagged Mock |
| `SoilApi.SoilDataApi.constructor` | backend/soil_api.py:20-22 | a new service has an empty cache |
| `SoilApi.SoilDataApi.GetSoilDataByLocation` | backend/soil_api.py:24-81 | a cached key returns the stored record unchanged; a miss stores and returns the cascade's record; a fault before the record is touched returns the default record uncached; every cached record stays well-formed |
| `SoilApi.ResolveRecord` | backend/soil_api.py:30-77 | the step-by-step updates of the record (fetch or mock, salinity, land cover, texture, success) produce exactly the cascade's record `Resolve` |
| `SoilApi.RepeatedLookup` | backend/soil_api.py:25-28 | a second lookup of the same coordinate returns the first record, whatever the providers answer then |

## Left out

- HTTP requests, timeouts, `raise_for_status` and JSON decoding: each provider answer is an input value, and a body that cannot be decoded or has the wrong shape is `Malformed`, `GsasFailed` or `WmsFailed`. A single WMS feature of the wrong shape is a `Broken` feature instead, because the scan may return before it reaches it.
- URL and query construction: the SoilGrids parameters, the WMS GetFeatureInfo parameters and bbox, and the GSAS URL template.
- Logging, and `datetime.now()`: the timestamp is an opaque string argument.
- The cache key format (`f"{lat:.5f},{lon:.5f}"`): it is the class's `cacheKey` function, fixed at construction. Two coordinates that round to the same key share an entry, as in the source.
- `get_location_info`: a reverse-geocoding pass-through with no decision logic.
- The module-level singleton and configuration constants: the class takes a `Config` (GSAS URL set or not, Bhuvan layer set or not) at construction.
- Floating point: values are `real`. Renormalised fractions sum to exactly 100 in the model and only approximately in IEEE doubles. NaN and infinities are not modelled.
- `Text.Lower`: lower-cases ASCII letters only. Non-ASCII characters whose Python lower case is ASCII (the Kelvin sign) are not modelled.
- JSON values of unexpected types: property names are strings or absent (`Unnamed`), and attribute values are falsy or carried as their `str()` text.
- `SoilApi.SoilDataApi.GetSoilDataByLocation`: the `except` branch (lines 79-81) is modelled only for a fault before the record is first updated, through the `runtimeFault` flag. Every provider failure is caught inside its own step, so no provider answer reaches that branch.
- Concurrency and cache eviction: the source has neither.
- Aliasing of cached records: the source stores the `out` dict in the cache and returns that same object (lines 28, 58, 68, 76), so a caller that mutates a returned record mutates the cached one. Records here are values, so the model does not capture that sharing.
