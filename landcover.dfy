/** The Bhuvan land-cover lookup: a first-match scan of the attributes of a
    WMS GetFeatureInfo answer for words naming a soil category. */
module LandCover {
  import opened SoilTypes
  import Text

  /** One attribute value: Python-falsy (missing, null, "", 0, ...), or
      truthy, carried as the text `str(val)`. */
  datatype Attr = Falsy | Shown(text: string)

  /** One element of `features`; a missing `properties` is the empty map.
      `Broken` is an element on which `.get` raises: one that is not an
      object, or whose `properties` is present but not an object (null, a
      list, a string). */
  datatype Feature = Feature(properties: map<string, Attr>) | Broken

  /** What the WMS request produced: a failure (the request raised, the
      status was an error, or the body did not have the documented shape),
      or the `features` list (empty when the field is missing). */
  datatype WmsAnswer = WmsFailed | Features(features: seq<Feature>)

  /** Attribute names tried in each feature, in this order. */
  const CandidateKeys: seq<string> := ["SOILTYPE", "soil_type", "SOIL", "class", "TYPE"]

  /** The category named by one lower-cased attribute text; tests run red,
      then black/vertisol, then laterite/lateritic, then peat/histic/muck. */
  function TextCategory(v: string): (c: Option<SoilType>)
    ensures c.Some? ==> IsLandCover(c.value)
    ensures Text.Contains(v, "red") ==> c == Some(Red)
  {
    if Text.Contains(v, "red") then Some(Red)
    else if Text.Contains(v, "black") || Text.Contains(v, "vertisol") then Some(Black)
    else if Text.Contains(v, "laterite") || Text.Contains(v, "lateritic") then Some(Laterite)
    else if Text.Contains(v, "peat") || Text.Contains(v, "histic") || Text.Contains(v, "muck") then Some(Peaty)
    else None
  }

  /** The category named by attribute `key` of a feature, if any. */
  function AttrCategory(props: map<string, Attr>, key: string): (c: Option<SoilType>)
    ensures c.Some? ==> key in props && props[key].Shown? && IsLandCover(c.value)
    ensures key in props && props[key].Shown? && Text.Contains(Text.Lower(props[key].text), "red") ==> c == Some(Red)
  {
    if key !in props || props[key].Falsy? then None
    else TextCategory(Text.Lower(props[key].text))
  }

  /** First match over `keys` in one feature. */
  function KeysCategory(props: map<string, Attr>, keys: seq<string>): (c: Option<SoilType>)
    ensures c.Some? ==> IsLandCover(c.value)
    decreases |keys|
  {
    if keys == [] then None
    else match AttrCategory(props, keys[0])
      case Some(c) => Some(c)
      case None => KeysCategory(props, keys[1..])
  }

  /** First match over the features, each scanned over the candidate keys;
      a broken feature ends the scan with None (the `except` branch). */
  function FeaturesCategory(features: seq<Feature>): (c: Option<SoilType>)
    ensures c.Some? ==> IsLandCover(c.value)
    decreases |features|
  {
    if features == [] || features[0].Broken? then None
    else match KeysCategory(features[0].properties, CandidateKeys)
      case Some(c) => Some(c)
      case None => FeaturesCategory(features[1..])
  }

  /** `_get_bhuvan_category`: nothing is queried without a configured
      layer, and a failed query yields None. */
  function BhuvanCategory(layerConfigured: bool, answer: WmsAnswer): (c: Option<SoilType>)
    ensures c.Some? ==> IsLandCover(c.value)
    ensures !layerConfigured || answer.WmsFailed? ==> c == None
  {
    if !layerConfigured then None
    else match answer
      case WmsFailed => None
      case Features(fs) => FeaturesCategory(fs)
  }

  method GetBhuvanCategory(layerConfigured: bool, answer: WmsAnswer) returns (c: Option<SoilType>)
    ensures c == BhuvanCategory(layerConfigured, answer)
    ensures c.Some? ==> IsLandCover(c.value)
  {
    if !layerConfigured || answer.WmsFailed? {
      return None;
    }
    var features := answer.features;
    var i := 0;
    while i < |features|
      invariant 0 <= i <= |features|
      invariant FeaturesCategory(features) == FeaturesCategory(features[i..])
    {
      if features[i].Broken? {
        return None;
      }
      var props := features[i].properties;
      var j := 0;
      while j < |CandidateKeys|
        invariant 0 <= j <= |CandidateKeys|
        invariant KeysCategory(props, CandidateKeys) == KeysCategory(props, CandidateKeys[j..])
      {
        var key := CandidateKeys[j];
        if key in props && props[key].Shown? {
          var v := Text.Lower(props[key].text);
          if Text.Contains(v, "red") { return Some(Red); }
          if Text.Contains(v, "black") || Text.Contains(v, "vertisol") { return Some(Black); }
          if Text.Contains(v, "laterite") || Text.Contains(v, "lateritic") { return Some(Laterite); }
          if Text.Contains(v, "peat") || Text.Contains(v, "histic") || Text.Contains(v, "muck") { return Some(Peaty); }
        }
        j := j + 1;
      }
      i := i + 1;
    }
    return None;
  }

  /** How many features the scan reads before it reaches a broken one. */
  function Reached(features: seq<Feature>): (n: nat)
    ensures n <= |features|
    ensures forall i :: 0 <= i < n ==> features[i].Feature?
    ensures n < |features| ==> features[n].Broken?
    decreases |features|
  {
    if features == [] || features[0].Broken? then 0 else 1 + Reached(features[1..])
  }

  /** The position (feature `i`, candidate key `j`) holds a category. */
  function Hit(features: seq<Feature>, i: nat, j: nat): Option<SoilType> {
    if i < |features| && j < |CandidateKeys| && features[i].Feature? then
      AttrCategory(features[i].properties, CandidateKeys[j])
    else None
  }

  /** Every position before (i, j), in scan order, holds no category. */
  predicate NothingBefore(features: seq<Feature>, i: nat, j: nat) {
    && (forall i', j' :: 0 <= i' < i && 0 <= j' < |CandidateKeys| ==> Hit(features, i', j') == None)
    && (forall j' :: 0 <= j' < j ==> Hit(features, i, j') == None)
  }

  /** First match within one feature. */
  lemma {:induction false} KeysFirstMatch(props: map<string, Attr>, keys: seq<string>)
    ensures KeysCategory(props, keys) == None <==> forall j :: 0 <= j < |keys| ==> AttrCategory(props, keys[j]) == None
    ensures KeysCategory(props, keys).Some? ==>
      exists j :: 0 <= j < |keys| && AttrCategory(props, keys[j]) == KeysCategory(props, keys) &&
        forall j' :: 0 <= j' < j ==> AttrCategory(props, keys[j']) == None
    decreases |keys|
  {
    if keys != [] {
      KeysFirstMatch(props, keys[1..]);
      if AttrCategory(props, keys[0]).None? && KeysCategory(props, keys).Some? {
        var j :| 0 <= j < |keys[1..]| && AttrCategory(props, keys[1..][j]) == KeysCategory(props, keys[1..]) &&
          forall j' :: 0 <= j' < j ==> AttrCategory(props, keys[1..][j']) == None;
        assert AttrCategory(props, keys[j + 1]) == KeysCategory(props, keys);
        forall j' | 0 <= j' < j + 1 ensures AttrCategory(props, keys[j']) == None {
          if j' > 0 { assert keys[j'] == keys[1..][j' - 1]; }
        }
      }
      if AttrCategory(props, keys[0]).Some? {
        assert AttrCategory(props, keys[0]) == KeysCategory(props, keys);
      }
      if AttrCategory(props, keys[0]).None? {
        assert forall j :: 1 <= j < |keys| ==> keys[j] == keys[1..][j - 1];
      }
    }
  }

  /** Positions in the features after the first are positions in the rest, shifted by one. */
  lemma HitShift(features: seq<Feature>, i: nat, j: nat)
    requires 0 < i
    requires |features| > 0
    ensures Hit(features, i, j) == Hit(features[1..], i - 1, j)
  {
  }

  /** The scan returns None exactly when no (feature, key) position before
      the first broken feature names a category. */
  lemma {:induction false} FeaturesNoneIff(features: seq<Feature>)
    ensures FeaturesCategory(features) == None <==>
      forall i, j :: 0 <= i < Reached(features) && 0 <= j < |CandidateKeys| ==> Hit(features, i, j) == None
    decreases |features|
  {
    if features != [] && features[0].Feature? {
      var rest := features[1..];
      FeaturesNoneIff(rest);
      assert Reached(features) == 1 + Reached(rest);
      KeysFirstMatch(features[0].properties, CandidateKeys);
      assert forall j :: 0 <= j < |CandidateKeys| ==> Hit(features, 0, j) == AttrCategory(features[0].properties, CandidateKeys[j]);
      forall i, j | 0 < i < |features| && 0 <= j < |CandidateKeys| ensures Hit(features, i, j) == Hit(rest, i - 1, j) {
        HitShift(features, i, j);
      }
      if FeaturesCategory(rest).Some? && KeysCategory(features[0].properties, CandidateKeys).None? {
        var i, j :| 0 <= i < Reached(rest) && 0 <= j < |CandidateKeys| && Hit(rest, i, j) != None;
        HitShift(features, i + 1, j);
      }
    }
  }

  /** A first match in the features after the first is a first match in all
      of them, one feature later, when the first feature names nothing. */
  lemma NothingBeforeShift(features: seq<Feature>, i: nat, j: nat)
    requires |features| > 0
    requires forall j' :: 0 <= j' < |CandidateKeys| ==> Hit(features, 0, j') == None
    requires NothingBefore(features[1..], i, j)
    ensures Hit(features, i + 1, j) == Hit(features[1..], i, j)
    ensures NothingBefore(features, i + 1, j)
  {
    HitShift(features, i + 1, j);
    forall i', j' | 0 <= i' < i + 1 && 0 <= j' < |CandidateKeys| ensures Hit(features, i', j') == None {
      if i' > 0 { HitShift(features, i', j'); }
    }
    var k := i + 1;
    forall j' | 0 <= j' < j ensures Hit(features, k, j') == None {
      HitShift(features, k, j');
    }
  }

  /** When the scan finds a category, it is the one at the first position, in
      scan order, that names any category, and that position comes before
      the first broken feature. */
  lemma {:induction false} FeaturesFirstMatch(features: seq<Feature>)
    ensures FeaturesCategory(features).Some? ==>
      exists i, j :: 0 <= i < Reached(features) && 0 <= j < |CandidateKeys| &&
        Hit(features, i, j) == FeaturesCategory(features) && NothingBefore(features, i, j)
    decreases |features|
  {
    if features != [] && FeaturesCategory(features).Some? {
      var rest := features[1..];
      var props := features[0].properties;
      assert Reached(features) == 1 + Reached(rest);
      KeysFirstMatch(props, CandidateKeys);
      if KeysCategory(props, CandidateKeys).Some? {
        var j :| 0 <= j < |CandidateKeys| &&
          AttrCategory(props, CandidateKeys[j]) == KeysCategory(props, CandidateKeys) &&
          forall j' :: 0 <= j' < j ==> AttrCategory(props, CandidateKeys[j']) == None;
        assert Hit(features, 0, j) == FeaturesCategory(features);
        assert NothingBefore(features, 0, j);
      } else {
        FeaturesFirstMatch(rest);
        var i, j :| 0 <= i < Reached(rest) && 0 <= j < |CandidateKeys| &&
          Hit(rest, i, j) == FeaturesCategory(rest) && NothingBefore(rest, i, j);
        forall j' | 0 <= j' < |CandidateKeys| ensures Hit(features, 0, j') == None {
          assert Hit(features, 0, j') == AttrCategory(props, CandidateKeys[j']);
        }
        NothingBeforeShift(features, i, j);
      }
    }
  }

  /** The four tests in their order: each category holds exactly when its
      words occur and no earlier test's words do. */
  lemma TextCategoryCases(v: string)
    ensures TextCategory(v) == Some(Red) <==> Text.Contains(v, "red")
    ensures TextCategory(v) == Some(Black) <==>
      !Text.Contains(v, "red") && (Text.Contains(v, "black") || Text.Contains(v, "vertisol"))
    ensures TextCategory(v) == Some(Laterite) <==>
      !Text.Contains(v, "red") && !Text.Contains(v, "black") && !Text.Contains(v, "vertisol") &&
      (Text.Contains(v, "laterite") || Text.Contains(v, "lateritic"))
    ensures TextCategory(v) == Some(Peaty) <==>
      !Text.Contains(v, "red") && !Text.Contains(v, "black") && !Text.Contains(v, "vertisol") &&
      !Text.Contains(v, "laterite") && !Text.Contains(v, "lateritic") &&
      (Text.Contains(v, "peat") || Text.Contains(v, "histic") || Text.Contains(v, "muck"))
    ensures TextCategory(v) == None <==>
      !Text.Contains(v, "red") && !Text.Contains(v, "black") && !Text.Contains(v, "vertisol") &&
      !Text.Contains(v, "laterite") && !Text.Contains(v, "lateritic") &&
      !Text.Contains(v, "peat") && !Text.Contains(v, "histic") && !Text.Contains(v, "muck")
  {
  }

  /** A match before a broken feature is returned. */
  lemma MatchBeforeBroken()
    ensures FeaturesCategory([Feature(map["SOILTYPE" := Shown("Red soil")]), Broken]) == Some(Red)
  {
    var red := map["SOILTYPE" := Shown("Red soil")];
    assert Text.Lower("Red soil")[..3] == "red";
    assert AttrCategory(red, CandidateKeys[0]) == Some(Red);
  }

  /** "sandy" names no category. */
  lemma SandyNamesNothing()
    ensures TextCategory("sandy") == None
  {
    Text.AbsentWithoutFirstChar("sandy", "red");
    Text.AbsentWithoutFirstChar("sandy", "black");
    Text.AbsentWithoutFirstChar("sandy", "vertisol");
    Text.AbsentWithoutFirstChar("sandy", "laterite");
    Text.AbsentWithoutFirstChar("sandy", "lateritic");
    Text.AbsentWithoutFirstChar("sandy", "peat");
    Text.AbsentWithoutFirstChar("sandy", "histic");
    Text.AbsentWithoutFirstChar("sandy", "muck");
  }

  /** A broken feature before any match ends the scan with None, even when a
      later feature matches. */
  lemma BrokenBeforeMatch()
    ensures FeaturesCategory([Feature(map["SOIL" := Shown("sandy")]), Broken, Feature(map["SOIL" := Shown("black")])]) == None
  {
    var sandy := map["SOIL" := Shown("sandy")];
    assert Text.Lower("sandy") == "sandy";
    SandyNamesNothing();
    assert AttrCategory(sandy, "SOIL") == None;
    assert KeysCategory(sandy, CandidateKeys[4..]) == None;
    assert KeysCategory(sandy, CandidateKeys[3..]) == None;
    assert KeysCategory(sandy, CandidateKeys[2..]) == None;
    assert KeysCategory(sandy, CandidateKeys) == None;
  }

  /** A value naming both red and black is Red: red is tested first. */
  lemma RedBeforeBlack()
    ensures TextCategory("red and black soils") == Some(Red)
    ensures TextCategory("black cotton soil") == Some(Black)
  {
    assert "red and black soils"[..3] == "red";
    assert "black cotton soil"[..5] == "black";
    Text.AbsentWithoutFirstChar("black cotton soil", "red");
  }
}
