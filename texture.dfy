/** The coarse four-way texture classifier. */
module Texture {
  import opened SoilTypes

  /** One row of the threshold table: `property >= threshold` gives `family`. */
  datatype Rule = Rule(property: PropKey, threshold: real, family: SoilType, confidence: real)

  /** The table, in the order its rows are tested. */
  const FamilyRules: seq<Rule> := [
    Rule(Clay, 40.0, Clayey, 0.75),
    Rule(Sand, 70.0, Sandy, 0.70),
    Rule(Silt, 80.0, Silty, 0.70)
  ]

  /** The first row of `rules` whose test holds for `p`, missing properties
      reading as 0.0, or Loamy at 0.60 when none does. */
  function FirstRule(rules: seq<Rule>, p: Props): (SoilType, real)
    decreases |rules|
  {
    if rules == [] then (Loamy, 0.60)
    else if Get(p, rules[0].property, 0.0) >= rules[0].threshold then (rules[0].family, rules[0].confidence)
    else FirstRule(rules[1..], p)
  }

  /** `_texture_family_from_soilgrids`. */
  function TextureFamily(sg: Option<Props>): (r: (SoilType, real))
    ensures r == (Loamy, 0.25) <==> !Truthy(sg)
    ensures r.0 == Loamy || r.0 == Clayey || r.0 == Sandy || r.0 == Silty
    ensures 0.25 <= r.1 <= 0.75
  {
    if !Truthy(sg) then (Loamy, 0.25)
    else
      var p := sg.value;
      var clay, sand, silt := Get(p, Clay, 0.0), Get(p, Sand, 0.0), Get(p, Silt, 0.0);
      if clay >= 40.0 then (Clayey, 0.75)
      else if sand >= 70.0 then (Sandy, 0.70)
      else if silt >= 80.0 then (Silty, 0.70)
      else (Loamy, 0.60)
  }

  /** The classifier is the table read top to bottom: total, first match wins. */
  lemma TextureFamilyIsFirstRule(sg: Option<Props>)
    requires Truthy(sg)
    ensures TextureFamily(sg) == FirstRule(FamilyRules, sg.value)
  {
    var p := sg.value;
    var r1 := FamilyRules[1..];
    var r2 := r1[1..];
    assert r1[0] == Rule(Sand, 70.0, Sandy, 0.70);
    assert r2 == [Rule(Silt, 80.0, Silty, 0.70)];
    assert r2[1..] == [];
    assert FirstRule(r2, p) == if Get(p, Silt, 0.0) >= 80.0 then (Silty, 0.70) else (Loamy, 0.60);
    assert FirstRule(r1, p) == if Get(p, Sand, 0.0) >= 70.0 then (Sandy, 0.70) else FirstRule(r2, p);
    assert FirstRule(FamilyRules, p) == if Get(p, Clay, 0.0) >= 40.0 then (Clayey, 0.75) else FirstRule(r1, p);
  }

  /** Each class with the exact condition that selects it. */
  lemma TextureFamilyCases(sg: Option<Props>)
    ensures !Truthy(sg) ==> TextureFamily(sg) == (Loamy, 0.25)
    ensures Truthy(sg) ==>
      var p := sg.value;
      && (TextureFamily(sg).0 == Clayey <==> Get(p, Clay, 0.0) >= 40.0)
      && (TextureFamily(sg).0 == Sandy <==> Get(p, Clay, 0.0) < 40.0 && Get(p, Sand, 0.0) >= 70.0)
      && (TextureFamily(sg).0 == Silty <==>
            Get(p, Clay, 0.0) < 40.0 && Get(p, Sand, 0.0) < 70.0 && Get(p, Silt, 0.0) >= 80.0)
      && (TextureFamily(sg).0 == Loamy <==>
            Get(p, Clay, 0.0) < 40.0 && Get(p, Sand, 0.0) < 70.0 && Get(p, Silt, 0.0) < 80.0)
      && TextureFamily(sg).1 == (match TextureFamily(sg).0
                                  case Clayey => 0.75
                                  case Loamy => 0.60
                                  case _ => 0.70)
  {
  }

  /** Clay exactly 40 is Clayey even with sand at 70 or more; clay-dominant
      wins over sand-dominant; an empty dictionary is the no-data class. */
  lemma TextureBoundaries()
    ensures TextureFamily(Some(map[Clay := 40.0, Sand := 70.0, Silt := 0.0])) == (Clayey, 0.75)
    ensures TextureFamily(Some(map[Clay := 45.0, Sand := 50.0, Silt := 5.0])) == (Clayey, 0.75)
    ensures TextureFamily(Some(map[])) == (Loamy, 0.25)
    ensures TextureFamily(Some(map[PhH2O := 7.0])) == (Loamy, 0.60)
  {
    assert Clay in map[Clay := 40.0, Sand := 70.0, Silt := 0.0];
    assert Clay in map[Clay := 45.0, Sand := 50.0, Silt := 5.0];
    assert PhH2O in map[PhH2O := 7.0];
  }
}
