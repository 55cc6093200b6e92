/** Extraction of soil properties from SoilGrids answers: the batch request
    for clay, sand, silt and phh2o, and the one-request-per-property retry
    used when the batch request is refused. */
module PropertyFetch {
  import opened SoilTypes
  import Region

  /** `values.mean` of a depth band as `float()` sees it: absent or null,
      a number (or anything `float()` accepts), or something it rejects. */
  datatype Mean = NoMean | Number(v: real) | NotNumber

  /** One depth band; a band without `values` has `NoMean`. */
  datatype Depth = Depth(mean: Mean)

  /** One element of `properties`; a missing or null `depths` is `[]`. */
  datatype PropEntry = PropEntry(name: PropKey, depths: seq<Depth>)

  /** A decoded JSON body. `Malformed` is a body that cannot be decoded or
      does not have the documented shape (the source raises on it). A body
      without `properties` is `Properties([])`. */
  datatype Body = Malformed | Properties(entries: seq<PropEntry>)

  /** What one HTTP request produced: the request itself raised (timeout,
      connection error), or a status code and a body. */
  datatype Answer = Failed | Reply(status: int, body: Body)

  /** The unit conversion: texture fractions g/kg to percent, pH unscaled. */
  function Scaled(name: PropKey, v: real): (r: real)
    ensures IsTexture(name) ==> r * 10.0 == v
    ensures !IsTexture(name) ==> r == v
  {
    if IsTexture(name) then v / 10.0 else v
  }

  /** An entry whose first depth carries a number. */
  predicate Usable(e: PropEntry) {
    |e.depths| > 0 && e.depths[0].mean.Number?
  }

  /** An entry on which `float(val)` raises. */
  predicate Raises(e: PropEntry) {
    |e.depths| > 0 && e.depths[0].mean.NotNumber?
  }

  // ---------------------------------------------------------------------
  // Batch path
  // ---------------------------------------------------------------------

  /** The state of the extraction loop: still scanning, or raised. */
  datatype Scan = Raised | Scanned(props: Props)

  /** One iteration of the extraction loop. */
  function Absorb(props: Props, e: PropEntry): Scan {
    if |e.depths| == 0 then Scanned(props)
    else match e.depths[0].mean
      case NoMean => Scanned(props)
      case NotNumber => Raised
      case Number(v) => Scanned(props[e.name := Scaled(e.name, v)])
  }

  /** The extraction loop over `entries`, left to right. */
  function ScanEntries(entries: seq<PropEntry>): Scan
    decreases |entries|
  {
    if entries == [] then Scanned(map[])
    else match ScanEntries(entries[..|entries| - 1])
      case Raised => Raised
      case Scanned(p) => Absorb(p, entries[|entries| - 1])
  }

  /** The renormalisation of the three texture fractions. */
  function Renormalised(p: Props): (r: Props)
    ensures r.Keys == p.Keys
    ensures forall k :: k in p && !IsTexture(k) ==> r[k] == p[k]
    ensures !(HasTexture(p) && TextureSum(p) > 0.0) ==> r == p
    ensures HasTexture(p) && TextureSum(p) > 0.0 ==>
      && TextureSum(r) == 100.0
      && r[Clay] * p[Sand] == r[Sand] * p[Clay]
      && r[Sand] * p[Silt] == r[Silt] * p[Sand]
      && r[Clay] * p[Silt] == r[Silt] * p[Clay]
  {
    if HasTexture(p) && TextureSum(p) > 0.0 then
      var s := TextureSum(p);
      var r := p[Clay := p[Clay] * 100.0 / s][Sand := p[Sand] * 100.0 / s][Silt := p[Silt] * 100.0 / s];
      RenormalisedSums(p[Clay], p[Sand], p[Silt]);
      r
    else
      p
  }

  /** The arithmetic behind renormalisation: the scaled fractions sum to 100
      and keep their pairwise ratios. */
  lemma RenormalisedSums(c: real, a: real, i: real)
    requires c + a + i > 0.0
    ensures c * 100.0 / (c + a + i) + a * 100.0 / (c + a + i) + i * 100.0 / (c + a + i) == 100.0
    ensures (c * 100.0 / (c + a + i)) * a == (a * 100.0 / (c + a + i)) * c
    ensures (a * 100.0 / (c + a + i)) * i == (i * 100.0 / (c + a + i)) * a
    ensures (c * 100.0 / (c + a + i)) * i == (i * 100.0 / (c + a + i)) * c
  {
  }

  /** What the batch request yields once its reply is a 200 with a
      well-formed body: the renormalised extraction, or None when nothing
      was extracted; `Raised` stays raised. */
  function BatchResult(entries: seq<PropEntry>): Scan {
    match ScanEntries(entries)
    case Raised => Raised
    case Scanned(p) => Scanned(Renormalised(p))
  }

  /** `_get_soilgrids_data`: the batch request, delegating to the
      per-property requests on a non-200 status and falling back to mock
      data whenever the batch path raises. */
  function SoilGridsData(lat: real, lon: real, batch: Answer, ask: string -> Answer): (r: Option<Props>)
    ensures r.Some? ==> r.value != map[]
    ensures r.None? ==> batch.Reply? && (batch.status != 200 || batch.body.Properties?)
  {
    match batch
    case Failed => Some(Region.MockSoilData(lat, lon))
    case Reply(status, body) =>
      if status != 200 then SoilGridsIndividual(ask)
      else match body
        case Malformed => Some(Region.MockSoilData(lat, lon))
        case Properties(entries) =>
          match BatchResult(entries)
          case Raised => Some(Region.MockSoilData(lat, lon))
          case Scanned(p) => if p == map[] then None else Some(p)
  }

  method GetSoilGridsData(lat: real, lon: real, batch: Answer, ask: string -> Answer) returns (r: Option<Props>)
    ensures r == SoilGridsData(lat, lon, batch, ask)
  {
    if batch.Failed? {
      return Some(Region.MockSoilData(lat, lon));
    }
    if batch.status != 200 {
      r := GetSoilGridsIndividual(ask);
      return;
    }
    if batch.body.Malformed? {
      return Some(Region.MockSoilData(lat, lon));
    }
    var entries := batch.body.entries;
    var props: Props := map[];
    var i := 0;
    while i < |entries|
      invariant 0 <= i <= |entries|
      invariant ScanEntries(entries[..i]) == Scanned(props)
    {
      var e := entries[i];
      assert entries[..i + 1][..i] == entries[..i];
      if |e.depths| > 0 {
        match e.depths[0].mean
        case NoMean =>
        case NotNumber =>
          RaisedSticks(entries, i + 1);
          return Some(Region.MockSoilData(lat, lon));
        case Number(v) =>
          props := props[e.name := if e.name in {Clay, Sand, Silt} then v / 10.0 else v];
      }
      i := i + 1;
    }
    assert entries[..i] == entries;
    if Clay in props && Sand in props && Silt in props {
      var s := props[Clay] + props[Sand] + props[Silt];
      if s > 0.0 {
        props := props[Clay := props[Clay] * 100.0 / s][Sand := props[Sand] * 100.0 / s][Silt := props[Silt] * 100.0 / s];
      }
    }
    r := if props == map[] then None else Some(props);
  }

  /** Once the loop has raised, the rest of the entries cannot undo it. */
  lemma {:induction false} RaisedSticks(entries: seq<PropEntry>, n: nat)
    requires n <= |entries|
    requires ScanEntries(entries[..n]) == Raised
    ensures ScanEntries(entries) == Raised
    decreases |entries| - n
  {
    if n < |entries| {
      assert entries[..n + 1][..n] == entries[..n];
      RaisedSticks(entries, n + 1);
    } else {
      assert entries[..n] == entries;
    }
  }

  /** The extraction raises exactly when some entry's first mean is not a number. */
  lemma {:induction false} ScanRaisesIff(entries: seq<PropEntry>)
    ensures ScanEntries(entries) == Raised <==> exists i :: 0 <= i < |entries| && Raises(entries[i])
    decreases |entries|
  {
    if entries != [] {
      var init := entries[..|entries| - 1];
      ScanRaisesIff(init);
      assert forall i :: 0 <= i < |init| ==> init[i] == entries[i];
      if Raises(entries[|entries| - 1]) {
        assert 0 <= |entries| - 1 < |entries|;
      }
    }
  }

  /** The keys extracted are exactly the names of the usable entries. */
  lemma {:induction false} ScanKeys(entries: seq<PropEntry>, k: PropKey)
    requires ScanEntries(entries).Scanned?
    ensures k in ScanEntries(entries).props <==>
      exists i :: 0 <= i < |entries| && entries[i].name == k && Usable(entries[i])
    decreases |entries|
  {
    if entries != [] {
      var init := entries[..|entries| - 1];
      assert ScanEntries(init).Scanned?;
      ScanKeys(init, k);
      assert forall i :: 0 <= i < |init| ==> init[i] == entries[i];
      var last := entries[|entries| - 1];
      if last.name == k && Usable(last) {
        assert 0 <= |entries| - 1 < |entries|;
      }
    }
  }

  /** A usable entry whose name is not reused by a later usable entry
      supplies the extracted value: the first depth's mean, scaled. Later
      entries with the same name overwrite earlier ones. */
  lemma {:induction false} ScanLastWins(entries: seq<PropEntry>, i: nat)
    requires ScanEntries(entries).Scanned?
    requires i < |entries| && Usable(entries[i])
    requires forall j :: i < j < |entries| ==> entries[j].name != entries[i].name || !Usable(entries[j])
    ensures entries[i].name in ScanEntries(entries).props
    ensures ScanEntries(entries).props[entries[i].name] == Scaled(entries[i].name, entries[i].depths[0].mean.v)
    decreases |entries|
  {
    var init := entries[..|entries| - 1];
    assert ScanEntries(init).Scanned?;
    if i < |entries| - 1 {
      assert forall j :: 0 <= j < |init| ==> init[j] == entries[j];
      ScanLastWins(init, i);
    }
  }

  /** The batch path: a non-200 status hands over to the per-property path;
      a request that raises, a malformed body or a non-numeric mean give the
      mock data; otherwise the result is None exactly when no entry was usable. */
  lemma BatchOutcomes(lat: real, lon: real, batch: Answer, ask: string -> Answer)
    ensures batch.Reply? && batch.status != 200 ==>
      SoilGridsData(lat, lon, batch, ask) == SoilGridsIndividual(ask)
    ensures batch.Failed? || (batch.status == 200 && batch.body.Malformed?) ==>
      SoilGridsData(lat, lon, batch, ask) == Some(Region.MockSoilData(lat, lon))
    ensures batch.Reply? && batch.status == 200 && batch.body.Properties? ==>
      var es := batch.body.entries;
      && ((exists i :: 0 <= i < |es| && Raises(es[i])) ==>
            SoilGridsData(lat, lon, batch, ask) == Some(Region.MockSoilData(lat, lon)))
      && ((forall i :: 0 <= i < |es| ==> !Raises(es[i])) ==>
            (SoilGridsData(lat, lon, batch, ask) == None <==> forall i :: 0 <= i < |es| ==> !Usable(es[i])))
  {
    if batch.Reply? && batch.status == 200 && batch.body.Properties? {
      var es := batch.body.entries;
      ScanRaisesIff(es);
      if forall i :: 0 <= i < |es| ==> !Raises(es[i]) {
        var p := ScanEntries(es).props;
        if p == map[] {
          forall i | 0 <= i < |es| ensures !Usable(es[i]) {
            ScanKeys(es, es[i].name);
          }
        } else {
          var k :| k in p;
          ScanKeys(es, k);
        }
      }
    }
  }

  // ---------------------------------------------------------------------
  // Per-property path
  // ---------------------------------------------------------------------

  /** The properties requested one at a time, in this order. */
  const Requested: seq<string> := ["clay", "sand", "silt", "phh2o"]

  /** One per-property request: the scaled first mean of the first entry,
      or None when the request failed, was refused, or carried no number. */
  function Probe(name: string, a: Answer): (r: Option<real>)
    ensures r.Some? <==>
      a.Reply? && a.status == 200 && a.body.Properties? && |a.body.entries| > 0 && Usable(a.body.entries[0])
    ensures r.Some? ==> r.value == Scaled(Named(name), a.body.entries[0].depths[0].mean.v)
  {
    match a
    case Failed => None
    case Reply(status, body) =>
      if status != 200 then None
      else match body
        case Malformed => None
        case Properties(entries) =>
          if |entries| == 0 || |entries[0].depths| == 0 then None
          else match entries[0].depths[0].mean
            case Number(v) => Some(Scaled(Named(name), v))
            case _ => None
  }

  /** The accumulation loop over `names`, left to right. */
  function Gather(names: seq<string>, ask: string -> Answer): (p: Props)
    ensures forall k :: k in p ==> k.Named? && k.name in names
    decreases |names|
  {
    if names == [] then map[]
    else
      var n := names[|names| - 1];
      var p := Gather(names[..|names| - 1], ask);
      match Probe(n, ask(n))
      case None => p
      case Some(v) => p[Named(n) := v]
  }

  /** `_get_soilgrids_individual`. */
  function SoilGridsIndividual(ask: string -> Answer): (r: Option<Props>)
    ensures r.Some? ==> r.value != map[] && r.value.Keys <= {Clay, Sand, Silt, PhH2O}
  {
    var p := Gather(Requested, ask);
    if p == map[] then None else Some(p)
  }

  method GetSoilGridsIndividual(ask: string -> Answer) returns (r: Option<Props>)
    ensures r == SoilGridsIndividual(ask)
  {
    var props: Props := map[];
    var i := 0;
    while i < |Requested|
      invariant 0 <= i <= |Requested|
      invariant props == Gather(Requested[..i], ask)
    {
      var name := Requested[i];
      assert Requested[..i + 1][..i] == Requested[..i];
      var answer := ask(name);
      if answer.Reply? && answer.status == 200 && answer.body.Properties? {
        var entries := answer.body.entries;
        if |entries| > 0 && |entries[0].depths| > 0 {
          var mean := entries[0].depths[0].mean;
          if mean.Number? {
            props := props[Named(name) := if name in {"clay", "sand", "silt"} then mean.v / 10.0 else mean.v];
          }
        }
      }
      i := i + 1;
    }
    assert Requested[..i] == Requested;
    r := if props == map[] then None else Some(props);
  }

  /** A key is gathered exactly when it names a requested property whose
      request produced a value, and it holds that value. */
  lemma {:induction false} GatherKeys(names: seq<string>, ask: string -> Answer, k: PropKey)
    ensures k in Gather(names, ask) <==> k.Named? && k.name in names && Probe(k.name, ask(k.name)).Some?
    ensures k in Gather(names, ask) ==> Gather(names, ask)[k] == Probe(k.name, ask(k.name)).value
    decreases |names|
  {
    if names != [] {
      var init := names[..|names| - 1];
      GatherKeys(init, ask, k);
      assert names == init + [names[|names| - 1]];
    }
  }

  /** The per-property path: keys among clay, sand, silt and phh2o; a failed
      property is absent; each value is the scaled mean, not renormalised;
      None exactly when all four requests fail. */
  lemma IndividualShape(ask: string -> Answer)
    ensures SoilGridsIndividual(ask) == None <==> forall n :: n in Requested ==> Probe(n, ask(n)) == None
    ensures SoilGridsIndividual(ask).Some? ==>
      var p := SoilGridsIndividual(ask).value;
      && p.Keys <= {Clay, Sand, Silt, PhH2O}
      && forall n :: n in Requested ==>
           (Named(n) in p <==> Probe(n, ask(n)).Some?) &&
           (Named(n) in p ==> p[Named(n)] == Probe(n, ask(n)).value)
  {
    var p := Gather(Requested, ask);
    forall k ensures k in p <==> k.Named? && k.name in Requested && Probe(k.name, ask(k.name)).Some? {
      GatherKeys(Requested, ask, k);
    }
    forall n | n in Requested ensures Named(n) in p ==> p[Named(n)] == Probe(n, ask(n)).value {
      GatherKeys(Requested, ask, Named(n));
    }
    if p == map[] {
      forall n | n in Requested ensures Probe(n, ask(n)) == None {
        assert Named(n) !in p;
      }
    } else {
      var k :| k in p;
    }
  }

  /** The per-property path keeps the raw fractions: three equal answers of
      100 g/kg give 10 percent each, not 100/3. */
  lemma IndividualNotRenormalised(ask: string -> Answer)
    requires forall n :: ask(n) == Reply(200, Properties([PropEntry(Unnamed, [Depth(Number(100.0))])]))
    ensures SoilGridsIndividual(ask) == Some(map[Clay := 10.0, Sand := 10.0, Silt := 10.0, PhH2O := 100.0])
  {
    var a := Reply(200, Properties([PropEntry(Unnamed, [Depth(Number(100.0))])]));
    assert ask("clay") == a && ask("sand") == a && ask("silt") == a && ask("phh2o") == a;
    assert Probe("clay", a) == Some(10.0) && Probe("sand", a) == Some(10.0);
    assert Probe("silt", a) == Some(10.0) && Probe("phh2o", a) == Some(100.0);
    assert Requested[..3][..2][..1][..0] == [];
    assert Gather(Requested[..3][..2][..1], ask) == map[Clay := 10.0];
    assert Gather(Requested[..3][..2], ask) == map[Clay := 10.0, Sand := 10.0];
    assert Gather(Requested[..3], ask) == map[Clay := 10.0, Sand := 10.0, Silt := 10.0];
  }

}
