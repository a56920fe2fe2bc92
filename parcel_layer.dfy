/** The parcel overlay: on every run the effect takes the layers it added last
 *  time off the map, then adds one fresh vector layer per district that is
 *  checked and has parcels, in district order, and remembers exactly those. */
module ParcelLayer {
  import opened Collection
  import opened OpenLayers

  /** A parcel record: a plain object whose fields include its `geom`. */
  type Parcel = map<string, Value>

  datatype District = District(checked: bool, displayName: string, color: string, parcels: seq<Parcel>)

  /** The context's `layersRef`: a mutable box holding the tracked layers. */
  class LayersRef {
    var current: seq<Layer>

    /** `useRef([])` */
    constructor ()
      ensures current == []
    {
      current := [];
    }
  }

  /** The guard of the loop body: checked and at least one parcel. */
  predicate Contributes(d: District) {
    d.checked && |d.parcels| > 0
  }

  /** The districts that get a layer, in district order. */
  function Contributing(ds: seq<District>): (r: seq<District>)
    ensures |r| <= |ds|
  {
    if |ds| == 0 then []
    else
      var last := ds[|ds| - 1];
      Contributing(ds[..|ds| - 1]) + (if Contributes(last) then [last] else [])
  }

  /** A district gets a layer if and only if it is checked and has a parcel. */
  lemma {:induction false} ContributingMembers(ds: seq<District>)
    ensures forall d :: d in Contributing(ds) ==> d in ds && Contributes(d)
    ensures forall d :: d in ds && Contributes(d) ==> d in Contributing(ds)
  {
    if |ds| > 0 {
      assert ds == ds[..|ds| - 1] + [ds[|ds| - 1]];
      ContributingMembers(ds[..|ds| - 1]);
    }
  }

  /** Selection keeps order: the layers for `a + b` are those for `a`, then those for `b`. */
  lemma {:induction false} ContributingAppend(a: seq<District>, b: seq<District>)
    ensures Contributing(a + b) == Contributing(a) + Contributing(b)
  {
    if |b| == 0 {
      assert a + b == a;
    } else {
      assert (a + b)[..|a + b| - 1] == a + b[..|b| - 1];
      ContributingAppend(a, b[..|b| - 1]);
    }
  }

  /** A missing field of a JavaScript object reads as `undefined`. */
  function Field(p: Parcel, k: string): Value {
    if k in p then p[k] else Undefined
  }

  /** `{type: "Feature", geometry: parcel.geom, properties: {...parcel, districtName}}` */
  function ParcelFeature(d: District, p: Parcel): (f: Feature)
    ensures f.geometry == (if "geom" in p then p["geom"] else Undefined)
    ensures f.properties.Keys == p.Keys + {"districtName"}
    ensures f.properties["districtName"] == Text(d.displayName)
    ensures forall k :: k in p && k != "districtName" ==> f.properties[k] == p[k]
  {
    Feature(Field(p, "geom"), p["districtName" := Text(d.displayName)])
  }

  /** `district.parcels.map(...)`: one feature per parcel, in parcel order. */
  function DistrictFeatures(d: District): (fs: seq<Feature>)
    ensures |fs| == |d.parcels|
    ensures forall i :: 0 <= i < |fs| ==>
              && fs[i].geometry == Field(d.parcels[i], "geom")
              && fs[i].properties.Keys == d.parcels[i].Keys + {"districtName"}
              && fs[i].properties["districtName"] == Text(d.displayName)
              && (forall k :: k in d.parcels[i] && k != "districtName" ==> fs[i].properties[k] == d.parcels[i][k])
  {
    seq(|d.parcels|, i requires 0 <= i < |d.parcels| => ParcelFeature(d, d.parcels[i]))
  }

  /** `new Style({fill: new Fill({color: district.color + "80"}), stroke: ...})` */
  function DistrictStyle(d: District): Style {
    Style(d.color + "80", "#ffffff", 1)
  }

  /** The fill is the district colour followed by the alpha suffix "80"; the
   *  outline is white and one pixel wide. */
  lemma DistrictStyleFill(d: District)
    ensures |DistrictStyle(d).fill| == |d.color| + 2
    ensures DistrictStyle(d).fill[..|d.color|] == d.color && DistrictStyle(d).fill[|d.color|..] == "80"
    ensures DistrictStyle(d).stroke == "#ffffff" && DistrictStyle(d).strokeWidth == 1
  {
  }

  /** `l` is the visible vector layer the effect builds for district `d`. */
  ghost predicate BuiltFor(l: Layer, d: District)
    reads l, if l.kind.Vector? then {l.kind.source} else {}
  {
    && l.visible
    && l.kind.Vector?
    && l.kind.styling == Styled(DistrictStyle(d), 1)
    && l.kind.source.features == DistrictFeatures(d)
  }

  /** No accumulation: when the tracked layers sit on the map only once each,
   *  taking them off leaves the map's other layers exactly as they were, so a
   *  run that adds `next` leaves `others + next`, whatever the previous run added. */
  lemma RebuildReplacesTracked(others: seq<Layer>, previous: seq<Layer>, next: seq<Layer>)
    requires NoDup(others + previous)
    ensures RemoveAll(others + previous, previous) + next == others + next
  {
    calc {
      RemoveAll(others + previous, previous);
      { RemoveAllNoDup(others + previous, previous); }
      Without(others + previous, previous);
      { WithoutAppend(others, previous, previous); }
      Without(others, previous) + Without(previous, previous);
      { NoDupAppendDisjoint(others, previous); WithoutDisjoint(others, previous); WithoutCovered(previous, previous); }
      others + [];
    }
    assert others + [] == others;
  }

  /** The `useEffect` body, run with `olMap = mapRef.current`. */
  method Rebuild(olMap: OlMap?, layersRef: LayersRef, districts: seq<District>)
    requires olMap != null ==> olMap.Valid()
    modifies olMap, layersRef
    ensures olMap == null ==> layersRef.current == old(layersRef.current)
    ensures olMap != null ==> olMap.Valid() && olMap.interactions == old(olMap.interactions)
    ensures olMap != null ==> olMap.layers == RemoveAll(old(olMap.layers), old(layersRef.current)) + layersRef.current
    ensures olMap != null ==> olMap.layers == Without(old(olMap.layers), old(layersRef.current)) + layersRef.current
    ensures olMap != null ==> |layersRef.current| == |Contributing(districts)| && NoDup(layersRef.current)
    ensures olMap != null ==> forall i :: 0 <= i < |layersRef.current| ==>
              && BuiltFor(layersRef.current[i], Contributing(districts)[i])
              && fresh(layersRef.current[i])
              && fresh(layersRef.current[i].kind.source)
  {
    if olMap == null {
      return;
    }
    var previous := layersRef.current;
    RemoveLayers(olMap, previous);
    RemoveAllNoDup(old(olMap.layers), previous);
    layersRef.current := [];
    AddDistrictLayers(olMap, layersRef, districts);
  }

  /** `layersRef.current.forEach((layer) => map.removeLayer(layer))` */
  method RemoveLayers(olMap: OlMap, previous: seq<Layer>)
    requires olMap.Valid()
    modifies olMap
    ensures olMap.Valid() && olMap.interactions == old(olMap.interactions)
    ensures olMap.layers == RemoveAll(old(olMap.layers), previous)
  {
    var i := 0;
    while i < |previous|
      invariant 0 <= i <= |previous|
      invariant olMap.Valid() && olMap.interactions == old(olMap.interactions)
      invariant olMap.layers == RemoveAll(old(olMap.layers), previous[..i])
    {
      assert previous[..i + 1] == previous[..i] + [previous[i]];
      RemoveAllSnoc(old(olMap.layers), previous[..i], previous[i]);
      olMap.RemoveLayer(previous[i]);
      i := i + 1;
    }
    assert previous[..|previous|] == previous;
  }

  /** `districts.forEach(...)`: add and push one layer per contributing district. */
  method AddDistrictLayers(olMap: OlMap, layersRef: LayersRef, districts: seq<District>)
    requires olMap.Valid() && layersRef.current == []
    modifies olMap, layersRef
    ensures olMap.Valid() && olMap.interactions == old(olMap.interactions)
    ensures olMap.layers == old(olMap.layers) + layersRef.current
    ensures |layersRef.current| == |Contributing(districts)| && NoDup(layersRef.current)
    ensures forall i :: 0 <= i < |layersRef.current| ==>
              && BuiltFor(layersRef.current[i], Contributing(districts)[i])
              && fresh(layersRef.current[i])
              && fresh(layersRef.current[i].kind.source)
  {
    var j := 0;
    ghost var chosen: seq<District> := [];
    ghost var tracked: seq<Layer> := [];
    while j < |districts|
      invariant 0 <= j <= |districts|
      invariant olMap.Valid() && olMap.interactions == old(olMap.interactions)
      invariant layersRef.current == tracked
      invariant olMap.layers == old(olMap.layers) + tracked
      invariant NoDup(tracked)
      invariant chosen == Contributing(districts[..j])
      invariant |tracked| == |chosen|
      invariant forall k :: 0 <= k < |chosen| ==> BuiltFor(tracked[k], chosen[k])
      invariant forall k :: 0 <= k < |chosen| ==> fresh(tracked[k]) && fresh(tracked[k].kind.source)
    {
      var district := districts[j];
      assert districts[..j + 1][..j] == districts[..j];
      if district.checked && |district.parcels| > 0 {
        var added := AddDistrictLayer(olMap, layersRef, district);
        chosen, tracked := chosen + [district], tracked + [added];
      }
      j := j + 1;
    }
    assert districts[..|districts|] == districts;
  }

  /** The loop body for one contributing district: a fresh layer, added to the map and pushed. */
  method AddDistrictLayer(olMap: OlMap, layersRef: LayersRef, district: District) returns (layer: Layer)
    requires olMap.Valid() && NoDup(layersRef.current)
    modifies olMap, layersRef
    ensures olMap.Valid() && olMap.interactions == old(olMap.interactions)
    ensures NoDup(layersRef.current)
    ensures layersRef.current == old(layersRef.current) + [layer]
    ensures olMap.layers == old(olMap.layers) + [layer]
    ensures BuiltFor(layer, district) && fresh(layer) && fresh(layer.kind.source)
  {
    var source := new VectorSource(DistrictFeatures(district));
    layer := new Layer(Vector(source, Styled(DistrictStyle(district), 1)), true);
    olMap.AddLayer(layer);
    NoDupSnoc(layersRef.current, layer);
    layersRef.current := layersRef.current + [layer];
  }
}
