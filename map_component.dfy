/** The drawing map: four tile basemaps of which the one named by `baseMap`
 *  is visible, one vector layer that receives drawn features, at most one
 *  Draw interaction (for the active tool), and the list of records of the
 *  features drawn so far. React state and refs are fields of one object; a
 *  state setter followed by the effects that depend on that state is one
 *  method. */
module MapComponent {
  import opened Collection
  import opened OpenLayers

  /** The drawing tools; `NoTool` is the toolbar's "None". */
  datatype Tool = NoTool | Point | LineString | Polygon {
    /** The string the toolbar stores, which is also the Draw interaction's `type`. */
    function Name(): string {
      match this
      case NoTool => "None"
      case Point => "Point"
      case LineString => "LineString"
      case Polygon => "Polygon"
    }
  }

  /** One entry of the basemap table: its key, tile URL template and attribution. */
  datatype BaseMapConfig = BaseMapConfig(key: string, url: string, attribution: string)

  /** The basemap table, in its declaration (and so enumeration) order. */
  const BaseMapLayers: seq<BaseMapConfig> := [
    BaseMapConfig("osm", "https://{a-c}.tile.openstreetmap.org/{z}/{x}/{y}.png",
      "\U{00A9} OpenStreetMap contributors"),
    BaseMapConfig("stadia", "https://tiles.stadiamaps.com/tiles/alidade_satellite/{z}/{x}/{y}.jpg",
      "\U{00A9} Stadia Maps"),
    BaseMapConfig("carto", "https://{a-c}.basemaps.cartocdn.com/rastertiles/voyager_nolabels/{z}/{x}/{y}{r}.png",
      "\U{00A9} Carto"),
    BaseMapConfig("esri", "https://server.arcgisonline.com/ArcGIS/rest/services/World_Imagery/MapServer/tile/{z}/{y}/{x}",
      "\U{00A9} Esri")
  ]

  function BaseMapKeys(): seq<string> {
    seq(|BaseMapLayers|, i requires 0 <= i < |BaseMapLayers| => BaseMapLayers[i].key)
  }

  /** The tiles of a basemap: an XYZ source with the entry's URL and attribution. */
  function BaseTiles(c: BaseMapConfig): TileSource {
    Xyz(c.url, [c.attribution])
  }

  /** `{id: Date.now(), type: geometry.type, coordinates}` */
  datatype FeatureRecord = FeatureRecord(id: int, kind: string, coordinates: Payload)

  /** The updater given to `setFeaturesData`: the previous records, then one more. */
  function WithRecord(prev: seq<FeatureRecord>, r: FeatureRecord): (next: seq<FeatureRecord>)
    ensures |next| == |prev| + 1
    ensures next[..|prev|] == prev && next[|prev|] == r
  {
    prev + [r]
  }

  /** The Draw interactions on the map: the one in `drawRef`, if any. */
  function Installed(d: Draw?): seq<Draw> {
    if d == null then [] else [d]
  }

  /** `drawRef` is what the tool effect leaves for tool `t`: nothing for "None",
   *  otherwise a Draw of that type. */
  predicate Matches(d: Draw?, t: Tool) {
    if t == NoTool then d == null else d != null && d.kind == t.Name()
  }

  /** The number of keys equal to `b`: how many base layers the visibility effect shows. */
  function CountKey(keys: seq<string>, b: string): nat {
    if |keys| == 0 then 0
    else (if keys[0] == b then 1 else 0) + CountKey(keys[1..], b)
  }

  /** With distinct keys, exactly one key matches a key of the table and none matches anything else. */
  lemma {:induction false} CountKeyDistinct(keys: seq<string>, b: string)
    requires NoDup(keys)
    ensures CountKey(keys, b) == if b in keys then 1 else 0
  {
    if |keys| > 0 {
      var tail := keys[1..];
      assert forall j :: 0 <= j < |tail| ==> tail[j] == keys[j + 1];
      assert NoDup(tail);
      assert keys[0] !in tail;
      assert b in keys <==> b == keys[0] || b in tail;
      CountKeyDistinct(tail, b);
    }
  }

  /** The table's four keys are distinct, so exactly one basemap is shown for a
   *  key of the table and none for any other string. */
  lemma ExactlyOneBaseKey(b: string)
    ensures CountKey(BaseMapKeys(), b) == if b in BaseMapKeys() then 1 else 0
  {
    var keys := BaseMapKeys();
    assert keys == ["osm", "stadia", "carto", "esri"];
    CountKeyDistinct(keys, b);
  }

  /** The number of visible layers among the base layers. */
  ghost function VisibleCount(layers: seq<Layer>): nat
    reads layers
    decreases |layers|
  {
    if |layers| == 0 then 0
    else (if layers[0].visible then 1 else 0) + VisibleCount(layers[1..])
  }

  /** When every base layer is visible exactly for the selected key, the visible
   *  layers are counted by the keys equal to it. */
  lemma {:induction false} VisibleCountKeys(keys: seq<string>, layers: seq<Layer>, b: string)
    requires |keys| == |layers|
    requires forall i :: 0 <= i < |layers| ==> layers[i].visible == (keys[i] == b)
    ensures VisibleCount(layers) == CountKey(keys, b)
  {
    if |layers| > 0 {
      VisibleCountKeys(keys[1..], layers[1..], b);
    }
  }

  class MapComponent {
    /** The `map` state: null until the setup effect has built the map. */
    var olMap: OlMap?
    /** `baseLayersRef.current`, as its keys and the tile layer of each key. */
    var baseKeys: seq<string>
    var baseLayers: seq<Layer>
    /** `vectorLayerRef.current` */
    var vectorLayer: Layer?
    /** `drawRef.current` */
    var drawRef: Draw?
    var baseMap: string
    var activeTool: Tool
    var featuresData: seq<FeatureRecord>

    /** What holds between any two steps, including right after the tool has
     *  changed and before the tool effect has run. */
    ghost predicate Consistent()
      reads this, olMap, baseLayers
    {
      && |baseKeys| == |baseLayers|
      && NoDup(baseLayers)
      && (forall i :: 0 <= i < |baseLayers| ==> baseLayers[i].visible == (baseKeys[i] == baseMap))
      && (olMap == null ==> baseLayers == [] && vectorLayer == null && drawRef == null)
      && (olMap != null ==>
            && olMap.Valid()
            && vectorLayer != null && vectorLayer.kind.Vector?
            && baseKeys == BaseMapKeys()
            && olMap.layers == baseLayers + [vectorLayer]
            && olMap.interactions == Installed(drawRef))
      && (drawRef != null ==> vectorLayer != null && vectorLayer.kind.Vector? && drawRef.source == vectorLayer.kind.source)
    }

    /** `Consistent`, and once the map exists the installed Draw is the active tool's. */
    ghost predicate Valid()
      reads this, olMap, baseLayers
    {
      Consistent() && (olMap != null ==> Matches(drawRef, activeTool))
    }

    /** The first render: no map yet, basemap "osm", tool "None", no records. */
    constructor ()
      ensures Valid()
      ensures olMap == null && baseKeys == [] && baseLayers == [] && vectorLayer == null && drawRef == null
      ensures baseMap == "osm" && activeTool == NoTool && featuresData == []
    {
      olMap := null;
      baseKeys := [];
      baseLayers := [];
      vectorLayer := null;
      drawRef := null;
      baseMap := "osm";
      activeTool := NoTool;
      featuresData := [];
    }

    /** The first commit: the setup effect builds one tile layer per basemap
     *  (visible for the current key), the vector layer and the map; the
     *  visibility effect runs; the tool effect of this commit still sees no map
     *  and returns; `setMap` re-renders and the tool effect runs with the map. */
    method Mount()
      requires Valid() && olMap == null
      modifies this
      ensures Valid() && olMap != null && fresh(olMap)
      ensures baseKeys == BaseMapKeys()
      ensures forall i :: 0 <= i < |baseLayers| ==> fresh(baseLayers[i]) && baseLayers[i].kind == Tile(BaseTiles(BaseMapLayers[i]))
      ensures vectorLayer != null && fresh(vectorLayer) && vectorLayer.kind.Vector?
      ensures fresh(vectorLayer.kind.source) && vectorLayer.kind.source.features == []
      ensures baseMap == old(baseMap) && activeTool == old(activeTool) && featuresData == old(featuresData)
    {
      var keys, layers := BuildBaseLayers(baseMap);
      var source := new VectorSource([]);
      var layer := new Layer(Vector(source, DefaultStyling), true);
      NoDupSnoc(layers, layer);
      var m := new OlMap(layers + [layer]);
      baseKeys, baseLayers := keys, layers;
      vectorLayer := layer;
      ApplyBasemap();
      olMap := m;
      RunToolEffect();
    }

    /** The setup effect's loop over the basemap table: one fresh tile layer per
     *  entry, visible exactly for the entry whose key is `selected`. */
    static method BuildBaseLayers(selected: string) returns (keys: seq<string>, layers: seq<Layer>)
      ensures keys == BaseMapKeys() && |layers| == |keys| && NoDup(layers)
      ensures forall i :: 0 <= i < |layers| ==>
                && fresh(layers[i])
                && layers[i].kind == Tile(BaseTiles(BaseMapLayers[i]))
                && layers[i].visible == (keys[i] == selected)
    {
      keys, layers := [], [];
      var i := 0;
      while i < |BaseMapLayers|
        invariant 0 <= i <= |BaseMapLayers| && |keys| == i && |layers| == i
        invariant keys == BaseMapKeys()[..i]
        invariant NoDup(layers)
        invariant forall k :: 0 <= k < i ==>
                    && fresh(layers[k])
                    && layers[k].kind == Tile(BaseTiles(BaseMapLayers[k]))
                    && layers[k].visible == (keys[k] == selected)
      {
        var c := BaseMapLayers[i];
        var layer := new Layer(Tile(BaseTiles(c)), c.key == selected);
        NoDupSnoc(layers, layer);
        assert BaseMapKeys()[..i + 1] == BaseMapKeys()[..i] + [c.key];
        keys, layers := keys + [c.key], layers + [layer];
        i := i + 1;
      }
    }

    /** The visibility effect: every base layer is shown exactly when its key is `baseMap`. */
    method ApplyBasemap()
      requires |baseKeys| == |baseLayers| && NoDup(baseLayers)
      modifies baseLayers
      ensures forall i :: 0 <= i < |baseLayers| ==> baseLayers[i].visible == (baseKeys[i] == baseMap)
    {
      var i := 0;
      while i < |baseLayers|
        invariant 0 <= i <= |baseLayers|
        invariant forall k :: 0 <= k < i ==> baseLayers[k].visible == (baseKeys[k] == baseMap)
      {
        baseLayers[i].SetVisible(baseKeys[i] == baseMap);
        i := i + 1;
      }
    }

    /** `setBaseMap(key)` and, when the key changes, the visibility effect. */
    method SetBaseMap(key: string)
      requires Valid()
      modifies this, baseLayers
      ensures Valid() && baseMap == key
      ensures olMap == old(olMap) && baseKeys == old(baseKeys) && baseLayers == old(baseLayers) && vectorLayer == old(vectorLayer)
      ensures drawRef == old(drawRef) && activeTool == old(activeTool) && featuresData == old(featuresData)
      ensures forall i :: 0 <= i < |baseLayers| ==> baseLayers[i].visible == (baseKeys[i] == key)
    {
      if key != baseMap {
        baseMap := key;
        ApplyBasemap();
      }
    }

    /** Exactly one base layer is visible when `baseMap` names a basemap, and
     *  none when it names anything else. */
    lemma ExactlyOneVisible()
      requires Valid() && olMap != null
      ensures VisibleCount(baseLayers) == if baseMap in BaseMapKeys() then 1 else 0
    {
      VisibleCountKeys(baseKeys, baseLayers, baseMap);
      ExactlyOneBaseKey(baseMap);
    }

    /** The tool effect: nothing without the map and the vector layer; otherwise
     *  the old Draw comes off the map, and for a tool other than "None" a new
     *  one of that type on the vector source goes on and into `drawRef`. */
    method RunToolEffect()
      requires Consistent()
      modifies this, olMap
      ensures Valid()
      ensures olMap == old(olMap) && baseKeys == old(baseKeys) && baseLayers == old(baseLayers) && vectorLayer == old(vectorLayer)
      ensures baseMap == old(baseMap) && activeTool == old(activeTool) && featuresData == old(featuresData)
      ensures olMap != null ==> olMap.layers == old(olMap.layers)
      ensures olMap == null || vectorLayer == null ==> drawRef == old(drawRef)
      ensures olMap != null && vectorLayer != null ==>
                olMap.interactions == RemoveFirst(old(olMap.interactions), old(drawRef)) + Installed(drawRef)
      ensures olMap != null && activeTool == NoTool ==> drawRef == null && olMap.interactions == []
      ensures olMap != null && activeTool != NoTool ==>
                && drawRef != null && fresh(drawRef)
                && drawRef.kind == activeTool.Name() && drawRef.source == vectorLayer.kind.source
                && olMap.interactions == [drawRef]
    {
      if olMap == null || vectorLayer == null {
        return;
      }
      if drawRef != null {
        olMap.RemoveInteraction(drawRef);
        drawRef := null;
      }
      if activeTool == NoTool {
        return;
      }
      var draw := new Draw(activeTool.Name(), vectorLayer.kind.source);
      olMap.AddInteraction(draw);
      drawRef := draw;
    }

    /** `setActiveTool(t)` and, when the tool changes, the tool effect. */
    method SelectTool(t: Tool)
      requires Valid()
      modifies this, olMap
      ensures Valid() && activeTool == t
      ensures olMap == old(olMap) && baseKeys == old(baseKeys) && baseLayers == old(baseLayers) && vectorLayer == old(vectorLayer)
      ensures baseMap == old(baseMap) && featuresData == old(featuresData)
      ensures olMap != null ==> olMap.layers == old(olMap.layers) && olMap.interactions == Installed(drawRef)
      ensures t == old(activeTool) ==> drawRef == old(drawRef)
      ensures olMap != null && t != old(activeTool) && t != NoTool ==> fresh(drawRef)
    {
      if t != activeTool {
        activeTool := t;
        RunToolEffect();
      }
    }

    /** A finished drawing: the `drawend` listener appends one record of the
     *  Draw's type with the given id and coordinates, and the Draw then adds
     *  the feature to the vector source. */
    method DrawEnd(id: int, coordinates: Payload)
      requires Valid() && drawRef != null
      modifies this, drawRef.source
      ensures Valid()
      ensures olMap == old(olMap) && baseKeys == old(baseKeys) && baseLayers == old(baseLayers) && vectorLayer == old(vectorLayer)
      ensures drawRef == old(drawRef) && baseMap == old(baseMap) && activeTool == old(activeTool)
      ensures featuresData == WithRecord(old(featuresData), FeatureRecord(id, drawRef.kind, coordinates))
      ensures drawRef.source.features == old(drawRef.source.features) + [Feature(Geom(drawRef.kind, coordinates), map[])]
    {
      featuresData := WithRecord(featuresData, FeatureRecord(id, drawRef.kind, coordinates));
      drawRef.source.AddFeature(Feature(Geom(drawRef.kind, coordinates), map[]));
    }

    /** `handleClearAll`: nothing without the vector layer; otherwise its source
     *  and the record list are emptied. */
    method ClearAll()
      requires Valid()
      modifies this, if vectorLayer != null && vectorLayer.kind.Vector? then {vectorLayer.kind.source} else {}
      ensures Valid()
      ensures olMap == old(olMap) && baseKeys == old(baseKeys) && baseLayers == old(baseLayers) && vectorLayer == old(vectorLayer)
      ensures drawRef == old(drawRef) && baseMap == old(baseMap) && activeTool == old(activeTool)
      ensures vectorLayer == null ==> featuresData == old(featuresData)
      ensures vectorLayer != null ==> vectorLayer.kind.Vector? && vectorLayer.kind.source.features == [] && featuresData == []
    {
      if vectorLayer == null {
        return;
      }
      vectorLayer.kind.source.Clear();
      featuresData := [];
    }
  }
}
