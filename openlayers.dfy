/** OpenLayers objects as the components see them: opaque tokens with the few
 *  fields the components read or change. Rendering, tile loading, GeoJSON
 *  parsing and the Draw interaction's own vertex capture are not modelled;
 *  coordinates are an opaque payload. */
module OpenLayers {
  import opened Collection

  /** A coordinate payload produced by OpenLayers (projected floating point). */
  datatype Payload = Payload(token: nat)

  /** A JSON value, as far as the components look into it. */
  datatype Value =
    | Undefined
    | Text(text: string)
    | Geom(kind: string, coordinates: Payload)
    | Other(token: nat)

  /** A GeoJSON feature: its geometry and its `properties` object. */
  datatype Feature = Feature(geometry: Value, properties: map<string, Value>)

  /** `new Style({fill: new Fill({color: fill}), stroke: new Stroke({color: stroke, width})})` */
  datatype Style = Style(fill: string, stroke: string, strokeWidth: int)

  /** A vector layer keeps the library's default style, or is given a style and a z-index. */
  datatype Styling = DefaultStyling | Styled(style: Style, zIndex: int)

  /** Tile sources: `new OSM()`, or `new XYZ({url, attributions})`. */
  datatype TileSource = Osm | Xyz(url: string, attributions: seq<string>)

  class VectorSource {
    var features: seq<Feature>

    constructor (features: seq<Feature>)
      ensures this.features == features
    {
      this.features := features;
    }

    method AddFeature(f: Feature)
      modifies this
      ensures features == old(features) + [f]
    {
      features := features + [f];
    }

    /** `source.clear()` */
    method Clear()
      modifies this
      ensures features == []
    {
      features := [];
    }
  }

  datatype LayerKind =
    | Tile(tiles: TileSource)
    | Vector(source: VectorSource, styling: Styling)

  /** A layer: what it shows is fixed when it is created; its visibility is not. */
  class Layer {
    const kind: LayerKind
    var visible: bool

    constructor (kind: LayerKind, visible: bool)
      ensures this.kind == kind && this.visible == visible
    {
      this.kind := kind;
      this.visible := visible;
    }

    /** `layer.setVisible(v)` */
    method SetVisible(v: bool)
      modifies this
      ensures visible == v
    {
      visible := v;
    }
  }

  /** `new Draw({source, type: kind})` */
  class Draw {
    const kind: string
    const source: VectorSource

    constructor (kind: string, source: VectorSource)
      ensures this.kind == kind && this.source == source
    {
      this.kind := kind;
      this.source := source;
    }
  }

  /** An `ol/Map`: its layer collection (unique, in drawing order) and the
   *  draw interactions added to it. */
  class OlMap {
    var layers: seq<Layer>
    var interactions: seq<Draw>

    ghost predicate Valid()
      reads this
    {
      NoDup(layers)
    }

    constructor (layers: seq<Layer>)
      requires NoDup(layers)
      ensures Valid() && this.layers == layers && interactions == []
    {
      this.layers := layers;
      interactions := [];
    }

    /** `map.addLayer(l)`: the collection refuses a layer it already holds. */
    method AddLayer(l: Layer)
      requires Valid() && l !in layers
      modifies this
      ensures Valid()
      ensures layers == old(layers) + [l] && interactions == old(interactions)
    {
      NoDupSnoc(layers, l);
      layers := layers + [l];
    }

    /** `map.removeLayer(l)`: a layer that is not on the map is ignored. */
    method RemoveLayer(l: Layer)
      requires Valid()
      modifies this
      ensures Valid()
      ensures layers == RemoveFirst(old(layers), l) && interactions == old(interactions)
    {
      RemoveFirstKeepsNoDup(layers, l);
      layers := RemoveFirst(layers, l);
    }

    /** `map.addInteraction(d)` */
    method AddInteraction(d: Draw)
      modifies this
      ensures interactions == old(interactions) + [d] && layers == old(layers)
    {
      interactions := interactions + [d];
    }

    /** `map.removeInteraction(d)` */
    method RemoveInteraction(d: Draw)
      modifies this
      ensures interactions == RemoveFirst(old(interactions), d) && layers == old(layers)
    {
      interactions := RemoveFirst(interactions, d);
    }
  }
}
