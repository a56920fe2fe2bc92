# Layer, interaction and feature bookkeeping of the parcel mapping front end

This project models the bookkeeping that the map components of the parcel
mapping web application do around OpenLayers. It covers three components.

- **The drawing map** (`src/MapComponent.jsx`) keeps four tile basemaps, one
  vector layer for drawn features, at most one Draw interaction (for the active
  tool) and the list of records of finished drawings. Switching the basemap
  shows exactly one tile layer. Changing the tool tears down the old Draw and
  installs at most one new one. A finished drawing appends exactly one record.
  Clear-all empties both the vector source and the list.
- **The parcel overlay** (`src/components/map/ParcelLayer.jsx`) rebuilds its
  layers on every run. It takes every layer it tracked before off the map,
  then adds one fresh vector layer per district that is checked and has
  parcels, in district order. It then tracks exactly those layers, so layers
  never accumulate.
- **The basemap buttons** (`src/components/map/BasemapSelector.jsx`) keep the
  selected key as state. The swap effect takes the layer at index 0 off the map
  and appends the selected basemap's layer to the layer collection.

OpenLayers objects are opaque tokens in module `OpenLayers`:

- a map is a class holding its layer list and its list of Draw interactions;
- a layer has a fixed kind and a mutable visibility;
- a vector source holds a list of features.

The map's layer collection holds each layer at most once (`OlMap.Valid`).
Removal takes out the first occurrence of an element. Module `Collection`
states these list operations and relates them to a plain filter (`Without`).

React is modelled as follows:

- component state and refs are fields of a class;
- a state setter together with the effects that depend on that state is one
  method, and the effects run only when the value changes;
- a component's first commit is its constructor followed by its mount effects.

## Model

| member | source | states |
|---|---|---|
| `MapComponent.MapComponent.constructor` | src/MapComponent.jsx:36-42 | Before mounting there is no map, no layers and no Draw; the basemap is "osm", the tool is "None" and the record list is empty. |
| `MapComponent.MapComponent.Mount` | src/MapComponent.jsx:47-72 | The setup effect makes one fresh tile layer per basemap table entry, in table order, with that entry's tile source. It also makes a fresh vector layer on an empty source. The map holds the base layers and then the vector layer. The basemap, tool and record list are unchanged, and the invariant holds. |
| `MapComponent.MapComponent.BuildBaseLayers` | src/MapComponent.jsx:48-54 | The keys are the table's keys, in order. Each layer is fresh, distinct from the others, carries its entry's URL and attribution, and is visible exactly when its key is the selected one. |
| `MapComponent.MapComponent.ApplyBasemap` | src/MapComponent.jsx:75-79 | After the visibility effect, every base layer is visible exactly when its key equals `baseMap`. |
| `MapComponent.MapComponent.SetBaseMap` | src/MapComponent.jsx:40 | Setting the basemap key makes each base layer visible exactly for that key. It leaves the map, the tool, the Draw and the records untouched. |
| `MapComponent.MapComponent.ExactlyOneVisible` | src/MapComponent.jsx:52 | On a mounted map, exactly one base layer is visible when `baseMap` is one of the four keys, and none is visible for any other string. |
| `MapComponent.VisibleCountKeys` | src/MapComponent.jsx:76-78 | When each layer is visible exactly for its own key, the number of visible layers equals the number of keys equal to the selected key. |
| `MapComponent.CountKeyDistinct` | src/MapComponent.jsx:16-33 | In a list of distinct keys, a string matches once if it is one of them and never otherwise. |
| `MapComponent.ExactlyOneBaseKey` | src/MapComponent.jsx:16-33 | The basemap table's four keys are distinct, so each key of the table is matched exactly once. |
| `MapComponent.MapComponent.RunToolEffect` | src/MapComponent.jsx:82-115 | Without the map or the vector layer, nothing changes. Otherwise the old Draw, if any, comes off the map. For "None" no Draw is installed and `drawRef` is null. For any other tool exactly one fresh Draw, of that tool's type and on the vector source, is the map's only interaction and sits in `drawRef`. The map's layers are unchanged. |
| `MapComponent.MapComponent.SelectTool` | src/MapComponent.jsx:41 | Selecting a tool keeps the map's interactions equal to the Draw in `drawRef` (so at most one), and the Draw matches the tool. Reselecting the same tool changes nothing, and a new tool other than "None" gets a fresh Draw. |
| `MapComponent.MapComponent.DrawEnd` | src/MapComponent.jsx:98-111 | A finished drawing appends exactly one record to the list: the given id, the Draw's type and the coordinates. The vector source gains the drawn feature. Nothing else changes. |
| `MapComponent.WithRecord` | src/MapComponent.jsx:103-110 | The updater's result is one element longer. Its prefix is the previous list, unchanged, and its last element is the new record. Ids are not required to be unique. |
| `MapComponent.MapComponent.ClearAll` | src/MapComponent.jsx:117-121 | Without the vector layer, nothing changes. Otherwise the vector source has no features and the record list is empty. |
| `ParcelLayer.Rebuild` | src/components/map/ParcelLayer.jsx:12-60 | Without a map, the tracked list is unchanged. Otherwise the new layer list is the old one with every previously tracked layer removed (in order), followed by the newly tracked layers. There is one new layer per contributing district, each fresh, each built for its district, and the tracked list holds exactly them. |
| `ParcelLayer.RemoveLayers` | src/components/map/ParcelLayer.jsx:18-20 | Removing each tracked layer in turn gives the old layer list with those removals applied in order; the interactions are untouched. |
| `ParcelLayer.AddDistrictLayers` | src/components/map/ParcelLayer.jsx:24-59 | Starting from an empty tracked list, the map gains exactly the tracked layers at the end. There is one layer per contributing district, in district order, and each is fresh. |
| `ParcelLayer.AddDistrictLayer` | src/components/map/ParcelLayer.jsx:26-57 | Adds one fresh visible vector layer for the district. The layer has the district's features and style and z-index 1. It goes both at the end of the map and at the end of the tracked list. |
| `ParcelLayer.LayersRef.constructor` | src/context/MapContext.jsx:8 | The tracked list starts empty. |
| `ParcelLayer.Contributing` | src/components/map/ParcelLayer.jsx:24-25 | The contributing districts are never more than the districts. |
| `ParcelLayer.ContributingMembers` | src/components/map/ParcelLayer.jsx:25 | A district gets a layer if and only if it is checked and has at least one parcel. |
| `ParcelLayer.ContributingAppend` | src/components/map/ParcelLayer.jsx:24-57 | Selection keeps district order: the layers for `a + b` are those for `a` followed by those for `b`. |
| `ParcelLayer.ParcelFeature` | src/components/map/ParcelLayer.jsx:29-36 | The feature's geometry is the parcel's `geom` (undefined when missing). Its properties are all the parcel's fields plus `districtName`, which is the district's display name; every other field keeps its value. |
| `ParcelLayer.DistrictFeatures` | src/components/map/ParcelLayer.jsx:29-36 | A district's source gets one feature per parcel, in parcel order. Feature i has parcel i's `geom` as its geometry (undefined when missing). Its properties are exactly parcel i's fields plus `districtName`, which is the district's display name; every other field keeps its value. |
| `ParcelLayer.DistrictStyleFill` | src/components/map/ParcelLayer.jsx:40-48 | The fill colour is the district colour followed by "80". The outline is "#ffffff" and 1 pixel wide. |
| `ParcelLayer.RebuildReplacesTracked` | src/components/map/ParcelLayer.jsx:18-21 | When each tracked layer is on the map once, removing them leaves the map's other layers exactly as they were. A run that adds `next` therefore leaves `others + next`, whatever an earlier run added. |
| `Collection.RemoveFirst` | src/components/map/ParcelLayer.jsx:19 | `removeLayer` of a missing layer changes nothing. Otherwise the list shrinks by one and gains nothing new. |
| `Collection.RemoveFirstMultiset` | src/components/map/ParcelLayer.jsx:19 | Removal takes out exactly one copy of the layer when there is one, and nothing else. |
| `Collection.RemoveAllNoDup` | src/components/map/ParcelLayer.jsx:18-20 | On a list without repeats, removing the listed elements one by one leaves exactly the unlisted elements, in their original order. |
| `OpenLayers.OlMap.constructor` | src/MapComponent.jsx:61-68 | A map is created with the given layers, which hold no layer twice, and with no Draw interaction. |
| `OpenLayers.OlMap.AddLayer` | src/components/map/ParcelLayer.jsx:56 | Adding a layer the map does not hold appends it and keeps the list free of repeats. |
| `OpenLayers.OlMap.RemoveLayer` | src/components/map/ParcelLayer.jsx:19 | The first occurrence, if any, is removed, and the list stays free of repeats. |
| `OpenLayers.OlMap.AddInteraction` | src/MapComponent.jsx:113 | The Draw is appended to the interactions; the layers are untouched. |
| `OpenLayers.OlMap.RemoveInteraction` | src/MapComponent.jsx:87 | The first occurrence of the Draw is removed; the layers are untouched. |
| `OpenLayers.Layer.SetVisible` | src/MapComponent.jsx:77 | The layer's visibility becomes the given value. |
| `OpenLayers.VectorSource.AddFeature` | src/MapComponent.jsx:93-96 | The source gains the finished feature and keeps every feature it had. |
| `OpenLayers.VectorSource.Clear` | src/MapComponent.jsx:119 | The source has no features. |
| `BasemapSelector.BasemapSelector.constructor` | src/components/map/BasemapSelector.jsx:10 | The selected basemap starts as "osm", which is a key of the basemap object. |
| `BasemapSelector.BasemapKeys` | src/components/map/BasemapSelector.jsx:47 | The buttons' keys contain the initial selection "osm" and no key twice, so each button selects one distinct basemap. |
| `BasemapSelector.Lookup` | src/components/map/BasemapSelector.jsx:42 | Looking up a key of the object gives the entry with that key. |
| `BasemapSelector.SwapFirst` | src/components/map/BasemapSelector.jsx:37-42 | The new basemap layer ends the list. A non-empty list keeps its length, and an empty list grows to length 1. Every layer behind the first keeps its relative order at the front. |
| `BasemapSelector.BasemapSelector.SwapEffect` | src/components/map/BasemapSelector.jsx:30-43 | Without a map, nothing changes. Otherwise the layer list becomes the swap of the old list with a fresh visible tile layer for the selected basemap, and it stays free of repeats. |
| `BasemapSelector.BasemapSelector.Click` | src/components/map/BasemapSelector.jsx:47-52 | A button sets the selection to its own key, so the selection is always a key of the object. The swap runs only when the key changes. |
| `BasemapSelector.RemoveHead` | src/components/map/BasemapSelector.jsx:38 | Removing `item(0)` removes the head of the list. |
| `BasemapSelector.SwapFirstDropsOverlay` | src/components/map/BasemapSelector.jsx:37-39 | With basemap 1 and overlay 2, a switch to 3 and then a switch to 4 leave `[3, 4]`: the overlay is gone and the old basemap 3 stays. |
| `BasemapSelector.SwapTrackedReplaces` | src/components/map/BasemapSelector.jsx:36-42 | The intended swap replaces only the basemap shown before: every other layer keeps its position, and the new basemap is appended at the end. |
| `BasemapSelector.SwapTrackedKeepsOverlay` | src/components/map/BasemapSelector.jsx:36-42 | Under the intended swap, the same two switches leave `[2, 4]`: the overlay survives. |
| `BasemapSelector.BasemapSelector.SwapTrackedEffect` | src/components/map/BasemapSelector.jsx:30-43 | The corrected effect removes the basemap layer it is given, rather than `item(0)`. That is the layer the previous run added, or on the first run the map's initial basemap; with none given nothing is removed. It then appends a fresh layer for the selected basemap. |

## Left out

- Rendering, the JSX markup, the record list's `<ul>`, and the toolbar, switcher
  and coordinate-bar components: these are presentation only.
- Tile fetching, the view (centre and zoom), and the `setTarget(null)` cleanup
  on unmount.
- OpenLayers' default interactions (pan, zoom): the model's interaction list
  counts only the Draw interactions the component adds.
- Vertex capture by the Draw interaction and GeoJSON writing and reading. At
  `drawend` the record's type is the Draw's type, and the coordinates are an
  opaque payload supplied by the caller. A parcel feature is its geometry and
  properties; `readFeatures` is not modelled.
- Coordinate values are floating-point projection output and are opaque
  tokens here.
- `Date.now()`: a drawn record's id is a parameter and may repeat, because two
  drawings in the same millisecond get the same id. The model assumes nothing
  about ids.
- The components have no per-feature removal, export or segment-length
  overlays.
- `Style`, `Fill` and `Stroke` objects are plain values.
- A vector source's features are a list here. OpenLayers keeps them in a
  spatial index with no promised order, and nothing in the components reads
  that order.
- React's scheduling and batching: a setter followed by its effects is
  atomic.
- The map page's own initialisation, the district list and the floating
  buttons: these only wire callbacks. src/pages/MapPage.jsx is incomplete
  (its initial district list and `handleDistrictToggle` are not defined) and
  is not part of this model. The context module only creates the refs; the
  tracked-layer ref is `ParcelLayer.LayersRef`.
- OpenLayers' unique layer collection throws when a layer is added twice.
  The model makes this a precondition of `OlMap.AddLayer`. Every caller adds a
  freshly created layer, so the exception is never raised.
- The basemap buttons' `basemaps` object is rebuilt on every render, so each
  run of the swap adds a newly created layer; the model creates that layer
  inside the effect.

## Findings

| source | as written | input that shows it | evidently intended | confidence | as-written member | corrected member |
|---|---|---|---|---|---|---|
| src/components/map/BasemapSelector.jsx:37-39 | The swap removes the layer at index 0, which after the first run is no longer the basemap it added: the selected basemap is appended after the overlays in the layer collection, so the next switch removes an overlay. | A map whose layer collection holds basemap `1` followed by the parcel overlay `2`: switching to `3` gives `[2, 3]`, and switching to `4` gives `[3, 4]`. The overlay is gone and basemap `3` stays on the map beside `4`. | Remove the basemap layer added by the previous run, leaving every other layer in place. | medium, not executed | `BasemapSelector.SwapFirstDropsOverlay` | `BasemapSelector.SwapTrackedReplaces` |
