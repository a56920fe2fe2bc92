/** The basemap buttons of the parcel map: the selected key is state, one
 *  button per basemap sets it, and an effect swaps the map's layer list by
 *  taking off the layer at index 0 and adding the selected basemap's layer
 *  at the end of the layer collection. */
module BasemapSelector {
  import opened Collection
  import opened OpenLayers

  /** An entry of the `basemaps` object: key, button label and tile source. */
  datatype Basemap = Basemap(key: string, name: string, tiles: TileSource)

  /** The `basemaps` object, in declaration order. */
  const Basemaps: seq<Basemap> := [
    Basemap("osm", "OpenStreetMap", Osm),
    Basemap("satellite", "Satellite", Xyz("https://tiles.stadiamaps.com/tiles/alidade_satellite/{z}/{x}/{y}.jpg", []))
  ]

  /** `Object.keys(basemaps)`: the keys the buttons are rendered for. */
  function BasemapKeys(): (keys: seq<string>)
    ensures "osm" in keys && NoDup(keys)
  {
    assert seq(|Basemaps|, i requires 0 <= i < |Basemaps| => Basemaps[i].key) == ["osm", "satellite"];
    seq(|Basemaps|, i requires 0 <= i < |Basemaps| => Basemaps[i].key)
  }

  /** `basemaps[key]`, for a key of the object. */
  function Lookup(key: string): (b: Basemap)
    requires key in BasemapKeys()
    ensures b in Basemaps && b.key == key
  {
    if key == Basemaps[0].key then Basemaps[0] else Basemaps[1]
  }

  /** What one run of the effect does to the layer list (as written): drop the
   *  element at index 0 when there is one, then append `next`. The new basemap
   *  ends the list, a non-empty list keeps its length, an empty one grows to
   *  one, and every element behind the first keeps its relative order. */
  function SwapFirst<T>(layers: seq<T>, next: T): (r: seq<T>)
    ensures |r| > 0 && r[|r| - 1] == next
    ensures |layers| > 0 ==> |r| == |layers|
    ensures |layers| == 0 ==> r == [next]
    ensures forall i :: 1 <= i < |layers| ==> r[i - 1] == layers[i]
  {
    (if |layers| > 0 then layers[1..] else layers) + [next]
  }

  /** `map.removeLayer(layers.item(0))`: in any non-empty list the first
   *  occurrence of the first element is the first element. */
  lemma RemoveHead<T>(s: seq<T>)
    requires |s| > 0
    ensures RemoveFirst(s, s[0]) == s[1..]
  {
  }

  /** Exhibits the defect of the as-written swap: a basemap `1` with a parcel
   *  overlay `2` after it; switching to basemap `3` takes off `1`, but switching
   *  again to `4` takes off the overlay and leaves the old basemap `3` on the map. */
  lemma SwapFirstDropsOverlay()
    ensures SwapFirst([1, 2], 3) == [2, 3]
    ensures SwapFirst(SwapFirst([1, 2], 3), 4) == [3, 4]
    ensures 2 !in SwapFirst(SwapFirst([1, 2], 3), 4) && 3 in SwapFirst(SwapFirst([1, 2], 3), 4)
  {
    assert SwapFirst([1, 2], 3) == [2, 3];
    assert SwapFirst([2, 3], 4) == [3, 4];
  }

  /** The swap as intended: take off the basemap layers it added before (tracked,
   *  as the parcel overlay tracks its layers) and append the selected one. */
  function SwapTracked<T(==)>(layers: seq<T>, shown: seq<T>, next: T): seq<T> {
    Without(layers, shown) + [next]
  }

  /** The intended swap replaces only the shown basemap: every other layer keeps
   *  its place and the new basemap is appended at the end. */
  lemma SwapTrackedReplaces<T>(below: seq<T>, shown: T, above: seq<T>, next: T)
    requires NoDup(below + [shown] + above)
    ensures SwapTracked(below + [shown] + above, [shown], next) == below + above + [next]
  {
    var s := below + [shown] + above;
    assert forall i :: 0 <= i < |below| ==> s[i] == below[i];
    assert forall j :: 0 <= j < |above| ==> s[|below| + 1 + j] == above[j];
    assert s[|below|] == shown;
    assert shown !in below && shown !in above;
    WithoutAppend(below + [shown], above, [shown]);
    WithoutAppend(below, [shown], [shown]);
    WithoutDisjoint(below, [shown]);
    WithoutDisjoint(above, [shown]);
    WithoutCovered([shown], [shown]);
    assert below + [] == below;
  }

  /** The sequence of the as-written counterexample under the intended swap:
   *  the overlay `2` survives both switches and only the newest basemap remains. */
  lemma SwapTrackedKeepsOverlay()
    ensures SwapTracked(SwapTracked([1, 2], [1], 3), [3], 4) == [2, 4]
  {
    SwapTrackedReplaces([], 1, [2], 3);
    assert [] + [1] + [2] == [1, 2] && [] + [2] + [3] == [2, 3];
    SwapTrackedReplaces([2], 3, [], 4);
    assert [2] + [3] + [] == [2, 3];
  }

  /** The basemap layer the corrected effect takes off, if there is one. */
  function Tracked(shown: Layer?): seq<Layer> {
    if shown == null then [] else [shown]
  }

  class BasemapSelector {
    /** The `activeBasemap` state. */
    var activeBasemap: string

    ghost predicate Valid()
      reads this
    {
      activeBasemap in BasemapKeys()
    }

    /** `useState("osm")` */
    constructor ()
      ensures Valid() && activeBasemap == "osm"
    {
      assert BasemapKeys()[0] == "osm";
      activeBasemap := "osm";
    }

    /** The effect, run with `olMap = mapRef.current`: nothing without a map;
     *  otherwise the layer at index 0 comes off and a fresh layer for the
     *  selected basemap (the object is rebuilt on every render) is appended. */
    method SwapEffect(olMap: OlMap?) returns (added: Layer?)
      requires Valid()
      requires olMap != null ==> olMap.Valid()
      modifies olMap
      ensures olMap == null ==> added == null
      ensures olMap != null ==>
                && added != null && fresh(added) && added.visible
                && added.kind == Tile(Lookup(activeBasemap).tiles)
                && olMap.Valid() && olMap.interactions == old(olMap.interactions)
                && olMap.layers == SwapFirst(old(olMap.layers), added)
    {
      if olMap == null {
        return null;
      }
      if |olMap.layers| > 0 {
        RemoveHead(olMap.layers);
        olMap.RemoveLayer(olMap.layers[0]);
      }
      var layer := new Layer(Tile(Lookup(activeBasemap).tiles), true);
      olMap.AddLayer(layer);
      added := layer;
    }

    /** The `i`-th button: `setActiveBasemap(key)` and, when the key changes, the effect. */
    method Click(i: int, olMap: OlMap?) returns (added: Layer?)
      requires Valid() && 0 <= i < |Basemaps|
      requires olMap != null ==> olMap.Valid()
      modifies this, olMap
      ensures Valid() && activeBasemap == Basemaps[i].key
      ensures Basemaps[i].key == old(activeBasemap) || olMap == null ==> added == null
      ensures olMap != null ==> olMap.Valid() && olMap.interactions == old(olMap.interactions)
      ensures Basemaps[i].key == old(activeBasemap) && olMap != null ==> olMap.layers == old(olMap.layers)
      ensures Basemaps[i].key != old(activeBasemap) && olMap != null ==>
                && added != null && fresh(added)
                && added.kind == Tile(Basemaps[i].tiles)
                && olMap.layers == SwapFirst(old(olMap.layers), added)
    {
      var key := Basemaps[i].key;
      assert BasemapKeys() == ["osm", "satellite"];
      if key == activeBasemap {
        return null;
      }
      activeBasemap := key;
      added := SwapEffect(olMap);
    }

    /** The corrected effect: the basemap layer `shown` is what comes off. On
     *  later runs it is the layer the previous run added; on the first run it
     *  is the map's initial basemap, and when it is null nothing comes off. */
    method SwapTrackedEffect(olMap: OlMap?, shown: Layer?) returns (added: Layer?)
      requires Valid()
      requires olMap != null ==> olMap.Valid()
      modifies olMap
      ensures olMap == null ==> added == null
      ensures olMap != null ==>
                && added != null && fresh(added) && added.visible
                && added.kind == Tile(Lookup(activeBasemap).tiles)
                && olMap.Valid() && olMap.interactions == old(olMap.interactions)
                && olMap.layers == SwapTracked<Layer>(old(olMap.layers), Tracked(shown), added)
    {
      if olMap == null {
        return null;
      }
      if shown != null {
        var previous: Layer := shown;
        RemoveFirstNoDup(olMap.layers, previous);
        olMap.RemoveLayer(previous);
      } else {
        WithoutDisjoint(olMap.layers, []);
      }
      var layer := new Layer(Tile(Lookup(activeBasemap).tiles), true);
      olMap.AddLayer(layer);
      added := layer;
    }
  }
}
