/**
 * The web map's conversion of the points it is given into the GeoJSON feature
 * collection it hands to the map library: one point feature per point, with
 * display defaults for the weight, the title and the description.
 */
module MapWeb {
  import opened Wrappers
  import opened Text
  import opened Json

  /** The properties copied to the feature as they are, `undefined` included. */
  const PassedKeys: set<string> := {"type", "url", "imageUrl", "address", "submittedBy", "createdAt"}

  /** The properties that get a default when the point has none. */
  const DefaultedKeys: set<string> := {"weight", "title", "description"}

  /**
   * A `Feature` of geometry type `Point`. Its properties, like a point, are a
   * record whose absent keys are `undefined`; `coordinates` is `[lon, lat]`.
   */
  datatype Feature = Feature(id: nat, properties: Record, coordinates: seq<Option<Value>>)

  /** The `FeatureCollection` the map displays. */
  datatype FeatureCollection = FeatureCollection(features: seq<Feature>)

  lemma PropertyKeysDisjoint()
    ensures PassedKeys !! DefaultedKeys
  {
    assert "type"[1] != "title"[1];
  }

  /** The default title of the point at index `i`: `Spot #${i + 1}`. */
  function DefaultTitle(i: nat): string {
    "Spot #" + NatToString(i + 1)
  }

  /** The feature for the point at index `i`. */
  function ToFeature(p: Record, i: nat): (f: Feature)
    ensures f.id == i
    ensures f.coordinates == [Get(p, "lon"), Get(p, "lat")]
    ensures f.properties.Keys == DefaultedKeys + (PassedKeys * p.Keys)
  {
    var passed := map k | k in PassedKeys && k in p :: p[k];
    var defaulted := map[
      "weight" := Coalesce(Get(p, "weight"), Num(1.0)),
      "title" := Coalesce(Get(p, "title"), Str(DefaultTitle(i))),
      "description" := Coalesce(Get(p, "description"), Str(""))];
    Feature(i, passed + defaulted, [Get(p, "lon"), Get(p, "lat")])
  }

  /** `pts.map((p, i) => …)` wrapped in a collection. */
  function ToFeatureCollection(pts: seq<Record>): (fc: FeatureCollection)
    ensures |fc.features| == |pts|
    ensures forall i :: 0 <= i < |pts| ==> fc.features[i].id == i
    ensures forall i :: 0 <= i < |pts| ==> fc.features[i].coordinates == [Get(pts[i], "lon"), Get(pts[i], "lat")]
    ensures forall i :: 0 <= i < |pts| ==> fc.features[i] == ToFeature(pts[i], i)
  {
    FeatureCollection(seq(|pts|, i requires 0 <= i < |pts| => ToFeature(pts[i], i)))
  }

  /** The defaulted properties: the point's own value unless it is `null` or `undefined`. */
  lemma DefaultedValues(p: Record, i: nat)
    ensures var props := ToFeature(p, i).properties;
      && props["weight"] == (if "weight" in p && p["weight"] != Null then p["weight"] else Num(1.0))
      && props["title"] == (if "title" in p && p["title"] != Null then p["title"] else Str(DefaultTitle(i)))
      && props["description"] == (if "description" in p && p["description"] != Null then p["description"] else Str(""))
  {
    PropertyKeysDisjoint();
  }

  /** `??` and not `||`: a weight of zero is kept and not replaced by one. */
  lemma ZeroWeightKept(p: Record, i: nat)
    requires Get(p, "weight") == Some(Num(0.0))
    ensures ToFeature(p, i).properties["weight"] == Num(0.0)
  {
    DefaultedValues(p, i);
  }

  /** Every passed-through property is the point's own, and present exactly when the point has it. */
  lemma PassedThrough(p: Record, i: nat, k: string)
    requires k in PassedKeys
    ensures k in ToFeature(p, i).properties <==> k in p
    ensures k in p ==> ToFeature(p, i).properties[k] == p[k]
  {
    PropertyKeysDisjoint();
  }

  /** Untitled points at different positions get different default titles. */
  lemma DefaultTitlesDistinct(i: nat, j: nat)
    requires i != j
    ensures DefaultTitle(i) != DefaultTitle(j)
  {
    NatToStringInjective(i + 1, j + 1);
    assert DefaultTitle(i)[6..] == NatToString(i + 1);
    assert DefaultTitle(j)[6..] == NatToString(j + 1);
  }
}
