/**
 * The layer factory: turns a declarative layer configuration object into a
 * map layer of the mapping library.
 *
 * The library's layer, source and format constructors are represented by
 * tagged records (the kind of object and the options passed to it). A WFS
 * layer also gets a feature loader; the model gives the GetFeature request
 * that loader assembles for a requested extent. Reprojection of the extent
 * and the formatting of its numbers are library code and are parameters here.
 */
module LayerFactory {
  import opened JsValues
  import opened Options

  /** A plain configuration object: its own properties. */
  type Props = map<string, JsValue>

  /** The exceptions the factory can raise on a configuration. */
  datatype Error =
    | PropertyOfNonObject(property: string)  // setting a property on undefined, null or a primitive
    | NotAConstructor(format: JsValue)       // `new formatMapping[format]` without such an entry
    | NotAFunction(name: string)             // calling `startsWith` on a non-string version

  datatype Result<T> = Ok(value: T) | Err(error: Error)

  // ---------------------------------------------------------------------
  // Layer types and the dispatch of getInstance
  // ---------------------------------------------------------------------

  datatype LayerType = TileWms | TileArcGis | ImageWms | Wfs | Xyz | Osm | Vector | VectorTile

  /** The `type` literal of the configuration that selects each creator. */
  function TypeName(t: LayerType): string
  {
    match t
    case TileWms => "TILEWMS"
    case TileArcGis => "TILEARCGIS"
    case ImageWms => "IMAGEWMS"
    case Wfs => "WFS"
    case Xyz => "XYZ"
    case Osm => "OSM"
    case Vector => "VECTOR"
    case VectorTile => "VECTORTILE"
  }

  /** The if/else-if chain of getInstance: which creator a `type` value selects, if any. */
  function CreatorFor(typeValue: JsValue): Option<LayerType>
  {
    if typeValue == Str("TILEWMS") then Some(TileWms)
    else if typeValue == Str("TILEARCGIS") then Some(TileArcGis)
    else if typeValue == Str("IMAGEWMS") then Some(ImageWms)
    else if typeValue == Str("WFS") then Some(Wfs)
    else if typeValue == Str("XYZ") then Some(Xyz)
    else if typeValue == Str("OSM") then Some(Osm)
    else if typeValue == Str("VECTOR") then Some(Vector)
    else if typeValue == Str("VECTORTILE") then Some(VectorTile)
    else None
  }

  /**
   * A `type` value selects creator t exactly when it is the string literal
   * of t (so another string, a different case or a non-string never does).
   */
  lemma CreatorForSome(typeValue: JsValue, t: LayerType)
    ensures CreatorFor(typeValue) == Some(t) <==> typeValue == Str(TypeName(t))
  {
  }

  /** getInstance returns null exactly for the values that are none of the eight literals. */
  lemma CreatorForNone(typeValue: JsValue)
    ensures CreatorFor(typeValue) == None <==> forall u: LayerType :: typeValue != Str(TypeName(u))
  {
    if CreatorFor(typeValue) != None {
      var u := CreatorFor(typeValue).value;
      CreatorForSome(typeValue, u);
    } else {
      forall u: LayerType ensures typeValue != Str(TypeName(u)) {
        CreatorForSome(typeValue, u);
      }
    }
  }

  /** Distinct creators have distinct literals. */
  lemma TypeNamesDistinct(t: LayerType, u: LayerType)
    ensures TypeName(t) == TypeName(u) ==> t == u
  {
    CreatorForSome(Str(TypeName(t)), u);
    CreatorForSome(Str(TypeName(t)), t);
  }

  // ---------------------------------------------------------------------
  // Records standing for the mapping library's objects
  // ---------------------------------------------------------------------

  datatype LayerKind = ImageLayer | TileLayer | VectorLayer | VectorTileLayer

  datatype SourceKind =
    | ImageWmsSource | TileWmsSource | TileArcGisRestSource | OsmSource | XyzSource
    | VectorSource | VectorTileSource

  datatype FormatKind = Mvt | GeoJson | TopoJson | Kml | Gml2 | Gml3 | Gml32

  /** A format instance: its class and the argument of its constructor (None: called without one). */
  datatype Format = Format(kind: FormatKind, config: Option<JsValue>)

  /** `ObjectUtil.mergeDeep(target, overlay)`: the user's params merged into the seed; not interpreted. */
  datatype WmsParams = MergeDeep(target: Props, overlay: JsValue)

  /** The feature loader of a WFS source, with what its closure captures. */
  datatype WfsLoader = WfsLoader(conf: Props, mapSrs: string, outputFormat: JsValue)

  /** A source: its class, plain options, and the options that are objects of their own. */
  datatype Source = Source(
    kind: SourceKind,
    options: Props,
    params: Option<WmsParams>,
    format: Option<Format>,
    loader: Option<WfsLoader>,
    bboxStrategy: bool)

  /** A layer: its class, plain options, its source and the argument given to the style factory. */
  datatype Layer = Layer(kind: LayerKind, options: Props, source: Source, style: Option<JsValue>)

  function PlainSource(kind: SourceKind, options: Props): Source
  {
    Source(kind, options, None, None, None, false)
  }

  // ---------------------------------------------------------------------
  // Format mappings
  // ---------------------------------------------------------------------

  /** formatMapping: format literal to format class. */
  const FormatMapping: map<string, FormatKind> := map[
    "MVT" := Mvt, "GeoJSON" := GeoJson, "TopoJSON" := TopoJson, "KML" := Kml,
    "GML2" := Gml2, "GML3" := Gml3, "GML32" := Gml32]

  /** wfsFormatMapping: format literal to WFS outputFormat. */
  const WfsFormatMapping: map<string, string> := map[
    "GeoJSON" := "application/json",
    "GML2" := "text/xml; subtype=gml/2.1.2",
    "GML3" := "text/xml; subtype=gml/3.1.1",
    "GML32" := "text/xml; subtype=gml/3.2"]

  /** `wfsFormatMapping[format]`: a property key is the string form of the value. */
  function WfsOutputFormat(format: JsValue): (r: JsValue)
    ensures r == Undefined || r.Str?
  {
    var key := ToJsString(format);
    if key in WfsFormatMapping then Str(WfsFormatMapping[key]) else Undefined
  }

  /** `formatMapping[format]`, None where the lookup gives undefined. */
  function FormatClass(format: JsValue): Option<FormatKind>
  {
    var key := ToJsString(format);
    if key in FormatMapping then Some(FormatMapping[key]) else None
  }

  /**
   * The WFS output formats: the four GML and GeoJSON literals have a MIME
   * type, the formats WFS cannot deliver (KML, TopoJSON, MVT) and every
   * unknown literal give undefined; every WFS format also has a format class.
   */
  lemma WfsOutputFormats(format: JsValue)
    ensures WfsOutputFormat(Str("GML3")) == Str("text/xml; subtype=gml/3.1.1")
    ensures WfsOutputFormat(Str("GML2")) == Str("text/xml; subtype=gml/2.1.2")
    ensures WfsOutputFormat(Str("GML32")) == Str("text/xml; subtype=gml/3.2")
    ensures WfsOutputFormat(Str("GeoJSON")) == Str("application/json")
    ensures WfsOutputFormat(Str("KML")) == Undefined
    ensures WfsOutputFormat(Str("TopoJSON")) == Undefined
    ensures WfsOutputFormat(Str("MVT")) == Undefined
    ensures WfsOutputFormat(format) != Undefined ==> FormatClass(format).Some?
    ensures WfsOutputFormat(format) != Undefined <==> ToJsString(format) in {"GeoJSON", "GML2", "GML3", "GML32"}
  {
  }

  // ---------------------------------------------------------------------
  // Options shared by every layer, and the plain creators
  // ---------------------------------------------------------------------

  /** The configuration fields every layer copies under their own name. */
  const CopiedOptionNames: set<string> := {
    "lid", "isBaseLayer", "previewImage", "displayInLayerList", "supportsPermalink",
    "extent", "visible", "opacity", "opacityControl", "zIndex",
    "legend", "legendUrl", "legendOptions"}

  /** `getCommonLayerOptions`: fifteen options, two of them renamed. */
  function CommonLayerOptions(c: Props): Props
  {
    Copy(c, CopiedOptionNames) + map["confName" := Get(c, "name"), "confAttributions" := Get(c, "attributions")]
  }

  /** The common options are the thirteen copied fields plus the two renamed ones, with the configuration's values. */
  lemma CommonOptionsCopied(c: Props)
    ensures var r := CommonLayerOptions(c);
      && r.Keys == CopiedOptionNames + {"confName", "confAttributions"}
      && (forall f | f in CopiedOptionNames :: r[f] == Get(c, f))
      && r["confName"] == Get(c, "name") && r["confAttributions"] == Get(c, "attributions")
  {
    RenamedNotCopied();
  }

  /** Neither the old nor the new names of the two renamed options are among the copied ones. */
  lemma RenamedNotCopied()
    ensures "name" !in CopiedOptionNames && "attributions" !in CopiedOptionNames
    ensures "confName" !in CopiedOptionNames && "confAttributions" !in CopiedOptionNames
  {
  }

  /** The configuration's own `name` and `attributions` keys are passed on only under their new names. */
  lemma CommonOptionsRenamed(c: Props)
    ensures "name" !in CommonLayerOptions(c) && "attributions" !in CommonLayerOptions(c)
    ensures "confName" in CommonLayerOptions(c) && "confAttributions" in CommonLayerOptions(c)
  {
    RenamedNotCopied();
    CommonOptionsCopied(c);
  }

  lemma CommonOptionNamesDisjoint()
    ensures CopiedOptionNames + {"confName", "confAttributions"} !! {"columnMapping", "hoverable", "hoverAttribute", "hoverOverlay"}
  {
  }

  /** The configuration fields `names`, copied under their own name. */
  function Copy(c: Props, names: set<string>): (r: Props)
    ensures r.Keys == names
    ensures forall k | k in names :: r[k] == Get(c, k)
  {
    map k | k in names :: Get(c, k)
  }

  /** The params seed of the WMS and ArcGIS sources: `{ LAYERS: lConf.layers }` merged with `lConf.params`. */
  function SeededParams(c: Props): WmsParams
  {
    MergeDeep(map["LAYERS" := Get(c, "layers")], Get(c, "params"))
  }

  const HoverOptionNames: set<string> := {"hoverable", "hoverAttribute", "hoverOverlay"}

  /** `createImageWmsLayer` */
  function ImageWmsLayer(c: Props): Layer
  {
    Layer(ImageLayer,
      CommonLayerOptions(c) + Copy(c, HoverOptionNames),
      Source(ImageWmsSource,
        Copy(c, {"url", "serverType", "ratio", "interpolate", "projection", "crossOrigin"}),
        Some(SeededParams(c)), None, None, false),
      None)
  }

  /** `createTileWmsLayer` */
  function TileWmsLayer(c: Props): Layer
  {
    Layer(TileLayer,
      CommonLayerOptions(c) + Copy(c, HoverOptionNames),
      Source(TileWmsSource,
        Copy(c, {"url", "serverType", "tileGrid", "projection", "crossOrigin"}),
        Some(SeededParams(c)), None, None, false),
      None)
  }

  /** `createTileArcGISRestLayer` */
  function TileArcGisLayer(c: Props): Layer
  {
    Layer(TileLayer,
      CommonLayerOptions(c),
      Source(TileArcGisRestSource,
        Copy(c, {"url", "projection", "crossOrigin", "tileGrid"}),
        Some(SeededParams(c)), None, None, false),
      None)
  }

  /** `createXyzLayer` */
  function XyzLayer(c: Props): Layer
  {
    Layer(TileLayer,
      CommonLayerOptions(c),
      PlainSource(XyzSource, Copy(c, {"url", "tileGrid", "projection", "crossOrigin"})),
      None)
  }

  /** `createOsmLayer` */
  function OsmLayer(c: Props): Layer
  {
    Layer(TileLayer, CommonLayerOptions(c), PlainSource(OsmSource, Copy(c, {"crossOrigin"})), None)
  }

  /** `createVectorLayer`: fails when the format literal has no format class. */
  function VectorLayerOf(c: Props): Result<Layer>
  {
    match FormatClass(Get(c, "format"))
    case None => Err(NotAConstructor(Get(c, "format")))
    case Some(kind) =>
      Ok(Layer(VectorLayer,
        CommonLayerOptions(c) + Copy(c, {"columnMapping"} + HoverOptionNames),
        Source(VectorSource, Copy(c, {"url"}),
          None, Some(Format(kind, Some(Get(c, "formatConfig")))), None, false),
        Some(Get(c, "style"))))
  }

  /** `createVectorTileLayer`: the format is constructed without options. */
  function VectorTileLayerOf(c: Props): Result<Layer>
  {
    match FormatClass(Get(c, "format"))
    case None => Err(NotAConstructor(Get(c, "format")))
    case Some(kind) =>
      Ok(Layer(VectorTileLayer,
        CommonLayerOptions(c) + Copy(c, HoverOptionNames),
        Source(VectorTileSource, Copy(c, {"url", "tileGrid", "projection"}),
          None, Some(Format(kind, None)), None, false),
        Some(Get(c, "style"))))
  }

  /** The creators that only read the configuration. */
  function PlainLayer(t: LayerType, c: Props): Result<Layer>
    requires t != Wfs
  {
    match t
    case TileWms => Ok(TileWmsLayer(c))
    case TileArcGis => Ok(TileArcGisLayer(c))
    case ImageWms => Ok(ImageWmsLayer(c))
    case Xyz => Ok(XyzLayer(c))
    case Osm => Ok(OsmLayer(c))
    case Vector => VectorLayerOf(c)
    case VectorTile => VectorTileLayerOf(c)
  }

  /** Only the vector creators can fail, exactly when the format literal has no format class. */
  lemma PlainLayerFails(t: LayerType, c: Props)
    requires t != Wfs
    ensures PlainLayer(t, c).Ok? <==> (t != Vector && t != VectorTile) || FormatClass(Get(c, "format")).Some?
  {
  }

  /** Every plain creator's layer carries the common options unchanged. */
  lemma PlainLayerOptions(t: LayerType, c: Props)
    requires t != Wfs
    ensures PlainLayer(t, c).Ok? ==>
      var layer := PlainLayer(t, c).value;
      && CommonLayerOptions(c).Keys <= layer.options.Keys
      && (forall k | k in CommonLayerOptions(c) :: layer.options[k] == CommonLayerOptions(c)[k])
  {
    match t
    case TileWms => CommonOptionsKept(c, HoverOptionNames);
    case ImageWms => CommonOptionsKept(c, HoverOptionNames);
    case Vector => CommonOptionsKept(c, {"columnMapping"} + HoverOptionNames);
    case VectorTile => CommonOptionsKept(c, HoverOptionNames);
    case _ =>
  }

  /**
   * Exactly the WMS and ArcGIS sources seed LAYERS from `layers` and merge
   * `params` into it; no plain source has a loader or the bbox strategy.
   */
  lemma PlainLayerSource(t: LayerType, c: Props)
    requires t != Wfs
    ensures PlainLayer(t, c).Ok? ==>
      var source := PlainLayer(t, c).value.source;
      && (source.params.Some? <==> t == TileWms || t == TileArcGis || t == ImageWms)
      && (source.params.Some? ==>
            source.params.value.target == map["LAYERS" := Get(c, "layers")]
            && source.params.value.overlay == Get(c, "params"))
      && source.loader.None? && !source.bboxStrategy
  {
    match t
    case TileWms => assert PlainLayer(t, c).value.source == TileWmsLayer(c).source;
    case TileArcGis => assert PlainLayer(t, c).value.source == TileArcGisLayer(c).source;
    case ImageWms => assert PlainLayer(t, c).value.source == ImageWmsLayer(c).source;
    case Xyz => assert PlainLayer(t, c).value.source == XyzLayer(c).source;
    case Osm => assert PlainLayer(t, c).value.source == OsmLayer(c).source;
    case Vector =>
    case VectorTile =>
  }

  /** The extra options spread after the common ones leave those untouched. */
  lemma CommonOptionsKept(c: Props, extra: set<string>)
    requires extra <= {"columnMapping"} + HoverOptionNames
    ensures var o := CommonLayerOptions(c) + Copy(c, extra);
      && CommonLayerOptions(c).Keys <= o.Keys
      && forall k | k in CommonLayerOptions(c) :: o[k] == CommonLayerOptions(c)[k]
  {
    CommonOptionsDisjoint(c);
  }

  lemma CommonOptionsDisjoint(c: Props)
    ensures CommonLayerOptions(c).Keys !! ({"columnMapping"} + HoverOptionNames)
  {
    CommonOptionsCopied(c);
    CommonOptionNamesDisjoint();
  }

  // ---------------------------------------------------------------------
  // The WFS layer: configuration defaults
  // ---------------------------------------------------------------------

  const DefaultWfsVersion: string := "1.1.0"
  const DefaultWfsFormat: string := "GML3"

  /** The configuration after the three defaults of createWfsLayer are filled in. */
  function WithWfsDefaults(c: Props, mapSrs: string): Props
  {
    var c1 := if !Truthy(Get(c, "projection")) then c["projection" := Str(mapSrs)] else c;
    var c2 := if !Truthy(Get(c1, "version")) then c1["version" := Str(DefaultWfsVersion)] else c1;
    if !Truthy(Get(c2, "format")) then c2["format" := Str(DefaultWfsFormat)] else c2
  }

  /** Falsy projection, version and format are replaced by their defaults; everything else is kept. */
  lemma WfsDefaultsFilled(c: Props, mapSrs: string)
    ensures var r := WithWfsDefaults(c, mapSrs);
      && r.Keys == c.Keys + {"projection", "version", "format"}
      && (Truthy(Get(c, "projection")) ==> r["projection"] == c["projection"])
      && (!Truthy(Get(c, "projection")) ==> r["projection"] == Str(mapSrs))
      && (Truthy(Get(c, "version")) ==> r["version"] == c["version"])
      && (!Truthy(Get(c, "version")) ==> r["version"] == Str(DefaultWfsVersion))
      && (Truthy(Get(c, "format")) ==> r["format"] == c["format"])
      && (!Truthy(Get(c, "format")) ==> r["format"] == Str(DefaultWfsFormat))
      && (forall k | k in c && k !in {"projection", "version", "format"} :: r[k] == c[k])
  {
  }

  /**
   * Lines 221-224: when the map's SRS differs from the data projection, the
   * format options are told both projections; setting them on a format
   * config that is not an object throws.
   */
  function SyncFormatProjections(c: Props, mapSrs: string): Result<Props>
  {
    if Str(mapSrs) != Get(c, "projection") then
      match Get(c, "formatConfig")
      case Obj(fc) =>
        Ok(c["formatConfig" := Obj(fc["dataProjection" := Get(c, "projection")]["featureProjection" := Str(mapSrs)])])
      case _ => Err(PropertyOfNonObject("dataProjection"))
    else
      Ok(c)
  }

  /**
   * Nothing changes when the map's SRS is the data projection; otherwise the
   * step fails exactly when `formatConfig` is not an object, and on success
   * only `formatConfig` changes, gaining the two projections.
   */
  lemma FormatProjectionsSynced(c: Props, mapSrs: string)
    ensures var r := SyncFormatProjections(c, mapSrs);
      && (Get(c, "projection") == Str(mapSrs) ==> r == Ok(c))
      && (Get(c, "projection") != Str(mapSrs) ==> (r.Ok? <==> Get(c, "formatConfig").Obj?))
      && (r.Ok? && Get(c, "projection") != Str(mapSrs) ==>
            var fc := Get(r.value, "formatConfig");
            && r.value.Keys == c.Keys + {"formatConfig"}
            && (forall k | k in c && k != "formatConfig" :: r.value[k] == c[k])
            && fc.Obj?
            && fc.props.Keys == Get(c, "formatConfig").props.Keys + {"dataProjection", "featureProjection"}
            && fc.props["dataProjection"] == Get(c, "projection")
            && fc.props["featureProjection"] == Str(mapSrs)
            && (forall k | k in Get(c, "formatConfig").props && k !in {"dataProjection", "featureProjection"} ::
                  fc.props[k] == Get(c, "formatConfig").props[k]))
  {
  }

  /** The configuration as createWfsLayer leaves it (also when it throws half-way). */
  function NormalisedWfsConfig(c: Props, mapSrs: string): Props
  {
    SyncedConfig(WithWfsDefaults(c, mapSrs), mapSrs)
  }

  /** The configuration after the format projections are set; unchanged when setting them throws. */
  function SyncedConfig(d: Props, mapSrs: string): Props
  {
    match SyncFormatProjections(d, mapSrs)
    case Ok(d') => d'
    case Err(_) => d
  }

  /** Applying createWfsLayer's changes a second time changes nothing more. */
  lemma {:induction false} NormalisationIdempotent(c: Props, mapSrs: string)
    ensures NormalisedWfsConfig(NormalisedWfsConfig(c, mapSrs), mapSrs) == NormalisedWfsConfig(c, mapSrs)
  {
    var d := WithWfsDefaults(c, mapSrs);
    var n := NormalisedWfsConfig(c, mapSrs);
    var d2 := WithWfsDefaults(n, mapSrs);
    assert d2 == n;
    if Str(mapSrs) != d["projection"] {
      match SyncFormatProjections(d, mapSrs)
      case Ok(d') =>
        var fc := d'["formatConfig"].props;
        assert fc["dataProjection" := Get(d', "projection")]["featureProjection" := Str(mapSrs)] == fc;
      case Err(_) =>
    }
  }

  // ---------------------------------------------------------------------
  // The WFS layer and its loader
  // ---------------------------------------------------------------------

  /** The layer createWfsLayer builds from a configuration its defaults were applied to. */
  function WfsLayerOf(n: Props, mapSrs: string): Result<Layer>
  {
    match FormatClass(Get(n, "format"))
    case None => Err(NotAConstructor(Get(n, "format")))
    case Some(kind) =>
      var loader := WfsLoader(n, mapSrs, WfsOutputFormat(Get(n, "format")));
      Ok(Layer(VectorLayer,
        CommonLayerOptions(n) + Copy(n, {"columnMapping"} + HoverOptionNames),
        Source(VectorSource, map[], None, Some(Format(kind, Some(Get(n, "formatConfig")))),
          Some(loader), Get(n, "loadOnlyVisible") != Bool(false)),
        Some(Get(n, "style"))))
  }

  /** What createWfsLayer returns (or throws) for a configuration and the map's SRS. */
  function WfsLayer(c: Props, mapSrs: string): Result<Layer>
  {
    var d := WithWfsDefaults(c, mapSrs);
    match SyncFormatProjections(d, mapSrs)
    case Err(e) => Err(e)
    case Ok(n) => WfsLayerOf(n, mapSrs)
  }

  /** An extent as the mapping library hands it to a loader: minx, miny, maxx, maxy. */
  type Extent = seq<real>

  /** A GetFeature request: its target URL, its key/value parameters, and the extent to forget if it fails. */
  datatype GetFeatureRequest = GetFeatureRequest(url: JsValue, params: Props, forgetOnFailure: Extent)

  predicate StartsWithOneDot(v: string)
  {
    |v| >= 2 && v[..2] == "1."
  }

  /** `params` before the optional entries. */
  function BaseParams(loader: WfsLoader): (p: Props)
    ensures p.Keys == {"service", "version", "request", "typename", "outputFormat", "srsname"}
  {
    map[
      "service" := Str("WFS"),
      "version" := Get(loader.conf, "version"),
      "request" := Str("GetFeature"),
      "typename" := Get(loader.conf, "typeName"),
      "outputFormat" := loader.outputFormat,
      "srsname" := Get(loader.conf, "projection")]
  }

  /** Whether the loader asks for features inside the view extent only. */
  predicate LoadsOnlyVisible(loader: WfsLoader)
  {
    Get(loader.conf, "loadOnlyVisible") != Bool(false)
  }

  /** The extent in the data projection: reprojected when the map's SRS differs. */
  function DataExtent(loader: WfsLoader, extent: Extent,
                      transform: (string, JsValue, Extent) -> Extent): Extent
  {
    if Str(loader.mapSrs) != Get(loader.conf, "projection") then
      transform(loader.mapSrs, Get(loader.conf, "projection"), extent)
    else
      extent
  }

  /** `array.join(sep)` for strings. */
  function Join(parts: seq<string>, sep: char): string
  {
    if |parts| == 0 then ""
    else if |parts| == 1 then parts[0]
    else parts[0] + [sep] + Join(parts[1..], sep)
  }

  /** `s.split(sep)`: the pieces between separators. */
  function Split(s: string, sep: char): (parts: seq<string>)
    ensures |parts| >= 1
  {
    if s == [] then [""]
    else if s[0] == sep then [""] + Split(s[1..], sep)
    else var rest := Split(s[1..], sep); [[s[0]] + rest[0]] + rest[1..]
  }

  function FormatAll(xs: Extent, formatNumber: real -> string): (r: seq<string>)
    ensures |r| == |xs|
    ensures forall i | 0 <= i < |xs| :: r[i] == formatNumber(xs[i])
  {
    if xs == [] then [] else [formatNumber(xs[0])] + FormatAll(xs[1..], formatNumber)
  }

  /** The bbox value: the extent's numbers joined by commas, then ',' and the projection. */
  function BboxValue(loader: WfsLoader, extent: Extent,
                     transform: (string, JsValue, Extent) -> Extent,
                     formatNumber: real -> string): string
  {
    Join(FormatAll(DataExtent(loader, extent, transform), formatNumber), ',')
      + "," + ToJsString(Get(loader.conf, "projection"))
  }

  /** Whether the feature limit makes the loader call `version.startsWith` on a non-string. */
  predicate LimitFails(conf: Props)
  {
    ParseIntIsInteger(Get(conf, "maxFeatures")) && !Get(conf, "version").Str?
  }

  /**
   * The parameters with the feature limit added (lines 240-246); calling
   * `startsWith` on a version that is not a string throws.
   */
  function LimitedParams(loader: WfsLoader): Result<Props>
  {
    var maxFeatures := Get(loader.conf, "maxFeatures");
    var version := Get(loader.conf, "version");
    if !ParseIntIsInteger(maxFeatures) then Ok(BaseParams(loader))
    else if !version.Str? then Err(NotAFunction("startsWith"))
    else if StartsWithOneDot(version.s) then Ok(BaseParams(loader)["maxFeatures" := maxFeatures])
    else Ok(BaseParams(loader)["count" := maxFeatures])
  }

  /** The parameters `limited` with the bbox filter added (lines 248-253). */
  function RequestParams(loader: WfsLoader, limited: Props, extent: Extent,
                         transform: (string, JsValue, Extent) -> Extent,
                         formatNumber: real -> string): Props
  {
    if LoadsOnlyVisible(loader) then
      limited["bbox" := Str(BboxValue(loader, extent, transform, formatNumber))]
    else
      limited
  }

  /**
   * The request the loader sends for a requested extent; fails when a
   * feature limit is set and the version is not a string.
   */
  function LoadRequest(loader: WfsLoader, extent: Extent,
                       transform: (string, JsValue, Extent) -> Extent,
                       formatNumber: real -> string): (r: Result<GetFeatureRequest>)
    ensures r.Err? <==> LimitFails(loader.conf)
    ensures r.Err? ==> r.error == NotAFunction("startsWith")
    ensures r.Ok? ==> r.value.url == Get(loader.conf, "url") && r.value.forgetOnFailure == extent
  {
    match LimitedParams(loader)
    case Err(e) => Err(e)
    case Ok(limited) =>
      Ok(GetFeatureRequest(Get(loader.conf, "url"),
        RequestParams(loader, limited, extent, transform, formatNumber), extent))
  }

  /** The names of the optional parameters are not among the fixed ones. */
  lemma ParamNamesFresh(loader: WfsLoader)
    ensures "maxFeatures" !in BaseParams(loader) && "count" !in BaseParams(loader) && "bbox" !in BaseParams(loader)
  {
  }

  /** The six fixed parameters always go out unchanged; at most the three optional ones are added. */
  lemma LoadRequestBaseParams(loader: WfsLoader, extent: Extent,
                              transform: (string, JsValue, Extent) -> Extent,
                              formatNumber: real -> string)
    ensures var r := LoadRequest(loader, extent, transform, formatNumber);
      r.Ok? ==>
        && BaseParams(loader).Keys <= r.value.params.Keys
        && (forall k | k in BaseParams(loader) :: r.value.params[k] == BaseParams(loader)[k])
        && r.value.params.Keys <= BaseParams(loader).Keys + {"maxFeatures", "count", "bbox"}
  {
    var r := LoadRequest(loader, extent, transform, formatNumber);
    if r.Ok? {
      var l := LimitedParams(loader).value;
      var p := RequestParams(loader, l, extent, transform, formatNumber);
      assert r.value.params == p;
      var b := BaseParams(loader);
      LimitKeepsBase(loader);
      BboxKeepsLimited(loader, l, extent, transform, formatNumber);
      ParamNamesFresh(loader);
      forall k | k in b
        ensures k in p && p[k] == b[k]
      {
        assert k != "bbox";
      }
      forall k | k in p
        ensures k in b || k == "maxFeatures" || k == "count" || k == "bbox"
      {
        if k != "bbox" {
          assert k in l;
        }
      }
    }
  }

  /**
   * Every request that goes out asks the WFS service for GetFeature, in the
   * configured version, for the configured feature type, in the output
   * format looked up for the format and in the data projection.
   */
  lemma LoadRequestFixedValues(loader: WfsLoader, extent: Extent,
                               transform: (string, JsValue, Extent) -> Extent,
                               formatNumber: real -> string)
    ensures var r := LoadRequest(loader, extent, transform, formatNumber);
      r.Ok? ==>
        var p := r.value.params;
        && "service" in p && p["service"] == Str("WFS")
        && "request" in p && p["request"] == Str("GetFeature")
        && "version" in p && p["version"] == Get(loader.conf, "version")
        && "typename" in p && p["typename"] == Get(loader.conf, "typeName")
        && "outputFormat" in p && p["outputFormat"] == loader.outputFormat
        && "srsname" in p && p["srsname"] == Get(loader.conf, "projection")
  {
    LoadRequestBaseParams(loader, extent, transform, formatNumber);
    BaseParamValues(loader);
  }

  lemma BaseParamValues(loader: WfsLoader)
    ensures var b := BaseParams(loader);
      && b["service"] == Str("WFS") && b["request"] == Str("GetFeature")
      && b["version"] == Get(loader.conf, "version") && b["typename"] == Get(loader.conf, "typeName")
      && b["outputFormat"] == loader.outputFormat && b["srsname"] == Get(loader.conf, "projection")
  {
  }

  /** The feature limit only adds `maxFeatures` or `count` to the fixed parameters. */
  lemma LimitKeepsBase(loader: WfsLoader)
    ensures var l := LimitedParams(loader);
      l.Ok? ==>
        && l.value.Keys <= BaseParams(loader).Keys + {"maxFeatures", "count"}
        && (forall k | k in BaseParams(loader) :: k in l.value && l.value[k] == BaseParams(loader)[k])
  {
    ParamNamesFresh(loader);
    var b := BaseParams(loader);
    var maxFeatures := Get(loader.conf, "maxFeatures");
    var version := Get(loader.conf, "version");
    if !ParseIntIsInteger(maxFeatures) {
      assert LimitedParams(loader) == Ok(b);
    } else if !version.Str? {
    } else if StartsWithOneDot(version.s) {
      assert LimitedParams(loader) == Ok(b["maxFeatures" := maxFeatures]);
      AddedKeepsOthers(b, "maxFeatures", maxFeatures);
    } else {
      assert LimitedParams(loader) == Ok(b["count" := maxFeatures]);
      AddedKeepsOthers(b, "count", maxFeatures);
    }
  }

  /** Adding a fresh parameter keeps every other one. */
  lemma AddedKeepsOthers(b: Props, name: string, v: JsValue)
    requires name !in b
    ensures b[name := v].Keys == b.Keys + {name}
    ensures forall k | k in b :: b[name := v][k] == b[k]
  {
  }

  /** The bbox filter adds at most `bbox` and keeps every other parameter. */
  lemma BboxKeepsLimited(loader: WfsLoader, limited: Props, extent: Extent,
                         transform: (string, JsValue, Extent) -> Extent,
                         formatNumber: real -> string)
    ensures var p := RequestParams(loader, limited, extent, transform, formatNumber);
      && p.Keys <= limited.Keys + {"bbox"}
      && (forall k | k in limited && k != "bbox" :: k in p && p[k] == limited[k])
  {
  }

  /**
   * A feature limit that parses as an integer goes out as `maxFeatures` for
   * versions starting with "1." and as `count` otherwise, with the
   * configured value; a limit that does not parse is left out.
   */
  lemma LoadRequestLimit(loader: WfsLoader, extent: Extent,
                         transform: (string, JsValue, Extent) -> Extent,
                         formatNumber: real -> string)
    ensures var r := LoadRequest(loader, extent, transform, formatNumber);
      r.Ok? ==>
        var p := r.value.params;
        var limited := ParseIntIsInteger(Get(loader.conf, "maxFeatures"));
        && ("maxFeatures" in p <==> limited && StartsWithOneDot(Get(loader.conf, "version").s))
        && ("count" in p <==> limited && !StartsWithOneDot(Get(loader.conf, "version").s))
        && ("maxFeatures" in p ==> p["maxFeatures"] == Get(loader.conf, "maxFeatures"))
        && ("count" in p ==> p["count"] == Get(loader.conf, "maxFeatures"))
  {
    var r := LoadRequest(loader, extent, transform, formatNumber);
    if r.Ok? {
      var l := LimitedParams(loader).value;
      var p := r.value.params;
      assert p == RequestParams(loader, l, extent, transform, formatNumber);
      BboxKeepsLimited(loader, l, extent, transform, formatNumber);
      LimitedNames(loader);
      assert "maxFeatures" != "bbox" && "count" != "bbox";
      assert "maxFeatures" in p <==> "maxFeatures" in l;
      assert "count" in p <==> "count" in l;
    }
  }

  /** Which of the two limit names LimitedParams adds, and with which value. */
  lemma LimitedNames(loader: WfsLoader)
    ensures var l := LimitedParams(loader);
      l.Ok? ==>
        var limited := ParseIntIsInteger(Get(loader.conf, "maxFeatures"));
        && ("maxFeatures" in l.value <==> limited && StartsWithOneDot(Get(loader.conf, "version").s))
        && ("count" in l.value <==> limited && !StartsWithOneDot(Get(loader.conf, "version").s))
        && ("maxFeatures" in l.value ==> l.value["maxFeatures"] == Get(loader.conf, "maxFeatures"))
        && ("count" in l.value ==> l.value["count"] == Get(loader.conf, "maxFeatures"))
  {
    ParamNamesFresh(loader);
    assert "maxFeatures" != "count";
  }

  /** A bbox is sent exactly unless `loadOnlyVisible` is the boolean false. */
  lemma LoadRequestBbox(loader: WfsLoader, extent: Extent,
                        transform: (string, JsValue, Extent) -> Extent,
                        formatNumber: real -> string)
    ensures var r := LoadRequest(loader, extent, transform, formatNumber);
      r.Ok? ==>
        && ("bbox" in r.value.params <==> LoadsOnlyVisible(loader))
        && ("bbox" in r.value.params ==> r.value.params["bbox"] == Str(BboxValue(loader, extent, transform, formatNumber)))
  {
    ParamNamesFresh(loader);
  }

  /** The feature limit goes out under exactly one name, never both. */
  lemma FeatureLimitUnderOneName(loader: WfsLoader, extent: Extent,
                                 transform: (string, JsValue, Extent) -> Extent,
                                 formatNumber: real -> string)
    ensures var r := LoadRequest(loader, extent, transform, formatNumber);
      r.Ok? ==>
        && !("maxFeatures" in r.value.params && "count" in r.value.params)
        && (("maxFeatures" in r.value.params || "count" in r.value.params)
              <==> ParseIntIsInteger(Get(loader.conf, "maxFeatures")))
  {
    LoadRequestLimit(loader, extent, transform, formatNumber);
  }

  /** No part contains the separator. */
  predicate FreeOf(parts: seq<string>, sep: char)
  {
    forall i, j | 0 <= i < |parts| && 0 <= j < |parts[i]| :: parts[i][j] != sep
  }

  /** Splitting a string without separators gives that string back. */
  lemma {:induction false} SplitFree(s: string, sep: char)
    requires forall j | 0 <= j < |s| :: s[j] != sep
    ensures Split(s, sep) == [s]
    decreases |s|
  {
    if s != [] {
      SplitFree(s[1..], sep);
      assert [s[0]] + s[1..] == s;
    }
  }

  /** Splitting `a + [sep] + b` where a has no separator. */
  lemma {:induction false} SplitAfterPart(a: string, sep: char, b: string)
    requires forall j | 0 <= j < |a| :: a[j] != sep
    ensures Split(a + [sep] + b, sep) == [a] + Split(b, sep)
    decreases |a|
  {
    if a == [] {
      assert a + [sep] + b == [sep] + b;
      assert ([sep] + b)[1..] == b;
    } else {
      assert (a + [sep] + b)[1..] == a[1..] + [sep] + b;
      SplitAfterPart(a[1..], sep, b);
      assert [a[0]] + a[1..] == a;
    }
  }

  /** split undoes join when no part holds the separator. */
  lemma {:induction false} SplitJoin(parts: seq<string>, sep: char)
    requires |parts| >= 1 && FreeOf(parts, sep)
    ensures Split(Join(parts, sep), sep) == parts
    decreases |parts|
  {
    if |parts| == 1 {
      SplitFree(parts[0], sep);
    } else {
      assert FreeOf(parts[1..], sep) by {
        forall i, j | 0 <= i < |parts[1..]| && 0 <= j < |parts[1..][i]|
          ensures parts[1..][i][j] != sep
        {
          assert parts[1..][i] == parts[i + 1];
        }
      }
      SplitJoin(parts[1..], sep);
      SplitAfterPart(parts[0], sep, Join(parts[1..], sep));
      assert [parts[0]] + parts[1..] == parts;
    }
  }

  /** Joining a part onto a nonempty join adds one separator. */
  lemma {:induction false} JoinSnoc(parts: seq<string>, last: string, sep: char)
    requires |parts| >= 1
    ensures Join(parts, sep) + [sep] + last == Join(parts + [last], sep)
    decreases |parts|
  {
    if |parts| > 1 {
      JoinSnoc(parts[1..], last, sep);
      assert (parts + [last])[1..] == parts[1..] + [last];
    }
  }

  /**
   * The bbox value reads back as the formatted numbers of the extent in the
   * data projection followed by the projection, provided none of them holds
   * a comma.
   */
  lemma {:induction false} BboxFields(loader: WfsLoader, extent: Extent,
                                      transform: (string, JsValue, Extent) -> Extent,
                                      formatNumber: real -> string)
    requires |DataExtent(loader, extent, transform)| >= 1
    requires FreeOf(FormatAll(DataExtent(loader, extent, transform), formatNumber)
                      + [ToJsString(Get(loader.conf, "projection"))], ',')
    ensures Split(BboxValue(loader, extent, transform, formatNumber), ',')
         == FormatAll(DataExtent(loader, extent, transform), formatNumber)
            + [ToJsString(Get(loader.conf, "projection"))]
  {
    var xs := FormatAll(DataExtent(loader, extent, transform), formatNumber);
    var proj := ToJsString(Get(loader.conf, "projection"));
    JoinSnoc(xs, proj, ',');
    assert Join(xs, ',') + "," + proj == Join(xs, ',') + [','] + proj;
    SplitJoin(xs + [proj], ',');
  }

  // ---------------------------------------------------------------------
  // The WFS layer as a whole
  // ---------------------------------------------------------------------

  /**
   * createWfsLayer succeeds exactly when the format fix-up does not throw and
   * the (defaulted) format has a class; the loader then reads the normalised
   * configuration, and the bbox strategy is used exactly when the loader
   * sends a bbox.
   */
  lemma WfsLayerShape(c: Props, mapSrs: string)
    ensures var d := WithWfsDefaults(c, mapSrs);
      WfsLayer(c, mapSrs).Ok? <==>
        SyncFormatProjections(d, mapSrs).Ok? && FormatClass(Get(d, "format")).Some?
    ensures WfsLayer(c, mapSrs).Ok? ==>
      var layer := WfsLayer(c, mapSrs).value;
      var n := NormalisedWfsConfig(c, mapSrs);
      && layer.kind == VectorLayer && layer.source.kind == VectorSource
      && layer.source.loader == Some(WfsLoader(n, mapSrs, WfsOutputFormat(Get(n, "format"))))
      && layer.source.bboxStrategy == LoadsOnlyVisible(layer.source.loader.value)
      && layer.source.format == Some(Format(FormatClass(Get(n, "format")).value, Some(Get(n, "formatConfig"))))
      && (forall k | k in CommonLayerOptions(n) :: layer.options[k] == CommonLayerOptions(n)[k])
  {
    var d := WithWfsDefaults(c, mapSrs);
    match SyncFormatProjections(d, mapSrs)
    case Err(_) =>
    case Ok(n) =>
      assert n == NormalisedWfsConfig(c, mapSrs);
      NormalisedFields(c, mapSrs);
      assert Get(n, "format") == Get(d, "format");
      WfsLayerOfShape(n, mapSrs);
  }

  /** The layer built from a normalised configuration, in terms of that configuration. */
  lemma WfsLayerOfShape(n: Props, mapSrs: string)
    ensures WfsLayerOf(n, mapSrs).Ok? <==> FormatClass(Get(n, "format")).Some?
    ensures WfsLayerOf(n, mapSrs).Ok? ==>
      var layer := WfsLayerOf(n, mapSrs).value;
      && layer.kind == VectorLayer && layer.source.kind == VectorSource
      && layer.source.loader == Some(WfsLoader(n, mapSrs, WfsOutputFormat(Get(n, "format"))))
      && layer.source.bboxStrategy == LoadsOnlyVisible(layer.source.loader.value)
      && layer.source.format == Some(Format(FormatClass(Get(n, "format")).value, Some(Get(n, "formatConfig"))))
      && (forall k | k in CommonLayerOptions(n) :: layer.options[k] == CommonLayerOptions(n)[k])
  {
    CommonOptionsKept(n, {"columnMapping"} + HoverOptionNames);
  }

  /**
   * With no version configured the default 1.1.0 applies, so a numeric
   * feature limit goes out as `maxFeatures`; a configured "2.0.0" sends it
   * as `count` instead.
   */
  lemma {:induction false} DefaultVersionLimit(c: Props, mapSrs: string, n: int, extent: Extent,
                                               transform: (string, JsValue, Extent) -> Extent,
                                               formatNumber: real -> string)
    requires Get(c, "maxFeatures") == Num(n)
    ensures WfsLayer(c, mapSrs).Ok? ==>
      var loader := WfsLayer(c, mapSrs).value.source.loader.value;
      var r := LoadRequest(loader, extent, transform, formatNumber);
      && (!Truthy(Get(c, "version")) ==> r.Ok? && "maxFeatures" in r.value.params && "count" !in r.value.params
                                          && r.value.params["maxFeatures"] == Num(n))
      && (Get(c, "version") == Str("2.0.0") ==> r.Ok? && "count" in r.value.params && "maxFeatures" !in r.value.params)
  {
    if WfsLayer(c, mapSrs).Ok? {
      WfsLoaderConf(c, mapSrs);
      var loader := WfsLayer(c, mapSrs).value.source.loader.value;
      NormalisedDefaults(c, mapSrs);
      NormalisedKept(c, mapSrs, "maxFeatures");
      LimitByVersion(loader, n, extent, transform, formatNumber);
    }
  }

  /** The loader of a WFS layer reads the normalised configuration. */
  lemma WfsLoaderConf(c: Props, mapSrs: string)
    ensures WfsLayer(c, mapSrs).Ok? ==>
      && WfsLayer(c, mapSrs).value.source.loader.Some?
      && WfsLayer(c, mapSrs).value.source.loader.value.conf == NormalisedWfsConfig(c, mapSrs)
  {
    WfsLayerShape(c, mapSrs);
  }

  /** A numeric limit goes out as `maxFeatures` under version 1.1.0 and as `count` under 2.0.0. */
  lemma LimitByVersion(loader: WfsLoader, n: int, extent: Extent,
                       transform: (string, JsValue, Extent) -> Extent,
                       formatNumber: real -> string)
    requires Get(loader.conf, "maxFeatures") == Num(n)
    ensures var r := LoadRequest(loader, extent, transform, formatNumber);
      && (Get(loader.conf, "version") == Str(DefaultWfsVersion) ==>
            r.Ok? && "maxFeatures" in r.value.params && "count" !in r.value.params
            && r.value.params["maxFeatures"] == Num(n))
      && (Get(loader.conf, "version") == Str("2.0.0") ==>
            r.Ok? && "count" in r.value.params && "maxFeatures" !in r.value.params)
  {
    NumParses(n);
    var version := Get(loader.conf, "version");
    if version == Str(DefaultWfsVersion) {
      assert StartsWithOneDot(DefaultWfsVersion);
      LoadRequestLimit(loader, extent, transform, formatNumber);
    } else if version == Str("2.0.0") {
      assert !StartsWithOneDot("2.0.0") by { assert "2.0.0"[..2][0] == '2'; }
      LoadRequestLimit(loader, extent, transform, formatNumber);
    }
  }

  /** The version and format the normalised configuration holds. */
  lemma NormalisedDefaults(c: Props, mapSrs: string)
    ensures var nc := NormalisedWfsConfig(c, mapSrs);
      && Get(nc, "version") == (if Truthy(Get(c, "version")) then c["version"] else Str(DefaultWfsVersion))
      && Get(nc, "format") == (if Truthy(Get(c, "format")) then c["format"] else Str(DefaultWfsFormat))
  {
    NormalisedFields(c, mapSrs);
    WfsDefaultsFilled(c, mapSrs);
  }

  /** A field createWfsLayer does not default keeps its configured value. */
  lemma NormalisedKept(c: Props, mapSrs: string, k: string)
    requires k !in {"projection", "version", "format", "formatConfig"}
    ensures Get(NormalisedWfsConfig(c, mapSrs), k) == Get(c, k)
  {
    NormalisedFields(c, mapSrs);
    WfsDefaultsFilled(c, mapSrs);
  }

  /** Apart from `formatConfig`, createWfsLayer changes only what its defaults fill in. */
  lemma NormalisedFields(c: Props, mapSrs: string)
    ensures forall k | k != "formatConfig" ::
      Get(NormalisedWfsConfig(c, mapSrs), k) == Get(WithWfsDefaults(c, mapSrs), k)
  {
  }

  /** Without any configured format the layer reads GML3 and asks for GML 3.1.1. */
  lemma DefaultFormat(c: Props, mapSrs: string)
    requires !Truthy(Get(c, "format"))
    ensures WfsLayer(c, mapSrs).Ok? ==>
      var layer := WfsLayer(c, mapSrs).value;
      && layer.source.format.value.kind == Gml3
      && layer.source.loader.value.outputFormat == Str("text/xml; subtype=gml/3.1.1")
  {
    WfsLayerShape(c, mapSrs);
    NormalisedDefaults(c, mapSrs);
    WfsOutputFormats(Str(DefaultWfsFormat));
  }

  // ---------------------------------------------------------------------
  // The configuration object and the factory entry point
  // ---------------------------------------------------------------------

  /** A layer configuration object; createWfsLayer writes its defaults into it. */
  class LayerConfig {
    var props: Props

    constructor (props: Props)
      ensures this.props == props
    {
      this.props := props;
    }
  }

  /**
   * `createWfsLayer`: fills in the defaults and the format projections in
   * the configuration object itself, then builds the layer. The object is
   * left changed also when the method throws.
   */
  method CreateWfsLayer(lConf: LayerConfig, mapSrs: string) returns (r: Result<Layer>)
    modifies lConf
    ensures lConf.props == NormalisedWfsConfig(old(lConf.props), mapSrs)
    ensures r == WfsLayer(old(lConf.props), mapSrs)
  {
    FillWfsDefaults(lConf, mapSrs);
    ghost var d := lConf.props;
    var outputFormat := WfsOutputFormat(Get(lConf.props, "format"));
    var synced := SetFormatProjections(lConf, mapSrs);
    if synced.Err? {
      return Err(synced.error);
    }
    var c := lConf.props;
    assert SyncFormatProjections(d, mapSrs) == Ok(c);
    assert Get(c, "format") == Get(d, "format");
    var format := Get(c, "format");
    var kind := FormatClass(format);
    if kind.None? {
      return Err(NotAConstructor(format));
    }
    var loader := WfsLoader(c, mapSrs, outputFormat);
    r := Ok(Layer(VectorLayer,
      CommonLayerOptions(c) + Copy(c, {"columnMapping"} + HoverOptionNames),
      Source(VectorSource, map[], None, Some(Format(kind.value, Some(Get(c, "formatConfig")))),
        Some(loader), Get(c, "loadOnlyVisible") != Bool(false)),
      Some(Get(c, "style"))));
  }

  /** Lines 205-215: the three defaults, written into the configuration. */
  method FillWfsDefaults(lConf: LayerConfig, mapSrs: string)
    modifies lConf
    ensures lConf.props == WithWfsDefaults(old(lConf.props), mapSrs)
  {
    if !Truthy(Get(lConf.props, "projection")) {
      lConf.props := lConf.props["projection" := Str(mapSrs)];
    }
    if !Truthy(Get(lConf.props, "version")) {
      lConf.props := lConf.props["version" := Str(DefaultWfsVersion)];
    }
    if !Truthy(Get(lConf.props, "format")) {
      lConf.props := lConf.props["format" := Str(DefaultWfsFormat)];
    }
  }

  /** Lines 221-224: the projections written into the format config; the configuration is untouched when it throws. */
  method SetFormatProjections(lConf: LayerConfig, mapSrs: string) returns (r: Result<()>)
    modifies lConf
    ensures r.Ok? <==> SyncFormatProjections(old(lConf.props), mapSrs).Ok?
    ensures r.Err? ==> r.error == SyncFormatProjections(old(lConf.props), mapSrs).error
    ensures lConf.props == SyncedConfig(old(lConf.props), mapSrs)
  {
    r := Ok(());
    if Str(mapSrs) != Get(lConf.props, "projection") {
      var fc := Get(lConf.props, "formatConfig");
      if !fc.Obj? {
        return Err(PropertyOfNonObject("dataProjection"));
      }
      fc := Obj(fc.props["dataProjection" := Get(lConf.props, "projection")]);
      fc := Obj(fc.props["featureProjection" := Str(mapSrs)]);
      lConf.props := lConf.props["formatConfig" := fc];
    }
  }

  /** What getInstance returns for a configuration: null (None) for an unknown type. */
  function Instance(c: Props, mapSrs: string): Result<Option<Layer>>
  {
    match CreatorFor(Get(c, "type"))
    case None => Ok(None)
    case Some(t) =>
      var r := if t == Wfs then WfsLayer(c, mapSrs) else PlainLayer(t, c);
      match r
      case Ok(layer) => Ok(Some(layer))
      case Err(e) => Err(e)
  }

  /** `getInstance`: dispatches on the `type` literal; only the WFS creator changes the configuration. */
  method GetInstance(lConf: LayerConfig, mapSrs: string) returns (r: Result<Option<Layer>>)
    modifies lConf
    ensures r == Instance(old(lConf.props), mapSrs)
    ensures CreatorFor(Get(old(lConf.props), "type")) == Some(Wfs) ==>
      lConf.props == NormalisedWfsConfig(old(lConf.props), mapSrs)
    ensures CreatorFor(Get(old(lConf.props), "type")) != Some(Wfs) ==> lConf.props == old(lConf.props)
  {
    var creator := CreatorFor(Get(lConf.props, "type"));
    if creator.None? {
      return Ok(None);
    }
    var made: Result<Layer>;
    if creator.value == Wfs {
      made := CreateWfsLayer(lConf, mapSrs);
    } else {
      made := PlainLayer(creator.value, lConf.props);
    }
    match made
    case Ok(layer) => r := Ok(Some(layer));
    case Err(e) => r := Err(e);
  }

  /** getInstance gives null exactly when the type is none of the eight literals, and then changes nothing. */
  lemma InstanceNull(c: Props, mapSrs: string)
    ensures Instance(c, mapSrs) == Ok(None) <==> forall u: LayerType :: Get(c, "type") != Str(TypeName(u))
  {
    CreatorForNone(Get(c, "type"));
  }

  /**
   * Only the creators that construct a format can throw: VECTOR and
   * VECTORTILE on a format without a class, WFS also on a format config
   * that is not an object; every other known type yields a layer.
   */
  lemma InstanceErrors(c: Props, mapSrs: string)
    ensures Instance(c, mapSrs).Err? ==>
      CreatorFor(Get(c, "type")) in {Some(Wfs), Some(Vector), Some(VectorTile)}
  {
    var t := CreatorFor(Get(c, "type"));
    if t.Some? && t.value != Wfs {
      PlainLayerFails(t.value, c);
    }
  }

  /** A VECTOR or VECTORTILE configuration fails exactly when its format literal has no class. */
  lemma VectorInstanceErrors(c: Props, mapSrs: string)
    requires CreatorFor(Get(c, "type")) in {Some(Vector), Some(VectorTile)}
    ensures Instance(c, mapSrs).Err? <==> FormatClass(Get(c, "format")).None?
  {
    PlainLayerFails(CreatorFor(Get(c, "type")).value, c);
  }

  // ---------------------------------------------------------------------
  // Which extent a failed request forgets
  // ---------------------------------------------------------------------

  /**
   * The extent passed to `removeLoadedExtent` when a request fails, as
   * written: the loader's `extent` variable, which by then has been
   * replaced by the reprojected extent whenever a bbox was sent.
   */
  function ForgottenExtentAsWritten(loader: WfsLoader, extent: Extent,
                                    transform: (string, JsValue, Extent) -> Extent): (r: Extent)
    ensures !LoadsOnlyVisible(loader) || Str(loader.mapSrs) == Get(loader.conf, "projection") ==> r == extent
    ensures LoadsOnlyVisible(loader) ==> r == DataExtent(loader, extent, transform)
  {
    if LoadsOnlyVisible(loader) then DataExtent(loader, extent, transform) else extent
  }

  /**
   * Whenever a bbox is sent, the data projection differs from the map's and
   * reprojecting moves the extent, the failed extent handed back is not the
   * one the source recorded, so the source keeps treating the area as loaded
   * and never requests it again; the corrected request forgets the recorded
   * extent instead.
   */
  lemma ForgottenExtentMismatch(loader: WfsLoader, extent: Extent,
                                transform: (string, JsValue, Extent) -> Extent,
                                formatNumber: real -> string)
    requires LoadsOnlyVisible(loader)
    requires Str(loader.mapSrs) != Get(loader.conf, "projection")
    requires transform(loader.mapSrs, Get(loader.conf, "projection"), extent) != extent
    ensures ForgottenExtentAsWritten(loader, extent, transform) != extent
    ensures var r := LoadRequest(loader, extent, transform, formatNumber);
      r.Ok? ==> ForgottenExtentAsWritten(loader, extent, transform) != r.value.forgetOnFailure
  {
  }

  /** A layer in EPSG:4326 on an EPSG:3857 map meets the conditions of ForgottenExtentMismatch. */
  lemma ForgottenExtentExample()
    ensures var loader := WfsLoader(map["projection" := Str("EPSG:4326")], "EPSG:3857", Undefined);
      var transform := (from: string, to: JsValue, e: Extent) => [0.0, 0.0, 1.0, 1.0];
      var extent := [10.0, 20.0, 30.0, 40.0];
      && LoadsOnlyVisible(loader)
      && Str(loader.mapSrs) != Get(loader.conf, "projection")
      && transform(loader.mapSrs, Get(loader.conf, "projection"), extent) != extent
      && ForgottenExtentAsWritten(loader, extent, transform) != extent
  {
    var loader := WfsLoader(map["projection" := Str("EPSG:4326")], "EPSG:3857", Undefined);
    var transform := (from: string, to: JsValue, e: Extent) => [0.0, 0.0, 1.0, 1.0];
    var extent := [10.0, 20.0, 30.0, 40.0];
    assert Get(loader.conf, "loadOnlyVisible") == Undefined;
    assert transform(loader.mapSrs, Get(loader.conf, "projection"), extent)[0] == 0.0;
    assert ForgottenExtentAsWritten(loader, extent, transform)[0] == 0.0;
  }
}
