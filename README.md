# Wegue configuration core, modelled in Dafny

Wegue is a web-mapping application framework: an application is described by
a JSON configuration file, and the framework turns it into a map with layers
and a themed user interface. This project models the three pieces of
JavaScript that interpret that configuration and proves properties of them.

- `src/main.js` (module `AppContext`, file `appcontext.dfy`): the `appCtx`
  query parameter selects `app-conf-<ctx>.json` instead of `app-conf.json`.
  Runs of `../` are removed from the value with the global regular expression
  `/(\.\.[/])+/g`. The configuration is fetched from `app/` and, when that
  fails, from `static/`.
- `src/util/ColorTheme.js` (module `ColorTheme`, file `colortheme.dfy`): the
  user's light and dark colour palettes are merged with the default palettes.
  Missing colours are computed, and custom colour names are copied. The
  result is wrapped into the theme object of the UI framework.
- `src/factory/Layer.js` (module `LayerFactory`, file `layerfactory.dfy`): the
  layer factory dispatches on the `type` literal of a layer configuration
  and builds a layer of the mapping library. For WFS (Web Feature Service)
  layers it first writes defaults into the configuration object in place.
  It then builds a feature loader that assembles a GetFeature request for
  each requested map extent.

Shared modules: `JsValues` (`jsvalues.dfy`) models the JavaScript values a
JSON configuration holds. It covers truthiness, property reads, conversion to
string and the `Number.isInteger(parseInt(v))` test. `Options` (`options.dfy`)
holds an option type.

How the source is rendered:

- The layer configuration object is the class `LayerFactory.LayerConfig`,
  because `createWfsLayer` changes it in place. The methods
  `CreateWfsLayer`, `FillWfsDefaults`, `SetFormatProjections` and
  `GetInstance` change it step by step, as the source does. Each is proved
  against a specification function (`NormalisedWfsConfig`, `WfsLayer`,
  `Instance`).
- The for-in loops that copy custom colours are the method
  `ColorTheme.CopyCustomKeys`, proved equal to the function `WithCustomKeys`.
  `ColorTheme.MergeThemes` fills fresh palettes field by field and is proved
  equal to `Merge`.
- The mapping library's layer, source and format constructors become tagged
  records that carry the options passed to them.
- Exceptions the source can throw become the `Err` case of a result type.
  This covers a property set on a non-object, `new` on an unknown format and
  `startsWith` on a non-string version.
- The reprojection of an extent, the number formatting of `Array.join` and
  the colour luminance check are library code. They are function parameters
  of the model.

## Model

| member | source | states |
|---|---|---|
| AppContext.ReplaceRunsIsDeleteEach | src/main.js:33 | The global replace of the greedy pattern `(\.\.[/])+` (delete a whole run, resume after it) gives the same string as deleting each `../` found scanning left to right. |
| AppContext.CleanAppCtx | src/main.js:33 | The cleaned value is the left-to-right deletion of every `../` occurrence. |
| AppContext.DeleteEachLength | src/main.js:33 | The cleaned value is exactly three characters shorter per deleted `../`. |
| AppContext.DeleteEachKeepsOthers | src/main.js:33 | Only dots and slashes are removed; every other character of the value survives, in order. |
| AppContext.CountZeroIff | src/main.js:33 | Nothing is deleted exactly when the value contains no `../`, and the value is then unchanged. |
| AppContext.CleanUnchangedIff | src/main.js:32-33 | The cleaning leaves the value unchanged if and only if it contains no `../`. |
| AppContext.CleanIsNotIdempotent | src/main.js:32-33 | The guard is a single pass: `..././` becomes `../`, which still contains the sequence the guard is meant to remove. |
| AppContext.AppCtxFileSuffix | src/main.js:29-34 | An absent or empty parameter gives the empty suffix; otherwise the suffix is '-' followed by the cleaned value, at most one character longer than the value, keeping all its other characters. |
| AppContext.ConfigUrlsInjective | src/main.js:47-54 | Different suffixes give different primary URLs and different fallback URLs, and no fallback URL equals any primary URL, so each suffix has configuration files of its own. Different application contexts can still share a suffix; see ContextsShareSuffix. |
| AppContext.DefaultConfigUrls | src/main.js:29-54 | Without an application context, whether it is absent or empty, the URLs are `app/app-conf.json` and `static/app-conf.json`. |
| AppContext.ContextsShareSuffix | src/main.js:29-47 | The cleaning does not keep application contexts apart: `../x` and `x` both give the suffix `-x`, so both read `app/app-conf-x.json`. |
| AppContext.ConfigUrlsShareSuffix | src/main.js:47-54 | For every suffix, both URLs carry it and differ only in the directory: `app/` versus `static/`. |
| JsValues.ParseIntIsIntegerCases | src/factory/Layer.js:240 | Every number passes the `Number.isInteger(parseInt(…))` test; undefined, null, booleans, objects and the empty string do not. |
| ColorTheme.DefaultThemesUsable | src/util/ColorTheme.js:4-21 | The default light palette has a truthy primary and the default dark palette a truthy secondary, which the fallbacks rely on. |
| ColorTheme.DefaultThemeEntries | src/util/ColorTheme.js:4-21 | The default palettes use only computed colour names, with light primary `#af2622`, light error `#ff6f00`, dark secondary `#ea9b9b` and dark on-secondary `#272727`. |
| ColorTheme.SemanticDefaultsAgree | src/util/ColorTheme.js:24-35 | The fixed info, success, warning and error colours are the same for the light and the dark theme. |
| ColorTheme.ContrastColor | src/util/ColorTheme.js:44-61 | The result is the light or the dark colour. It is the light one if and only if the luminance check accepts the colour. For an object colour, the check receives the colour's `base` property; for any other colour, it receives the colour itself. |
| ColorTheme.LightSource | src/util/ColorTheme.js:81-85 | The light palette read is the user's when it is an object with a truthy primary, otherwise the whole default light palette; either way it has a truthy primary. |
| ColorTheme.DarkSource | src/util/ColorTheme.js:123-127 | The dark palette read is the user's when it is an object with a truthy secondary, otherwise the default dark palette; either way it has a truthy secondary. |
| ColorTheme.ComputedLight | src/util/ColorTheme.js:87-113 | The computed light palette has exactly the ten computed colour names. |
| ColorTheme.ComputedDark | src/util/ColorTheme.js:129-153 | The computed dark palette has exactly the ten computed colour names. |
| ColorTheme.WithCustomKeys | src/util/ColorTheme.js:115-121 | The palette keeps every computed colour and gains every source name that `in` does not find, i.e. that is neither computed nor an Object.prototype member, with its source value. |
| ColorTheme.CopyCustomKeys | src/util/ColorTheme.js:116-121 | The for-in loop, one property at a time, yields exactly `WithCustomKeys`. |
| ColorTheme.MergeLight | src/util/ColorTheme.js:87-121 | The field-by-field light palette followed by the custom-key loop equals the computed light colours extended by the custom keys. |
| ColorTheme.MergeDark | src/util/ColorTheme.js:129-161 | The same for the dark palette. |
| ColorTheme.MergeThemes | src/util/ColorTheme.js:73-164 | `mergeThemes` yields `Merge` of the input and the defaults. |
| ColorTheme.FallbackToDefaults | src/util/ColorTheme.js:81-127 | Without a light palette with a truthy primary, the merged light palette is the one the defaults alone give, whatever else the input holds; likewise for dark and its secondary. |
| ColorTheme.MergedLightColors | src/util/ColorTheme.js:87-106 | A configured primary is kept; the secondary falls back to the primary and the anchor repeats it; the accent is white or black by luminance; the on-colours fall back to contrast colours. |
| ColorTheme.MergedDarkColors | src/util/ColorTheme.js:129-146 | The dark primary is always `#272727` and the on-primary `#ffffff`; a configured secondary is kept and anchor and accent repeat it; the on-secondary falls back to a contrast colour. |
| ColorTheme.MergedSemanticColors | src/util/ColorTheme.js:108-153 | Info, success, warning and error are the user's colour when truthy, else the fixed default, in both palettes. |
| ColorTheme.MergedCustomKeys | src/util/ColorTheme.js:115-161 | The merged palettes hold exactly the computed names plus the source's non-prototype names; computed colours are never overwritten and custom ones are copied verbatim. |
| ColorTheme.PrototypeNamesDropped | src/util/ColorTheme.js:117 | A custom colour named like an Object.prototype member (`constructor`, `toString`, …) never reaches the merged palettes. |
| ColorTheme.ComputedColorsTruthy | src/util/ColorTheme.js:87-153 | Every computed colour of both merged palettes is truthy. |
| ColorTheme.BuildTheme | src/util/ColorTheme.js:171-213 | The default theme is `dark` exactly when the configuration object has a truthy `dark`; light is not dark and dark is dark. The colours are the palettes merged from the configured `themes` object. A missing configuration object, or a `themes` value that is not an object, acts as `{}`, so the colours are then the palettes merged from the defaults alone. The variation names are the union of both palettes' names, with 5 lighten and 4 darken steps. |
| ColorTheme.BuildThemeWithoutThemes | src/util/ColorTheme.js:171-213 | Without a themes object the variations cover exactly the ten computed names, and the default colours (light primary `#af2622`, error `#ff6f00`, dark secondary `#ea9b9b`, on-secondary `#272727`) win over the fixed fallbacks. |
| LayerFactory.CreatorForSome | src/factory/Layer.js:63-84 | A `type` value selects a creator if and only if it is that creator's string literal. |
| LayerFactory.CreatorForNone | src/factory/Layer.js:63-84 | No creator is selected if and only if the value is none of the eight literals. |
| LayerFactory.TypeNamesDistinct | src/factory/Layer.js:63-84 | Distinct creators have distinct literals, so the dispatch is unambiguous. |
| LayerFactory.WfsOutputFormat | src/factory/Layer.js:218 | The output format looked up is undefined or a string. |
| LayerFactory.WfsOutputFormats | src/factory/Layer.js:35-54 | GML2, GML3, GML32 and GeoJSON map to their MIME types; KML, TopoJSON, MVT and unknown literals give undefined; every format with an output format also has a format class. |
| LayerFactory.CommonOptionsCopied | src/factory/Layer.js:92-109 | The common options are exactly the thirteen copied fields plus `confName` and `confAttributions`, each with the configuration's value (`name` and `attributions` renamed). |
| LayerFactory.CommonOptionsRenamed | src/factory/Layer.js:92-109 | The configuration's `name` and `attributions` are passed on only under their new names. |
| LayerFactory.CommonOptionsDisjoint | src/factory/Layer.js:331-344 | The common options never collide with `columnMapping` or the hover options spread next to them. |
| LayerFactory.PlainLayerFails | src/factory/Layer.js:118-370 | The non-WFS creators fail only for VECTOR and VECTORTILE, and then exactly when the format literal has no format class. |
| LayerFactory.PlainLayerOptions | src/factory/Layer.js:118-370 | Every non-WFS layer carries the common options unchanged. |
| LayerFactory.PlainLayerSource | src/factory/Layer.js:118-370 | Exactly the WMS and ArcGIS sources get params, seeded with `LAYERS` from `layers` and merged with `params`; no plain source has a loader or the bbox strategy. |
| LayerFactory.WfsDefaultsFilled | src/factory/Layer.js:205-215 | A falsy projection becomes the map's SRS, a falsy version `1.1.0`, a falsy format `GML3`; truthy values and all other fields are kept, and only those three names can be added. |
| LayerFactory.FormatProjectionsSynced | src/factory/Layer.js:220-224 | When the map's SRS equals the projection nothing changes; otherwise the step fails exactly when `formatConfig` is not an object, and else sets its `dataProjection` and `featureProjection` and keeps everything else. |
| LayerFactory.NormalisationIdempotent | src/factory/Layer.js:205-224 | Applying createWfsLayer's changes to the configuration a second time changes nothing more. |
| LayerFactory.NormalisedFields | src/factory/Layer.js:205-224 | Apart from `formatConfig`, the configuration afterwards differs from the input only by the three defaults. |
| LayerFactory.NormalisedDefaults | src/factory/Layer.js:205-215 | Afterwards the configuration holds the configured version and format when truthy, else `1.1.0` and `GML3`. |
| LayerFactory.NormalisedKept | src/factory/Layer.js:205-224 | Every field other than the projection, version, format and format config keeps its configured value. |
| LayerFactory.BaseParams | src/factory/Layer.js:230-237 | The fixed request parameters are exactly service, version, request, typename, outputFormat and srsname. |
| LayerFactory.LoadRequest | src/factory/Layer.js:228-260 | The loader throws exactly when `maxFeatures` parses as an integer and the version is not a string; otherwise the request goes to the configured URL. Its `forgetOnFailure` is the corrected extent of the Findings row for src/factory/Layer.js:248-268, the extent that was requested; the code as written forgets ForgottenExtentAsWritten instead. |
| LayerFactory.LoadRequestBaseParams | src/factory/Layer.js:230-253 | The fixed parameters always go out unchanged, and only `maxFeatures`, `count` and `bbox` can be added. |
| LayerFactory.LoadRequestFixedValues | src/factory/Layer.js:230-237 | Every request asks the WFS service for GetFeature in the configured version, for the configured feature type, in the looked-up output format and in the data projection. |
| LayerFactory.LoadRequestLimit | src/factory/Layer.js:239-246 | A limit that parses as an integer goes out as `maxFeatures` for versions starting with `1.` and as `count` otherwise, with the configured value; a limit that does not parse is left out. |
| LayerFactory.FeatureLimitUnderOneName | src/factory/Layer.js:239-246 | Never both `maxFeatures` and `count`; one of them exactly when the limit parses as an integer. |
| LayerFactory.LoadRequestBbox | src/factory/Layer.js:247-253 | A bbox is sent if and only if `loadOnlyVisible` is not the boolean false, and its value is the joined extent followed by the projection. |
| LayerFactory.BboxFields | src/factory/Layer.js:249-252 | Split at commas, the bbox reads back as the extent's numbers in the data projection followed by the projection, provided none of them contains a comma. |
| LayerFactory.WfsLayerShape | src/factory/Layer.js:203-285 | The WFS creator succeeds exactly when the format step does not throw and the defaulted format has a class; the loader reads the normalised configuration; the bbox strategy is used exactly when the loader sends a bbox. |
| LayerFactory.WfsLayerOfShape | src/factory/Layer.js:226-282 | From the normalised configuration the layer is built exactly when the format has a class: a vector layer whose source has the loader over that configuration, the bbox strategy exactly when the loader sends a bbox, the format constructed with the format config, and the common options unchanged. |
| LayerFactory.WfsLoaderConf | src/factory/Layer.js:226-237 | The loader of a WFS layer reads the configuration as createWfsLayer left it. |
| LayerFactory.DefaultVersionLimit | src/factory/Layer.js:208-246 | With no version configured, a numeric limit goes out as `maxFeatures`; with version `2.0.0` it goes out as `count`. |
| LayerFactory.LimitByVersion | src/factory/Layer.js:239-246 | With a numeric limit, version `1.1.0` sends it as `maxFeatures` and version `2.0.0` as `count`, never both. |
| LayerFactory.DefaultFormat | src/factory/Layer.js:212-218 | Without a format the layer reads GML3 and asks for `text/xml; subtype=gml/3.1.1`. |
| LayerFactory.FillWfsDefaults | src/factory/Layer.js:205-215 | Writes the three defaults into the configuration object itself. |
| LayerFactory.SetFormatProjections | src/factory/Layer.js:220-224 | Writes the two projections into the configuration's format config; fails exactly as `SyncFormatProjections` does, leaving the configuration unchanged then. |
| LayerFactory.CreateWfsLayer | src/factory/Layer.js:203-285 | Leaves the configuration object normalised (also when it throws) and returns the WFS layer of the original configuration. |
| LayerFactory.GetInstance | src/factory/Layer.js:63-84 | Returns the selected creator's result, or null for an unknown type; only the WFS creator changes the configuration object. |
| LayerFactory.InstanceNull | src/factory/Layer.js:63-84 | getInstance returns null if and only if the type is none of the eight literals. |
| LayerFactory.InstanceErrors | src/factory/Layer.js:63-84 | Only the WFS, VECTOR and VECTORTILE creators can throw. |
| LayerFactory.VectorInstanceErrors | src/factory/Layer.js:331-370 | A VECTOR or VECTORTILE configuration throws if and only if its format literal has no format class. |
| LayerFactory.ForgottenExtentAsWritten | src/factory/Layer.js:248-268 | As written, a failed request forgets the reprojected extent whenever a bbox was sent, and the requested extent otherwise. |
| LayerFactory.ForgottenExtentMismatch | src/factory/Layer.js:248-268 | For every loader that sends a bbox, whose data projection differs from the map's and whose reprojection moves the extent, the extent forgotten as written differs from the extent requested and from the corrected request's `forgetOnFailure`. |
| LayerFactory.ForgottenExtentExample | src/factory/Layer.js:248-268 | A layer in EPSG:4326 on an EPSG:3857 map, with `loadOnlyVisible` unset, meets those conditions, so the discrepancy occurs. |

## Left out

- Numbers are integers only. Floating-point values, arrays (other than extents) and functions in a configuration are not modelled.
- The network requests (`fetch` in `src/main.js`, `axios` in the WFS loader), their promises and callbacks are not modelled. Parsing the response and adding features to the source is also left out. A request is the GetFeature request value the loader builds.
- `UrlUtil.getQueryParam` is not part of this model. The `appCtx` value is a parameter that is either absent or a string.
- `ObjectUtil.mergeDeep` is not part of this model. The WMS params are the record of its two arguments, the `LAYERS` seed and the user's `params`.
- The mapping library's constructors, `OlStyleFactory.getInstance`, `applyTransform`/`getTransform` and the number formatting of `Array.join` are not part of this model. The constructors are records; the rest are parameters.
- `ColorUtil.checkLuminance` is not part of this model; it is a parameter.
- The map object: WFS creation takes the map's SRS code as a parameter. Calling the WFS creator without a map, which throws, is not modelled.
- LayerFactory.WfsLayer: the loader captures the configuration as it was when the layer was made. The source's closure reads the object again on every load, so later changes to the configuration object are not seen by the model.
- LayerFactory.CreateWfsLayer: `formatConfig` is updated as a value inside the configuration. Another object sharing the same format config would also see the change in the source; that aliasing is not modelled.
- ColorTheme.BuildTheme: `buildTheme` may write an empty `themes` object into the caller's configuration object. This change is not modelled; the function works on values.
- LayerFactory.FormatClass, LayerFactory.WfsOutputFormat: format literals that name Object.prototype members (`constructor`, `toString`, …) find those inherited members in the source's lookup tables (`formatMapping` and `wfsFormatMapping`). The model treats them as unknown formats, so for those literals WfsOutputFormat gives undefined where the source gives a function.
- JsValues.PropOf: reading a property of a string or number gives undefined. The source would find members of the String and Number prototypes, but none of the property names read here is such a member.
- JsValues.ParseIntIsInteger: parseInt results too large to be finite (more than about 300 digits) are not modelled as failing the integer test.
- The request parameters are a map from names to values. Parameters whose value is undefined are dropped when the request URL is built; this encoding is not modelled.
- `removeLoadedExtent` bookkeeping inside the vector source is not modelled. The model states which extent the loader hands to it.
- The rest of `src/main.js` (Vue application set-up) and `util/init-app.js` are not part of this model.

## Findings

| source | as written | input that shows it | evidently intended | confidence | as-written member | corrected member |
|---|---|---|---|---|---|---|
| src/factory/Layer.js:248-268 | When a bbox is sent and the data projection differs from the map's, the loader overwrites `extent` with the reprojected extent. A failed request then calls `removeLoadedExtent` with that reprojected extent. The vector source recorded the extent in map coordinates, so nothing is removed and the area is never requested again. | Layer projection `EPSG:4326` on an `EPSG:3857` map, `loadOnlyVisible` unset, a request for `[10, 20, 30, 40]` that fails | Forget the extent that was requested, in map coordinates | medium, not executed | LayerFactory.ForgottenExtentAsWritten | LayerFactory.LoadRequest |
