# Bing Maps tile layer: quadkeys, bounding boxes, tile URLs and the metadata gate

This project models the core of `BingLayer`, a Leaflet tile layer for Bing Maps
imagery written in TypeScript (`bingmap.layer.ts`), and proves properties of the
model in Dafny. It covers:

- **Quadkey encoding** (`toQuadKey`). A tile column `x`, row `y` and zoom `z`
  become Bing's base-4 quadtree address. The loop takes one digit per zoom level,
  most significant level first. The column bit contributes 1 and the row bit
  contributes 2.
- **Bounding-box reordering** (`toBingBBox`). A `"west,south,east,north"` string
  is split at its commas and returned as `[south, west, north, east]`. The fields
  stay strings.
- **Tile URL synthesis** (`getTileUrl`). The quadkey, the tile's subdomain and the
  culture are filled into the URL template. `&st=<style>` is appended only when a
  style string is configured.
- **The metadata gate** (`_metaDataOnLoad` and the `_url` branch of
  `createTile`). A metadata response with status 200 or 429 sets the layer's URL
  template, imagery providers and subdomains from its first resource. Any other
  status throws and changes nothing. `createTile` builds the URL at once when a
  template is set. Otherwise it starts a metadata fetch of its own.

Modules, one per component:

- `Wrappers` (`wrappers.dfy`) holds `Option`, `Outcome` and `Result`.
- `QuadKey` (`quadkey.dfy`) has three parts:
  - the encoding loop `ToQuadKey`, whose body's digit computation is the method
    `LevelDigit`;
  - the string that loop builds, `Interleaved`;
  - a level-by-level reference definition, `QuadKeyOf`: the parent's key plus a
    quadrant digit. It comes with a decoder, `Decode`.
- `BBox` (`bbox.dfy`) holds JavaScript's `split(',')`, modelled as `Split`, and the
  reordering.
- `TileUrl` (`tile_url.dfy`) holds the `&st=` style suffix.
- `BingLayer` (`bing_layer.dfy`) holds the class `Layer`. Its fields are the
  layer's mutable state: `url`, `imageryProviders`, `subdomains`, and a ghost
  counter `fetchCount` of metadata fetches started. Its methods are
  `MetaDataOnLoad`, `GetTileUrl`, `CreateTile` and `FinishFetchedTile`.

Leaflet's `L.Util.template` and the inherited `_getSubdomain` are not defined in
this file. They are the constant function-valued fields `template` and
`getSubdomain`, supplied when a `Layer` is built. Nothing is assumed about them
except what their types say: `getSubdomain` is a function of the tile coordinate
and the subdomain list only.

JavaScript semantics that the model writes out:

- `1 << (i - 1)` takes its shift count modulo 32, and `x & mask` works on `x`
  modulo 2^32 (`MaskedBitSet`). Digit `k` of the result therefore reads bit
  `(z - 1 - k) mod 32`. Up to zoom 32 this is exactly the quadtree address
  (`InterleavedIsQuadKeyOf`). Bing's tile levels stay well below 32.
- `if (this._url)` tests truthiness. An empty URL string counts as unset
  (`Layer.HasUrl`).
- `fields[i]` past the end of the split is `undefined`. It is modelled as `None`
  (`BBox.FieldAt`).
- `resource.imageryProviders || []` uses an empty provider list when the field is
  absent.
- `typeof style === 'string'` appends the suffix for every string, including the
  empty one.

What the code does not do:

- It does not fetch the metadata only once, keep a queue of waiting tiles or have
  a failure state. Every `createTile` made while `_url` is unset calls `_fetch()`
  again, and `_fetch` catches every error and only logs it. So after a rejected
  response each later tile starts a new fetch (`TilesAfterRejectedMetadata`).

## Model

| member | source | states |
|---|---|---|
| `QuadKey.ToQuadKey` | bingmap.layer.ts:71-81 | The loop counting `i` from `z` down to 1 yields exactly `Interleaved(x, y, z)`. For `z <= 32` that is the quadtree address `QuadKeyOf(x, y, z)`. |
| `QuadKey.LevelDigit` | bingmap.layer.ts:74-77 | The loop body's `b` is 1 when the column has the mask bit, plus 2 when the row has it. |
| `QuadKey.Interleaved` | bingmap.layer.ts:72-79 | The string the loop builds has one character per counter value, so its length is `z`. |
| `QuadKey.InterleavedDigit` | bingmap.layer.ts:73-79 | Character `k` of the loop's string is the digit `bit(x, j) + 2*bit(y, j)` for `j = (z-1-k) mod 32`: 1 from the column bit, 2 from the row bit. |
| `QuadKey.MaskedBitSetIsBit` | bingmap.layer.ts:75-77 | The 32-bit test `(n & (1 << i)) !== 0` holds exactly when bit `i mod 32` of `n` is 1. |
| `QuadKey.DigitChar` | bingmap.layer.ts:78 | `b.toString()` for a digit value 0..3 is the character `'0'..'3'` whose value is `b`. |
| `QuadKey.BitIsDivMod` | bingmap.layer.ts:75-77 | The bit the mask selects is `(n / 2^k) % 2`. |
| `QuadKey.QuadKeyOf` | bingmap.layer.ts:71-80 | The quadkey of a tile has length exactly `z`, and every character is in `'0'..'3'`. |
| `QuadKey.QuadKeyOfZoomZero` | bingmap.layer.ts:72-73 | Zoom 0 gives the empty key. |
| `QuadKey.QuadKeyOfAt` | bingmap.layer.ts:73-78 | Character `k`, counted from the most significant end, is `bit(x, z-1-k) + 2*bit(y, z-1-k)`. |
| `QuadKey.InterleavedIsQuadKeyOf` | bingmap.layer.ts:72-80 | Up to zoom 32 the bit-interleaving loop's string equals the level-by-level quadtree address. |
| `QuadKey.QuadKeyExample` | bingmap.layer.ts:71-80 | Column 3, row 5, zoom 3 gives `"213"`. |
| `QuadKey.ChildExtendsParent` | bingmap.layer.ts:73-79 | For `dx, dy` in {0, 1}, the key of child `(2x+dx, 2y+dy)` at zoom `z+1` is the parent's key followed by digit `dx + 2*dy`. |
| `QuadKey.AncestorPrefix` | bingmap.layer.ts:73-79 | The key at zoom `z+k` is the key of the ancestor `k` levels up at zoom `z`, followed by the last `k` digits of the tile's own key. |
| `QuadKey.Decode` | bingmap.layer.ts:76-78 | Reading digits back (column from bit 0, row from bit 1) succeeds exactly on strings of digits `'0'..'3'`. It gives a column and a row below `2^len`. |
| `QuadKey.DecodeQuadKeyOf` | bingmap.layer.ts:73-78 | For `0 <= x, y < 2^z`, decoding the key of `(x, y, z)` recovers `(x, y)`. |
| `QuadKey.QuadKeyOfDecode` | bingmap.layer.ts:73-78 | Every digit string is the key of the tile it decodes to. The encoding is onto the digit strings. |
| `QuadKey.QuadKeyInjective` | bingmap.layer.ts:73-78 | Within the `2^z` by `2^z` grid, distinct tiles have distinct keys. |
| `BBox.Split` | bingmap.layer.ts:84 | `split(',')` returns at least one field. The fields contain no comma, and joined with commas they give back the input. |
| `BBox.SplitJoin` | bingmap.layer.ts:84 | Splitting comma-free fields joined by commas returns those fields. |
| `BBox.FieldAt` | bingmap.layer.ts:85 | Indexing the split is defined exactly within its length and is `undefined` past it. |
| `BBox.ToBingBBox` | bingmap.layer.ts:83-86 | The result has four entries, and undoing the reordering gives the first four split fields in their native order. |
| `BBox.ToBingBBoxOfFields` | bingmap.layer.ts:84-85 | `"w,s,e,n"` with comma-free fields gives `[s, w, n, e]`. |
| `BBox.ToBingBBoxFieldCount` | bingmap.layer.ts:84-85 | An entry of the result is `undefined` exactly when the input has too few fields for it. |
| `BBox.ToBingBBoxExample` | bingmap.layer.ts:83-86 | `"10,20,30,40"` gives `["20", "10", "40", "30"]`. |
| `BBox.BingOrderInvolution` | bingmap.layer.ts:85 | Applying the reordering twice gives back the original order. |
| `TileUrl.StyleSuffixAddsOneParam` | bingmap.layer.ts:131-133 | With a style string, the URL gains exactly one `&st=` (more only if the style value itself contains one). Without a style the URL is unchanged. |
| `BingLayer.FirstResource` | bingmap.layer.ts:173 | `resourceSets[0].resources[0]` exists exactly when both lists are non-empty, and is that element. |
| `BingLayer.Layer.constructor` | bingmap.layer.ts:45-56 | A new layer has no URL template, no imagery providers, the default subdomains and no fetch started. |
| `BingLayer.Layer.GetTileUrl` | bingmap.layer.ts:124-135 | The URL is the template filled with the tile's quadkey, its subdomain and the culture. For zoom at most 32 that quadkey is the tile's quadtree address. No style leaves the filled template unchanged. A style adds exactly one `&st=<style>`. |
| `BingLayer.Layer.MetaDataOnLoad` | bingmap.layer.ts:167-179 | It fails exactly when the status is not 200 or 429 or there is no first resource; `Pass` means the three fields were set, not that the source's method returns without throwing (see below). A rejected status is reported with its code. On failure the URL, providers and subdomains are unchanged. On success they are `imageUrl`, `imageryProviders` (or `[]` when absent) and `imageUrlSubdomains`, and a non-empty `imageUrl` unlocks direct tile URLs. |
| `BingLayer.Layer.CreateTile` | bingmap.layer.ts:107-120 | With a URL template set, it returns the tile's URL and starts no fetch. Without one, it returns `NeedsFetch` and starts exactly one new fetch. |
| `BingLayer.Layer.FinishFetchedTile` | bingmap.layer.ts:110-119 | Once the fetch settles, the continuation builds the tile's URL if a template is set. Otherwise it fails. |
| `BingLayer.TilesAroundMetadata` | bingmap.layer.ts:107-110 | Two tiles before metadata start two fetches. After an accepted response, the next tile is addressed directly by its quadkey, with no further fetch. |
| `BingLayer.TilesAfterRejectedMetadata` | bingmap.layer.ts:168-172 | A status outside {200, 429} is rejected. Later tiles still start new fetches, and their continuations fail. |

## Left out

- DOM and Leaflet tile lifecycle: creating the `img` element, the load/error handlers, `crossOrigin` and `alt`, `onAdd`, the zoom-20 guard in `_removeTile`, and the `tileunload` registration. These are host plumbing.
- Network and JSON in `_fetch`: building the metadata URL, `fetch`, `response.json()`, the promise chain and its `console.error` catch. The model starts from the parsed response handed to `MetaDataOnLoad`. A fetch is recorded only as the ghost counter `fetchCount`, and the ordering of asynchronous completions is not modelled.
- Attribution handling: `onAddBingLayer` and `onRemoveBingLayer` only loop over `_attributions` (always empty in this file) and call the host's attribution control. `_updateAttribution` is declared but never assigned in this file, so the call at the end of `_metaDataOnLoad` is not modelled.
- BingLayer.Layer.MetaDataOnLoad: `Pass` means the URL template, providers and subdomains were set. As written, the following call to the unassigned `_updateAttribution` throws a `TypeError` after those fields are set, and `_fetch`'s catch logs it; the model does not capture that throw.
- `L.Util.template` and `_getSubdomain` are foreign or inherited. They stay abstract function parameters.
- BingLayer.Layer.GetTileUrl: the template is modelled as a total function, so `GetTileUrl` and `FinishFetchedTile` always produce a URL once a template string is set. A template that throws on a missing value, such as `{culture}` with no culture configured, is not captured; in the source that throw escapes the direct branch of `createTile` and turns the fetched branch into `done(e)`.
- `Layer.FinishFetchedTile` relies on Leaflet's template failing on an unset template string. That behaviour belongs to Leaflet code that is not part of this model.
- The metadata URL constants, the API key and the imagery-set and style enumerations are configuration.
- Numbers: tile coordinates are natural numbers. Negative or fractional values, and JSON values of unexpected types, are not modelled. Coordinate strings in a bounding box are not interpreted as numbers.
