/**
 * The Bing tile layer: the state it keeps once imagery metadata has been
 * loaded, how `_metaDataOnLoad` accepts or rejects a metadata response, how
 * `getTileUrl` builds a tile URL, and how `createTile` either builds the URL
 * at once or starts a metadata fetch.
 */
module BingLayer {
  import opened Wrappers
  import QuadKey
  import TileUrl

  /** A tile coordinate as the host map hands it to the layer: column, row, zoom. */
  datatype Coords = Coords(x: nat, y: nat, z: nat)

  /** The values `getTileUrl` substitutes into the imagery URL template. */
  datatype TemplateValues = TemplateValues(quadkey: string, subdomain: string, culture: Option<string>)

  /** A coverage area of an imagery provider, as the metadata lists it. */
  datatype CoverageArea = CoverageArea(bbox: seq<string>, zoomMin: int, zoomMax: int)

  /** An imagery provider of the metadata: its attribution text and where it applies. */
  datatype Provider = Provider(attribution: string, coverageAreas: seq<CoverageArea>)

  /** The imagery resource the layer reads its URL template and subdomains from. */
  datatype Resource = Resource(
    imageUrl: string,
    imageUrlSubdomains: seq<string>,
    imageryProviders: Option<seq<Provider>>)

  datatype ResourceSet = ResourceSet(resources: seq<Resource>)

  /** The parsed metadata response handed to `_metaDataOnLoad`. */
  datatype MetaData = MetaData(statusCode: int, resourceSets: seq<ResourceSet>)

  /** Why `_metaDataOnLoad` throws: a rejected status code, or no first resource to read. */
  datatype MetaDataError = StatusRejected(statusCode: int) | NoResource

  /** What `createTile` does with the tile image: set its source now, or fetch metadata first. */
  datatype TileRequest = Direct(src: string) | NeedsFetch

  /** Why the continuation of a fetch cannot build a URL: the layer still has no URL template. */
  datatype TileError = NoImageUrl

  /** The status codes whose metadata is used: 200, and 429 (throttled, still usable). */
  predicate StatusAccepted(statusCode: int)
  {
    statusCode == 200 || statusCode == 429
  }

  /** `resourceSets[0].resources[0]`, or None when either list is empty. */
  function FirstResource(m: MetaData): (r: Option<Resource>)
    ensures r.Some? <==> |m.resourceSets| > 0 && |m.resourceSets[0].resources| > 0
    ensures r.Some? ==> r.value == m.resourceSets[0].resources[0]
  {
    if |m.resourceSets| > 0 && |m.resourceSets[0].resources| > 0
    then Some(m.resourceSets[0].resources[0])
    else None
  }

  /**
   * The layer. `template` stands for Leaflet's `L.Util.template` and
   * `getSubdomain` for the inherited `_getSubdomain`, which reads only the
   * tile coordinate and the subdomain list; both are foreign, so they are
   * supplied when the layer is built. `fetchCount` counts the metadata
   * fetches the layer has started.
   */
  class Layer {
    const template: (string, TemplateValues) -> string
    const getSubdomain: (Coords, seq<string>) -> string
    const culture: Option<string>
    const style: Option<string>

    var url: Option<string>
    var imageryProviders: seq<Provider>
    var subdomains: seq<string>
    ghost var fetchCount: nat

    /** A new layer: no URL template yet, no providers, the host's default subdomains. */
    constructor (
      template: (string, TemplateValues) -> string,
      getSubdomain: (Coords, seq<string>) -> string,
      culture: Option<string>,
      style: Option<string>,
      defaultSubdomains: seq<string>)
      ensures this.template == template && this.getSubdomain == getSubdomain
      ensures this.culture == culture && this.style == style
      ensures url == None && imageryProviders == [] && subdomains == defaultSubdomains
      ensures fetchCount == 0
    {
      this.template := template;
      this.getSubdomain := getSubdomain;
      this.culture := culture;
      this.style := style;
      url := None;
      imageryProviders := [];
      subdomains := defaultSubdomains;
      fetchCount := 0;
    }

    /** JavaScript's `if (this._url)`: a URL is set and is not the empty string. */
    predicate HasUrl()
      reads this
    {
      url.Some? && url.value != ""
    }

    /**
     * The URL of tile `c`: the URL template filled with the tile's quadkey,
     * its subdomain and the culture, followed by the style suffix.
     */
    function TileUrlFor(c: Coords): string
      reads this
      requires url.Some?
    {
      template(url.value, TemplateValues(QuadKey.Interleaved(c.x, c.y, c.z), getSubdomain(c, subdomains), culture))
        + TileUrl.StyleSuffix(style)
    }

    /** `getTileUrl(coords)`. Leaflet's template cannot fill an unset template string. */
    method GetTileUrl(c: Coords) returns (tileUrl: string)
      requires url.Some?
      ensures tileUrl == TileUrlFor(c)
      ensures var filled := template(url.value, TemplateValues(QuadKey.Interleaved(c.x, c.y, c.z), getSubdomain(c, subdomains), culture));
        && (style.None? ==> tileUrl == filled)
        && (style.Some? ==> TileUrl.StyleMarks(tileUrl) == TileUrl.StyleMarks(filled) + 1 + TileUrl.StyleMarks(style.value))
      ensures c.z <= 32 ==>
        tileUrl == template(url.value, TemplateValues(QuadKey.QuadKeyOf(c.x, c.y, c.z), getSubdomain(c, subdomains), culture))
                   + TileUrl.StyleSuffix(style)
    {
      var quadkey := QuadKey.ToQuadKey(c.x, c.y, c.z);
      tileUrl := template(url.value, TemplateValues(quadkey, getSubdomain(c, subdomains), culture));
      TileUrl.StyleSuffixAddsOneParam(tileUrl, style);
      if style.Some? {
        tileUrl := tileUrl + TileUrl.StyleParam + style.value;
      }
    }

    /**
     * `_metaDataOnLoad(metaData)`: a status code other than 200 or 429, or a
     * response without a first resource, throws and changes nothing;
     * otherwise the URL template, the providers (none when absent) and the
     * subdomains come from the first resource of the first resource set.
     * `Pass` means these three fields were set; the `_updateAttribution` call
     * that follows them is not modelled (it is never defined in the source
     * file, so as written it throws after the fields are set).
     */
    method MetaDataOnLoad(m: MetaData) returns (r: Outcome<MetaDataError>)
      modifies this`url, this`imageryProviders, this`subdomains
      ensures r.Fail? <==> !StatusAccepted(m.statusCode) || FirstResource(m).None?
      ensures !StatusAccepted(m.statusCode) ==> r == Fail(StatusRejected(m.statusCode))
      ensures r.Fail? ==>
        url == old(url) && imageryProviders == old(imageryProviders) && subdomains == old(subdomains)
      ensures r.Pass? ==>
        var resource := FirstResource(m).value;
        url == Some(resource.imageUrl) &&
        imageryProviders == resource.imageryProviders.GetOr([]) &&
        subdomains == resource.imageUrlSubdomains
      ensures r.Pass? && FirstResource(m).value.imageUrl != "" ==> HasUrl()
    {
      if m.statusCode != 200 && m.statusCode != 429 {
        return Fail(StatusRejected(m.statusCode));
      }
      if |m.resourceSets| == 0 || |m.resourceSets[0].resources| == 0 {
        return Fail(NoResource);
      }
      var resource := m.resourceSets[0].resources[0];
      url := Some(resource.imageUrl);
      imageryProviders := if resource.imageryProviders.Some? then resource.imageryProviders.value else [];
      subdomains := resource.imageUrlSubdomains;
      return Pass;
    }

    /**
     * The `_url` branch of `createTile(coords)`: with a URL template the
     * tile's URL is built at once; without one the call starts a metadata
     * fetch of its own, however many fetches are already under way.
     */
    method CreateTile(c: Coords) returns (req: TileRequest)
      modifies this`fetchCount
      ensures HasUrl() ==> req == Direct(TileUrlFor(c)) && fetchCount == old(fetchCount)
      ensures !HasUrl() ==> req == NeedsFetch && fetchCount == old(fetchCount) + 1
    {
      if HasUrl() {
        var src := GetTileUrl(c);
        req := Direct(src);
      } else {
        fetchCount := fetchCount + 1;
        req := NeedsFetch;
      }
    }

    /**
     * The continuation `createTile` chains to its fetch. The fetch swallows
     * its own errors, so this runs whether or not the metadata was accepted:
     * it builds the URL when some response has set the template, and fails
     * (the error goes to the tile's `done`) when none has.
     */
    method FinishFetchedTile(c: Coords) returns (r: Result<string, TileError>)
      ensures url.Some? ==> r == Ok(TileUrlFor(c))
      ensures url.None? ==> r == Err(NoImageUrl)
    {
      if url.None? {
        return Err(NoImageUrl);
      }
      var src := GetTileUrl(c);
      return Ok(src);
    }
  }

  /**
   * A session: two tiles requested before any metadata each start a fetch;
   * once an accepted response with a non-empty URL template has been loaded,
   * the next tile is addressed directly by its quadkey, with no new fetch.
   */
  method TilesAroundMetadata(
    template: (string, TemplateValues) -> string,
    getSubdomain: (Coords, seq<string>) -> string,
    culture: Option<string>,
    style: Option<string>,
    defaultSubdomains: seq<string>,
    m: MetaData,
    c1: Coords, c2: Coords, c3: Coords)
    returns (first: TileRequest, second: TileRequest, loaded: Outcome<MetaDataError>, third: TileRequest, ghost fetches: nat)
    requires StatusAccepted(m.statusCode) && FirstResource(m).Some?
    requires FirstResource(m).value.imageUrl != "" && c3.z <= 32
    ensures first == NeedsFetch && second == NeedsFetch && loaded == Pass
    ensures var resource := FirstResource(m).value;
      third == Direct(
        template(resource.imageUrl,
                 TemplateValues(QuadKey.QuadKeyOf(c3.x, c3.y, c3.z), getSubdomain(c3, resource.imageUrlSubdomains), culture))
        + TileUrl.StyleSuffix(style))
    ensures fetches == 2
  {
    var layer := new Layer(template, getSubdomain, culture, style, defaultSubdomains);
    first := layer.CreateTile(c1);
    second := layer.CreateTile(c2);
    loaded := layer.MetaDataOnLoad(m);
    third := layer.CreateTile(c3);
    QuadKey.InterleavedIsQuadKeyOf(c3.x, c3.y, c3.z);
    fetches := layer.fetchCount;
  }

  /**
   * A rejected response leaves the layer without a URL template: every
   * later tile starts another fetch, and the continuation of each fetch
   * fails instead of building a URL.
   */
  method TilesAfterRejectedMetadata(
    template: (string, TemplateValues) -> string,
    getSubdomain: (Coords, seq<string>) -> string,
    culture: Option<string>,
    style: Option<string>,
    defaultSubdomains: seq<string>,
    m: MetaData,
    c1: Coords, c2: Coords)
    returns (first: TileRequest, loaded: Outcome<MetaDataError>, second: TileRequest,
             finished: Result<string, TileError>, ghost fetches: nat)
    requires !StatusAccepted(m.statusCode)
    ensures first == NeedsFetch && second == NeedsFetch
    ensures loaded == Fail(StatusRejected(m.statusCode))
    ensures finished == Err(NoImageUrl)
    ensures fetches == 2
  {
    var layer := new Layer(template, getSubdomain, culture, style, defaultSubdomains);
    first := layer.CreateTile(c1);
    loaded := layer.MetaDataOnLoad(m);
    second := layer.CreateTile(c2);
    finished := layer.FinishFetchedTile(c1);
    fetches := layer.fetchCount;
  }
}
