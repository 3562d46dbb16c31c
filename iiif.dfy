/** IIIF Image API vocabulary used by the script: the descriptor URL suffix and the identifier it
    decorates, the five path parameters of an image request, the parsed descriptor, the requests a
    simulated user emits, and the geometry collaborator (the imageBuilder module). */
module Iiif {
  import opened Wrappers
  import opened Strings

  /** Every corpus entry ends with this suffix. */
  const InfoSuffix: string := "/info.json"

  /** identifier: the url with its last ten characters, the length of the suffix, cut off; a url
      shorter than that gives the empty string, as a negative slice end does in Python. */
  function Identifier(url: string): (id: string)
    ensures EndsWith(url, InfoSuffix) ==> id + InfoSuffix == url
    ensures |url| >= |InfoSuffix| ==> |id| == |url| - |InfoSuffix| && id == url[..|id|]
    ensures |url| < |InfoSuffix| ==> id == ""
  {
    if |url| >= |InfoSuffix| then url[..|url| - |InfoSuffix|] else ""
  }

  /** The path parameters of an IIIF image request:
      {identifier}/{region}/{size}/{rotation}/{quality}.{format} */
  datatype ImageRequest = ImageRequest(region: string, size: string, rotation: string, quality: string, format: string)

  /** No parameter holds the '/' delimiter, and quality and format hold no '.'. */
  predicate WellFormed(p: ImageRequest) {
    && '/' !in p.region && '/' !in p.size && '/' !in p.rotation
    && '/' !in p.quality && '/' !in p.format
    && '.' !in p.quality && '.' !in p.format
  }

  /** The part of the request URL that follows the identifier. */
  function Path(p: ImageRequest): string {
    "/" + p.region + "/" + p.size + "/" + p.rotation + "/" + p.quality + "." + p.format
  }

  /** Reads the five parameters back from a path; None for a path of another shape. */
  function ParsePath(s: string): Option<ImageRequest> {
    if |s| == 0 || s[0] != '/' then None
    else
      var parts := Split(s[1..], '/');
      if |parts| != 4 then None
      else
        var last := Split(parts[3], '.');
        if |last| != 2 then None
        else Some(ImageRequest(parts[0], parts[1], parts[2], last[0], last[1]))
  }

  lemma PathAsJoin(p: ImageRequest)
    ensures Path(p) == "/" + Join([p.region, p.size, p.rotation, Join([p.quality, p.format], '.')], '/')
  {
    var q := [p.quality, p.format];
    assert Join(q, '.') == p.quality + "." + p.format by {
      assert q[1..] == [p.format];
    }
    var ps := [p.region, p.size, p.rotation, Join(q, '.')];
    assert ps[1..] == [p.size, p.rotation, Join(q, '.')];
    assert ps[1..][1..] == [p.rotation, Join(q, '.')];
    assert ps[1..][1..][1..] == [Join(q, '.')];
    assert Join(ps[1..][1..], '/') == p.rotation + "/" + Join(q, '.');
    assert Join(ps[1..], '/') == p.size + "/" + (p.rotation + "/" + Join(q, '.'));
    assert Join(ps, '/') == p.region + "/" + (p.size + "/" + (p.rotation + "/" + Join(q, '.')));
  }

  /** Parsing a rendered path gives back its parameters. */
  lemma PathRoundTrip(p: ImageRequest)
    requires WellFormed(p)
    ensures ParsePath(Path(p)) == Some(p)
  {
    PathAsJoin(p);
    var q := [p.quality, p.format];
    var ps := [p.region, p.size, p.rotation, Join(q, '.')];
    SplitJoin(q, '.');
    SplitJoin(ps, '/');
    assert Path(p)[1..] == Join(ps, '/');
  }

  /** A path that parses is exactly the rendering of what it parses to. */
  lemma ParsePathExact(s: string)
    requires ParsePath(s).Some?
    ensures WellFormed(ParsePath(s).value) && Path(ParsePath(s).value) == s
  {
    var p := ParsePath(s).value;
    var parts := Split(s[1..], '/');
    var last := Split(parts[3], '.');
    JoinSplit(s[1..], '/');
    JoinSplit(parts[3], '.');
    assert last[1..] == [last[1]];
    assert Join(last, '.') == p.quality + "." + p.format;
    assert parts == [p.region, p.size, p.rotation, Join(last, '.')];
    PathAsJoin(p);
    assert s == [s[0]] + s[1..];
  }

  /** A preset size listed by the descriptor. */
  datatype Size = Size(width: int, height: int)

  /** One entry of the descriptor's tiles list; only the presence of scaleFactors is consulted. */
  datatype TileInfo = TileInfo(scaleFactors: Option<seq<int>>)

  /** The value under the descriptor's "tiles" key: a JSON list, or any other JSON value. */
  datatype Tiles = TileList(entries: seq<TileInfo>) | NotAList

  /** The parsed info.json: "@id", "width", "height", and the optional "sizes" and "tiles". */
  datatype Descriptor = Descriptor(
    id: Option<string>,
    width: int,
    height: int,
    sizes: Option<seq<Size>>,
    tiles: Option<Tiles>)

  /** The keyword arguments of imageBuilder.constructURL; None stands for a keyword the call leaves out. */
  datatype SizeArgs = SizeArgs(width: Option<int>, height: Option<int>, size: Option<string>, bounded: Option<bool>)

  /** A (region, size) pair produced by the geometry collaborator. */
  type Pair = (string, string)

  /** The imageBuilder module, whose code is not part of this model: any four functions. */
  datatype ImageBuilder = ImageBuilder(
    constructURL: (Descriptor, string, SizeArgs) -> string,
    zoomToPoint: (Descriptor, int, int) -> seq<Pair>,
    levelsWithTiles: Descriptor -> seq<int>,
    tiles: (Descriptor, int) -> seq<seq<Pair>>)

  /** One HTTP GET issued by a simulated user: the URL and the statistics name passed with it. */
  datatype Request = Request(url: string, name: string)

  /** The descriptor fetch that opens every descriptor-dependent task. */
  function InfoRequest(url: string): Request {
    Request(url, "info.json")
  }
}
