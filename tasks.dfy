/** The task functions of the simulated user. HTTP GETs become the requests a task issues, in order;
    every random draw is a seed supplied by the caller; the parsed response to the descriptor fetch is
    supplied too (None when response.json() raises). */
module Tasks {
  import opened Wrappers
  import opened Strings
  import opened Randomness
  import opened Iiif
  import TaskList

  /** One task invocation: the requests issued, in order, and the exception that ended it, if any. */
  datatype Run = Run(requests: seq<Request>, raised: Option<Exception>)

  /** A corpus entry drawn by index; an empty corpus raises ValueError. */
  function RandomImage(images: seq<string>, seed: nat): (r: Result<string>)
    ensures r.Ok? <==> |images| > 0
    ensures r.Ok? ==> r.value in images
    ensures r.Err? ==> r.error == ValueError
  {
    match RandInt(0, |images| - 1, seed)
    case Ok(k) => Ok(images[k])
    case Err(e) => Err(e)
  }

  /** Every corpus entry can be the one drawn. */
  lemma RandomImageReaches(images: seq<string>, k: nat)
    requires k < |images|
    ensures RandomImage(images, k) == Ok(images[k])
  {
    RandIntReaches(0, |images| - 1, k);
  }

  // ---------------------------------------------------------------------------
  // Template-only tasks: a random identifier followed by a literal IIIF path.

  datatype Template = MiradorThumbnail | UVThumbnail | HalfScale | GrayScale | BitonalQuality | MirroringFull {

    /** The literal appended to the identifier. */
    function Suffix(): string {
      match this
      case MiradorThumbnail => "/full/,120/0/default.jpg"
      case UVThumbnail => "/full/90,/0/default.jpg"
      case HalfScale => "/full/pct:50/0/default.jpg"
      case GrayScale => "/full/full/0/gray.jpg"
      case BitonalQuality => "/full/full/0/bitonal.jpg"
      case MirroringFull => "/full/full/!0/default.jpg"
    }

    /** The name the request is reported under. */
    function Name(): string {
      match this
      case MiradorThumbnail => "Mirador thumbnail"
      case UVThumbnail => "UV thumbnail"
      case HalfScale => "Full image request at half scale"
      case GrayScale => "Full image gray scale"
      case BitonalQuality => "Full image but bitonal scale"
      case MirroringFull => "Full image but mirrored"
    }

    /** The IIIF parameters the template stands for: the full region, and one size,
        rotation or quality varied per template. */
    function Params(): ImageRequest {
      match this
      case MiradorThumbnail => ImageRequest("full", ",120", "0", "default", "jpg")
      case UVThumbnail => ImageRequest("full", "90,", "0", "default", "jpg")
      case HalfScale => ImageRequest("full", "pct:50", "0", "default", "jpg")
      case GrayScale => ImageRequest("full", "full", "0", "gray", "jpg")
      case BitonalQuality => ImageRequest("full", "full", "0", "bitonal", "jpg")
      case MirroringFull => ImageRequest("full", "full", "!0", "default", "jpg")
    }
  }

  /** Each literal is a well-formed IIIF path that parses to exactly the template's parameters. */
  lemma TemplateParameters(t: Template)
    ensures WellFormed(t.Params()) && t.Suffix() == Path(t.Params())
    ensures ParsePath(t.Suffix()) == Some(t.Params())
  {
    TemplateShape(t);
    PathRoundTrip(t.Params());
  }

  lemma TemplateShape(t: Template)
    ensures WellFormed(t.Params()) && t.Suffix() == Path(t.Params())
  {
    match t
    case MiradorThumbnail => MiradorThumbnailShape();
    case UVThumbnail => UVThumbnailShape();
    case HalfScale => HalfScaleShape();
    case GrayScale => GrayScaleShape();
    case BitonalQuality => BitonalQualityShape();
    case MirroringFull => MirroringFullShape();
  }

  // One lemma per literal: comparing a literal string character by character is costly for the solver.
  lemma MiradorThumbnailShape()
    ensures WellFormed(MiradorThumbnail.Params()) && MiradorThumbnail.Suffix() == Path(MiradorThumbnail.Params())
  {
  }

  lemma UVThumbnailShape()
    ensures WellFormed(UVThumbnail.Params()) && UVThumbnail.Suffix() == Path(UVThumbnail.Params())
  {
  }

  lemma HalfScaleShape()
    ensures WellFormed(HalfScale.Params()) && HalfScale.Suffix() == Path(HalfScale.Params())
  {
  }

  lemma GrayScaleShape()
    ensures WellFormed(GrayScale.Params()) && GrayScale.Suffix() == Path(GrayScale.Params())
  {
  }

  lemma BitonalQualityShape()
    ensures WellFormed(BitonalQuality.Params()) && BitonalQuality.Suffix() == Path(BitonalQuality.Params())
  {
  }

  lemma MirroringFullShape()
    ensures WellFormed(MirroringFull.Params()) && MirroringFull.Suffix() == Path(MirroringFull.Params())
  {
  }

  /** The URL of a template task for a corpus entry gives back the entry and the template's parameters:
      cutting the path off and appending /info.json restores the entry. */
  lemma TemplateUrlOfEntry(t: Template, u: string)
    requires EndsWith(u, InfoSuffix)
    ensures var url := Identifier(u) + t.Suffix();
      && url[..|url| - |t.Suffix()|] + InfoSuffix == u
      && ParsePath(url[|url| - |t.Suffix()|..]) == Some(t.Params())
  {
    var url := Identifier(u) + t.Suffix();
    assert url[..|url| - |t.Suffix()|] == Identifier(u);
    assert url[|url| - |t.Suffix()|..] == t.Suffix();
    TemplateParameters(t);
  }

  /** getMiradorThumbnail, getUVThumbnail, halfScale, grayScale, bitonalQuality, mirroringFull. */
  function TemplateTask(t: Template, images: seq<string>, seed: nat): (run: Run)
    ensures |images| == 0 ==> run == Run([], Some(ValueError))
    ensures |images| > 0 ==> run.raised == None && |run.requests| == 1 && run.requests[0].name == t.Name()
    ensures |images| > 0 ==> exists k :: 0 <= k < |images| && run.requests[0].url == Identifier(images[k]) + t.Suffix()
  {
    match RandomImage(images, seed)
    case Err(e) => Run([], Some(e))
    case Ok(u) => Run([Request(Identifier(u) + t.Suffix(), t.Name())], None)
  }

  // ---------------------------------------------------------------------------
  // Descriptor-dependent tasks.

  /** The start of every descriptor-dependent task, which fetches the descriptor of a random corpus
      entry and decodes it: the requests issued so far and the descriptor, or the exception raised. */
  datatype Opened = Opened(requests: seq<Request>, info: Result<Descriptor>)

  function OpenDescriptor(images: seq<string>, pick: nat, fetched: Option<Descriptor>): (o: Opened)
    ensures |images| == 0 ==> o == Opened([], Err(ValueError))
    ensures |images| > 0 ==> exists k :: 0 <= k < |images| && o.requests == [InfoRequest(images[k])]
    ensures |images| > 0 && fetched.Some? ==> o.info == Ok(fetched.value)
    ensures |images| > 0 && fetched.None? ==> o.info == Err(DecodeError)
  {
    match RandomImage(images, pick)
    case Err(e) => Opened([], Err(e))
    case Ok(url) =>
      Opened([InfoRequest(url)], match fetched case Some(d) => Ok(d) case None => Err(DecodeError))
  }

  /** The request for a (region, size) pair: the collaborator's URL for that region at that size. */
  function PairRequest(b: ImageBuilder, d: Descriptor, p: Pair, name: string): Request {
    Request(b.constructURL(d, p.0, SizeArgs(None, None, Some(p.1), None)), name)
  }

  /** One request per pair, in the order of the pairs. */
  function PairRequests(b: ImageBuilder, d: Descriptor, ps: seq<Pair>, name: string): (rs: seq<Request>)
    ensures |rs| == |ps|
  {
    if ps == [] then [] else PairRequests(b, d, ps[..|ps| - 1], name) + [PairRequest(b, d, ps[|ps| - 1], name)]
  }

  /** Request i is the one for pair i. */
  lemma {:induction false} PairRequestsAt(b: ImageBuilder, d: Descriptor, ps: seq<Pair>, name: string, i: nat)
    requires i < |ps|
    ensures PairRequests(b, d, ps, name)[i] == PairRequest(b, d, ps[i], name)
  {
    if i < |ps| - 1 {
      PairRequestsAt(b, d, ps[..|ps| - 1], name, i);
    }
  }

  /** The request loop shared by zoomToPoint and virtualReading: one request per (region, size) pair,
      in order, after the requests already made. */
  method RequestPairs(b: ImageBuilder, d: Descriptor, pairs: seq<Pair>, name: string, before: seq<Request>)
    returns (reqs: seq<Request>)
    ensures reqs == before + PairRequests(b, d, pairs, name)
  {
    reqs := before;
    var i := 0;
    while i < |pairs|
      invariant 0 <= i <= |pairs|
      invariant reqs == before + PairRequests(b, d, pairs[..i], name)
    {
      var (region, size) := pairs[i];
      reqs := reqs + [Request(b.constructURL(d, region, SizeArgs(None, None, Some(size), None)), name)];
      assert pairs[..i + 1][..i] == pairs[..i];
      i := i + 1;
    }
    assert pairs[..i] == pairs;
  }

  // getThumbnailPanel -----------------------------------------------------------

  /** The box the thumbnail panel wants to fill. */
  const ThumbnailTarget: int := 125

  predicate Covers(s: Size) {
    s.width >= ThumbnailTarget && s.height >= ThumbnailTarget
  }

  /** Position i holds the first listed size covering the target box. */
  predicate FirstCoveringAt(sizes: seq<Size>, i: int) {
    0 <= i < |sizes| && Covers(sizes[i]) && forall j :: 0 <= j < i ==> !Covers(sizes[j])
  }

  /** The position of the first listed size covering the target box in both dimensions. */
  function FirstCovering(sizes: seq<Size>): (r: Option<nat>)
    ensures r.Some? ==> r.value < |sizes| && Covers(sizes[r.value])
    ensures r.Some? ==> forall j :: 0 <= j < r.value ==> !Covers(sizes[j])
    ensures r.None? ==> forall j :: 0 <= j < |sizes| ==> !Covers(sizes[j])
  {
    if sizes == [] then None
    else if Covers(sizes[0]) then Some(0)
    else match FirstCovering(sizes[1..]) case None => None case Some(i) => Some(i + 1)
  }

  /** getThumbnailPanel's scan of the listed sizes: the first covering size, or the 125x125 default. */
  method ScanSizes(sizes: seq<Size>) returns (width: int, height: int, found: bool)
    ensures found == FirstCovering(sizes).Some?
    ensures found ==> Size(width, height) == sizes[FirstCovering(sizes).value]
    ensures !found ==> width == ThumbnailTarget && height == ThumbnailTarget
  {
    width, height, found := ThumbnailTarget, ThumbnailTarget, false;
    var i := 0;
    while i < |sizes|
      invariant 0 <= i <= |sizes|
      invariant forall j :: 0 <= j < i ==> !Covers(sizes[j])
      invariant !found && width == ThumbnailTarget && height == ThumbnailTarget
    {
      if sizes[i].width >= ThumbnailTarget && sizes[i].height >= ThumbnailTarget {
        width, height, found := sizes[i].width, sizes[i].height, true;
        break;
      }
      i := i + 1;
    }
  }

  /** The size arguments of the panel request: the first listed size covering the box, with the
      bounded keyword left out; otherwise, or without a sizes list, 125x125 with bounded=True. */
  function ThumbnailSize(sizes: Option<seq<Size>>): (a: SizeArgs)
    ensures a.size.None? && a.width.Some? && a.height.Some?
    ensures a.bounded == Some(true) <==> sizes.None? || forall s :: s in sizes.value ==> !Covers(s)
    ensures a.bounded != Some(true) ==> a.bounded.None?
    ensures a.bounded == Some(true) ==> a.width == Some(ThumbnailTarget) && a.height == Some(ThumbnailTarget)
    ensures a.bounded.None? ==>
              exists i :: FirstCoveringAt(sizes.value, i) && sizes.value[i] == Size(a.width.value, a.height.value)
  {
    match sizes
    case None => SizeArgs(Some(ThumbnailTarget), Some(ThumbnailTarget), None, Some(true))
    case Some(ss) =>
      match FirstCovering(ss)
      case Some(i) => SizeArgs(Some(ss[i].width), Some(ss[i].height), None, None)
      case None => SizeArgs(Some(ThumbnailTarget), Some(ThumbnailTarget), None, Some(true))
  }

  /** Presets 100x100 then 200x200 give an unbounded 200x200; a lone 50x50 preset gives a bounded fit. */
  lemma ThumbnailSizeExamples()
    ensures ThumbnailSize(Some([Size(100, 100), Size(200, 200)])) == SizeArgs(Some(200), Some(200), None, None)
    ensures ThumbnailSize(Some([Size(50, 50)])) == SizeArgs(Some(125), Some(125), None, Some(true))
    ensures ThumbnailSize(None).bounded == Some(true)
  {
    var two := [Size(100, 100), Size(200, 200)];
    assert !Covers(two[0]) && Covers(two[1]);
    assert FirstCovering(two) == Some(1);
  }

  /** getThumbnailPanel: the descriptor fetch, then exactly one thumbnail request. */
  method ThumbnailPanel(b: ImageBuilder, images: seq<string>, pick: nat, fetched: Option<Descriptor>)
    returns (run: Run)
    ensures var o := OpenDescriptor(images, pick, fetched);
      && (o.info.Err? ==> run == Run(o.requests, Some(o.info.error)))
      && (o.info.Ok? ==> run == Run(o.requests + [Request(b.constructURL(o.info.value, "full",
                                      ThumbnailSize(o.info.value.sizes)), "Thumbnail panel thumbnail")], None))
  {
    var o := OpenDescriptor(images, pick, fetched);
    if o.info.Err? {
      return Run(o.requests, Some(o.info.error));
    }
    var info := o.info.value;
    var args;
    if info.sizes.Some? {
      var width, height, found := ScanSizes(info.sizes.value);
      if found {
        args := SizeArgs(Some(width), Some(height), None, None);
      } else {
        args := SizeArgs(Some(width), Some(height), None, Some(true));
      }
    } else {
      args := SizeArgs(Some(ThumbnailTarget), Some(ThumbnailTarget), None, Some(true));
    }
    var url := b.constructURL(info, "full", args);
    run := Run(o.requests + [Request(url, "Thumbnail panel thumbnail")], None);
  }

  // zoomToPoint -----------------------------------------------------------------

  /** zoomToPoint's point: a column drawn from the image's width, then a row drawn from its height. */
  function ZoomPoint(d: Descriptor, xSeed: nat, ySeed: nat): (r: Result<(int, int)>)
    ensures r.Ok? <==> d.width >= 1 && d.height >= 1
    ensures r.Ok? ==> 0 <= r.value.0 < d.width && 0 <= r.value.1 < d.height
    ensures r.Err? ==> r.error == ValueError
  {
    match RandInt(0, d.width - 1, xSeed)
    case Err(e) => Err(e)
    case Ok(x) =>
      match RandInt(0, d.height - 1, ySeed)
      case Err(e) => Err(e)
      case Ok(y) => Ok((x, y))
  }

  /** Every pixel of the image can be the point. */
  lemma ZoomPointReaches(d: Descriptor, x: int, y: int)
    requires 0 <= x < d.width && 0 <= y < d.height
    ensures ZoomPoint(d, x as nat, y as nat) == Ok((x, y))
  {
    RandIntReaches(0, d.width - 1, x);
    RandIntReaches(0, d.height - 1, y);
  }

  /** zoomToPoint: the descriptor fetch, then one request per pair the collaborator returns, in order. */
  method ZoomToPoint(b: ImageBuilder, images: seq<string>, pick: nat, fetched: Option<Descriptor>, xSeed: nat, ySeed: nat)
    returns (run: Run)
    ensures var o := OpenDescriptor(images, pick, fetched);
      && (o.info.Err? ==> run == Run(o.requests, Some(o.info.error)))
      && (o.info.Ok? && ZoomPoint(o.info.value, xSeed, ySeed).Err? ==> run == Run(o.requests, Some(ValueError)))
      && (o.info.Ok? && ZoomPoint(o.info.value, xSeed, ySeed).Ok? ==>
            var p := ZoomPoint(o.info.value, xSeed, ySeed).value;
            run == Run(o.requests + PairRequests(b, o.info.value, b.zoomToPoint(o.info.value, p.0, p.1), "Zoom to point"), None))
  {
    var o := OpenDescriptor(images, pick, fetched);
    if o.info.Err? {
      return Run(o.requests, Some(o.info.error));
    }
    var info := o.info.value;
    var point := ZoomPoint(info, xSeed, ySeed);
    if point.Err? {
      return Run(o.requests, Some(point.error));
    }
    var pairs := b.zoomToPoint(info, point.value.0, point.value.1);
    var reqs := RequestPairs(b, info, pairs, "Zoom to point", o.requests);
    run := Run(reqs, None);
  }

  // virtualReading --------------------------------------------------------------

  /** The 90-pixel-wide preview that virtualReading always requests first. */
  function Preview(b: ImageBuilder, d: Descriptor): Request {
    Request(b.constructURL(d, "full", SizeArgs(Some(90), None, None, None)), "Virtual Reading")
  }

  /** The descriptor advertises tiles: "tiles" is a list whose first entry has "scaleFactors". */
  predicate AdvertisesTiles(d: Descriptor) {
    d.tiles.Some? && d.tiles.value.TileList? && |d.tiles.value.entries| > 0
    && d.tiles.value.entries[0].scaleFactors.Some?
  }

  /** virtualReading's choice of grid: the tile grid of a randomly drawn level, None when no tiles
      are advertised, or the exception: IndexError for an empty tiles list, ValueError when no level
      has tiles. */
  function TileGrid(b: ImageBuilder, d: Descriptor, seed: nat): (r: Result<Option<seq<seq<Pair>>>>)
    ensures r.Ok? && r.value.Some? <==> AdvertisesTiles(d) && |b.levelsWithTiles(d)| > 0
    ensures r.Ok? && r.value.Some? ==>
      exists k :: 0 <= k < |b.levelsWithTiles(d)| && r.value.value == b.tiles(d, b.levelsWithTiles(d)[k])
    ensures r.Err? && r.error == IndexError <==> d.tiles == Some(TileList([]))
    ensures r.Err? ==> r.error == IndexError || r.error == ValueError
    ensures r == Ok(None) <==> !AdvertisesTiles(d) && d.tiles != Some(TileList([]))
    ensures r == Err(ValueError) <==> AdvertisesTiles(d) && |b.levelsWithTiles(d)| == 0
  {
    if d.tiles.None? || d.tiles.value.NotAList? then Ok(None)
    else if |d.tiles.value.entries| == 0 then Err(IndexError)
    else if d.tiles.value.entries[0].scaleFactors.None? then Ok(None)
    else
      var levels := b.levelsWithTiles(d);
      match RandInt(0, |levels| - 1, seed)
      case Err(e) => Err(e)
      case Ok(k) => Ok(Some(b.tiles(d, levels[k])))
  }

  /** Every level that has tiles can be the one drawn. */
  lemma TileGridReaches(b: ImageBuilder, d: Descriptor, k: nat)
    requires AdvertisesTiles(d) && k < |b.levelsWithTiles(d)|
    ensures TileGrid(b, d, k) == Ok(Some(b.tiles(d, b.levelsWithTiles(d)[k])))
  {
    RandIntReaches(0, |b.levelsWithTiles(d)| - 1, k);
  }

  /** The cells of a grid, row after row. */
  function Flatten<T>(g: seq<seq<T>>): seq<T> {
    if g == [] then [] else Flatten(g[..|g| - 1]) + g[|g| - 1]
  }

  /** PairRequests distributes over concatenation. */
  lemma {:induction false} PairRequestsAppend(b: ImageBuilder, d: Descriptor, ps: seq<Pair>, qs: seq<Pair>, name: string)
    ensures PairRequests(b, d, ps + qs, name) == PairRequests(b, d, ps, name) + PairRequests(b, d, qs, name)
    decreases |qs|
  {
    if qs == [] {
      assert ps + qs == ps;
    } else {
      var init := qs[..|qs| - 1];
      assert (ps + qs)[..|ps + qs| - 1] == ps + init;
      assert (ps + qs)[|ps + qs| - 1] == qs[|qs| - 1];
      PairRequestsAppend(b, d, ps, init, name);
    }
  }

  lemma FlattenStep<T>(g: seq<seq<T>>, x: nat)
    requires x < |g|
    ensures Flatten(g[..x + 1]) == Flatten(g[..x]) + g[x]
  {
    assert g[..x + 1][..x] == g[..x];
  }

  /** virtualReading's nested loops over the rows and the cells of a row. */
  method RequestTiles(b: ImageBuilder, d: Descriptor, grid: seq<seq<Pair>>, before: seq<Request>)
    returns (reqs: seq<Request>)
    ensures reqs == before + PairRequests(b, d, Flatten(grid), "Virtual Reading")
  {
    reqs := before;
    var x := 0;
    while x < |grid|
      invariant 0 <= x <= |grid|
      invariant reqs == before + PairRequests(b, d, Flatten(grid[..x]), "Virtual Reading")
    {
      reqs := RequestPairs(b, d, grid[x], "Virtual Reading", reqs);
      FlattenStep(grid, x);
      PairRequestsAppend(b, d, Flatten(grid[..x]), grid[x], "Virtual Reading");
      x := x + 1;
    }
    assert grid[..x] == grid;
  }

  /** virtualReading: the descriptor fetch, the preview, then one request per tile cell in row-major order. */
  method VirtualReading(b: ImageBuilder, images: seq<string>, pick: nat, fetched: Option<Descriptor>, levelSeed: nat)
    returns (run: Run)
    ensures var o := OpenDescriptor(images, pick, fetched);
      && (o.info.Err? ==> run == Run(o.requests, Some(o.info.error)))
      && (o.info.Ok? ==>
            var d := o.info.value;
            var t := TileGrid(b, d, levelSeed);
            && (t.Err? ==> run == Run(o.requests + [Preview(b, d)], Some(t.error)))
            && (t == Ok(None) ==> run == Run(o.requests + [Preview(b, d)], None))
            && (t.Ok? && t.value.Some? ==>
                  run == Run(o.requests + [Preview(b, d)] + PairRequests(b, d, Flatten(t.value.value), "Virtual Reading"), None)))
  {
    var o := OpenDescriptor(images, pick, fetched);
    if o.info.Err? {
      return Run(o.requests, Some(o.info.error));
    }
    var info := o.info.value;
    var reqs := o.requests + [Preview(b, info)];
    var plan := TileGrid(b, info, levelSeed);
    if plan.Err? {
      return Run(reqs, Some(plan.error));
    }
    if plan.value.None? {
      return Run(reqs, None);
    }
    reqs := RequestTiles(b, info, plan.value.value, reqs);
    run := Run(reqs, None);
  }

  /** The number of cells of a grid: the sum of its row lengths. */
  function CellCount<T>(g: seq<seq<T>>): nat {
    if g == [] then 0 else |g[0]| + CellCount(g[1..])
  }

  lemma {:induction false} CellCountLast<T>(g: seq<seq<T>>)
    requires g != []
    ensures CellCount(g) == CellCount(g[..|g| - 1]) + |g[|g| - 1]|
  {
    if |g| > 1 {
      CellCountLast(g[1..]);
      assert g[1..][..|g[1..]| - 1] == g[..|g| - 1][1..];
    }
  }

  /** The flattened grid has as many cells as the rows together. */
  lemma {:induction false} FlattenLength<T>(g: seq<seq<T>>)
    ensures |Flatten(g)| == CellCount(g)
  {
    if g != [] {
      FlattenLength(g[..|g| - 1]);
      CellCountLast(g);
    }
  }

  /** Where row x starts among the flattened cells. */
  function RowStart<T>(g: seq<seq<T>>, x: nat): nat
    requires x <= |g|
  {
    |Flatten(g[..x])|
  }

  /** Cell (x, y) sits at position RowStart(g, x) + y: row-major order. */
  lemma {:induction false} FlattenCell<T>(g: seq<seq<T>>, x: nat, y: nat)
    requires x < |g| && y < |g[x]|
    ensures RowStart(g, x) + y < |Flatten(g)| && Flatten(g)[RowStart(g, x) + y] == g[x][y]
  {
    var init := g[..|g| - 1];
    if x < |g| - 1 {
      FlattenCell(init, x, y);
      assert init[..x] == g[..x];
    } else {
      assert init == g[..x];
    }
  }

  /** Each row starts where the one before it ends. */
  lemma {:induction false} RowStartsAdvance<T>(g: seq<seq<T>>, x: nat, z: nat)
    requires x < z <= |g|
    ensures RowStart(g, x) + |g[x]| <= RowStart(g, z)
    decreases z - x
  {
    FlattenStep(g, x);
    if x + 1 < z {
      RowStartsAdvance(g, x + 1, z);
    }
  }

  /** Distinct cells sit at distinct positions, so no tile is requested twice. */
  lemma FlattenCellsDistinct<T>(g: seq<seq<T>>, x: nat, y: nat, x': nat, y': nat)
    requires x < |g| && y < |g[x]| && x' < |g| && y' < |g[x']|
    requires (x, y) != (x', y')
    ensures RowStart(g, x) + y != RowStart(g, x') + y'
  {
    if x < x' {
      RowStartsAdvance(g, x, x');
    } else if x' < x {
      RowStartsAdvance(g, x', x);
    }
  }

  /** Every position of the flattened grid falls inside some row, so no tile is left out. */
  lemma {:induction false} FlattenCovers<T>(g: seq<seq<T>>, k: nat)
    requires k < |Flatten(g)|
    ensures exists x: nat :: x < |g| && RowStart(g, x) <= k < RowStart(g, x) + |g[x]|
  {
    var last := |g| - 1;
    var init := g[..last];
    assert Flatten(g) == Flatten(init) + g[last];
    if k < |Flatten(init)| {
      FlattenCovers(init, k);
      var x: nat :| x < |init| && RowStart(init, x) <= k < RowStart(init, x) + |init[x]|;
      assert init[..x] == g[..x];
      assert RowStart(init, x) == RowStart(g, x);
    } else {
      assert RowStart(g, last) == |Flatten(init)|;
    }
  }

  // customRegion ----------------------------------------------------------------

  /** A pixel region: top-left corner, width and height. */
  datatype Region = Region(x: int, y: int, width: int, height: int)

  predicate InImage(g: Region, d: Descriptor) {
    0 <= g.x && g.x + g.width <= d.width && 0 <= g.y && g.y + g.height <= d.height
  }

  /** The extents customRegion draws from. */
  predicate DrawnExtent(g: Region) {
    200 <= g.width <= 400 && 200 <= g.height <= 400
  }

  /** customRegion's draws: width and height from [200, 400], then a corner that keeps the region inside the
      image; an image narrower or lower than the drawn extent makes randint raise ValueError. */
  function DrawRegion(d: Descriptor, wSeed: nat, hSeed: nat, xSeed: nat, ySeed: nat): (r: Result<Region>)
    ensures r.Ok? ==> InImage(r.value, d) && DrawnExtent(r.value)
    ensures r.Err? ==> r.error == ValueError
    ensures r.Ok? <==> RandInt(200, 400, wSeed).value <= d.width && RandInt(200, 400, hSeed).value <= d.height
    ensures d.width >= 400 && d.height >= 400 ==> r.Ok?
    ensures d.width < 200 || d.height < 200 ==> r.Err?
  {
    var width := RandInt(200, 400, wSeed).value;
    var height := RandInt(200, 400, hSeed).value;
    match RandInt(0, d.width - width, xSeed)
    case Err(e) => Err(e)
    case Ok(x) =>
      match RandInt(0, d.height - height, ySeed)
      case Err(e) => Err(e)
      case Ok(y) => Ok(Region(x, y, width, height))
  }

  /** Every region of a drawable extent inside the image can be the one drawn. */
  lemma DrawRegionReaches(d: Descriptor, g: Region)
    requires InImage(g, d) && DrawnExtent(g)
    ensures DrawRegion(d, (g.width - 200) as nat, (g.height - 200) as nat, g.x as nat, g.y as nat) == Ok(g)
  {
    RandIntReaches(200, 400, g.width);
    RandIntReaches(200, 400, g.height);
    RandIntReaches(0, d.width - g.width, g.x);
    RandIntReaches(0, d.height - g.height, g.y);
  }

  /** The region parameter: the four numbers in decimal, separated by commas. */
  function RegionText(g: Region): string {
    IntToString(g.x) + "," + IntToString(g.y) + "," + IntToString(g.width) + "," + IntToString(g.height)
  }

  /** The size parameter: width and height in decimal, separated by a comma. */
  function SizeText(width: int, height: int): string {
    IntToString(width) + "," + IntToString(height)
  }

  /** The region text reads back as the four numbers of the region. */
  lemma RegionTextRoundTrip(g: Region)
    ensures var parts := Split(RegionText(g), ',');
      && |parts| == 4
      && ParseInt(parts[0]) == Ok(g.x) && ParseInt(parts[1]) == Ok(g.y)
      && ParseInt(parts[2]) == Ok(g.width) && ParseInt(parts[3]) == Ok(g.height)
  {
    var ps := [IntToString(g.x), IntToString(g.y), IntToString(g.width), IntToString(g.height)];
    IntToStringHasNoSeparator(g.x, ',');
    IntToStringHasNoSeparator(g.y, ',');
    IntToStringHasNoSeparator(g.width, ',');
    IntToStringHasNoSeparator(g.height, ',');
    assert ps[1..][1..][1..] == [ps[3]];
    assert ps[1..][1..] == [ps[2], ps[3]];
    assert Join(ps[1..][1..], ',') == ps[2] + [','] + ps[3];
    assert Join(ps[1..], ',') == ps[1] + [','] + (ps[2] + [','] + ps[3]);
    assert Join(ps, ',') == ps[0] + [','] + (ps[1] + [','] + (ps[2] + [','] + ps[3]));
    assert Join(ps, ',') == RegionText(g);
    SplitJoin(ps, ',');
    ParseIntRoundTrip(g.x);
    ParseIntRoundTrip(g.y);
    ParseIntRoundTrip(g.width);
    ParseIntRoundTrip(g.height);
  }

  /** The size text reads back as the two numbers. */
  lemma SizeTextRoundTrip(width: int, height: int)
    ensures var parts := Split(SizeText(width, height), ',');
      |parts| == 2 && ParseInt(parts[0]) == Ok(width) && ParseInt(parts[1]) == Ok(height)
  {
    var ps := [IntToString(width), IntToString(height)];
    IntToStringHasNoSeparator(width, ',');
    IntToStringHasNoSeparator(height, ',');
    assert ps[1..] == [ps[1]];
    assert Join(ps, ',') == SizeText(width, height);
    SplitJoin(ps, ',');
    ParseIntRoundTrip(width);
    ParseIntRoundTrip(height);
  }

  /** The request for a region at its native size. */
  function RegionRequest(b: ImageBuilder, d: Descriptor, g: Region): Request {
    Request(b.constructURL(d, RegionText(g), SizeArgs(None, None, Some(SizeText(g.width, g.height)), None)), "Custom region")
  }

  /** customRegion: the descriptor fetch, then one request for a drawn region inside the image. */
  function CustomRegion(b: ImageBuilder, images: seq<string>, pick: nat, fetched: Option<Descriptor>,
                        wSeed: nat, hSeed: nat, xSeed: nat, ySeed: nat): (run: Run)
    ensures var o := OpenDescriptor(images, pick, fetched);
      && (o.info.Err? ==> run == Run(o.requests, Some(o.info.error)))
      && (o.info.Ok? ==> (run.raised.None? <==> DrawRegion(o.info.value, wSeed, hSeed, xSeed, ySeed).Ok?))
      && (o.info.Ok? && run.raised.Some? ==> run == Run(o.requests, Some(ValueError)))
      && (o.info.Ok? && run.raised.None? ==>
            exists g :: InImage(g, o.info.value) && DrawnExtent(g)
                        && run.requests == o.requests + [RegionRequest(b, o.info.value, g)])
  {
    var o := OpenDescriptor(images, pick, fetched);
    match o.info
    case Err(e) => Run(o.requests, Some(e))
    case Ok(d) =>
      match DrawRegion(d, wSeed, hSeed, xSeed, ySeed)
      case Err(e) => Run(o.requests, Some(e))
      case Ok(g) => Run(o.requests + [RegionRequest(b, d, g)], None)
  }

  // fullImageSized --------------------------------------------------------------

  /** The size parameters fullImageSized draws from. */
  const SizeTokens: seq<string> := [",200", "150,", "200,", "400,", "650,", "675,", "800,", "!1024,1024"]

  /** fullImageSized's gate: Ok(true) when the request goes ahead, Ok(false) when the task returns
      early, or the exception raised by parsing a dimension or by a token without a comma. */
  function SizeGate(token: string, d: Descriptor): (r: Result<bool>)
    ensures r.Err? ==> r.error == ValueError || r.error == IndexError
    ensures r == Err(IndexError) ==> ',' !in token
  {
    JoinSplit(token, ',');
    var parts := Split(token, ',');
    var reqWidth := RemoveAll(parts[0], '!');
    if reqWidth != "" && ParseInt(reqWidth).Err? then Err(ValueError)
    else if reqWidth != "" && ParseInt(reqWidth).value < d.width then Ok(false)
    else if |parts| < 2 then Err(IndexError)
    else
      var reqHeight := parts[1];
      if reqHeight != "" && ParseInt(reqHeight).Err? then Err(ValueError)
      else Ok(!(reqHeight != "" && ParseInt(reqHeight).value < d.height))
  }

  /** The optional '!' of a size token. */
  function BangText(bang: bool): string {
    if bang then "!" else ""
  }

  /** An optional dimension of a size token. */
  function DimText(w: Option<nat>): string {
    if w.Some? then NatToString(w.value) else ""
  }

  /** A size token of the form [!][w],[h]. */
  function TokenText(bang: bool, w: Option<nat>, h: Option<nat>): string {
    BangText(bang) + DimText(w) + "," + DimText(h)
  }

  /** The request goes ahead when every dimension the token states is at least the image's. */
  predicate Fits(w: Option<nat>, h: Option<nat>, d: Descriptor) {
    (w.None? || w.value >= d.width) && (h.None? || h.value >= d.height)
  }

  /** A dimension is digits only; it is empty exactly when absent and otherwise parses to its value. */
  lemma DimTextParses(w: Option<nat>)
    ensures forall k :: 0 <= k < |DimText(w)| ==> IsDigit(DimText(w)[k])
    ensures DimText(w) == "" <==> w.None?
    ensures w.Some? ==> ParseInt(DimText(w)) == Ok(w.value)
  {
    if w.Some? {
      ParseIntRoundTrip(w.value);
      assert IntToString(w.value) == NatToString(w.value);
    }
  }

  /** The token splits at its one comma into the width part and the height part. */
  lemma TokenSplits(bang: bool, w: Option<nat>, h: Option<nat>)
    ensures Split(TokenText(bang, w, h), ',') == [BangText(bang) + DimText(w), DimText(h)]
  {
    var ws, hs := DimText(w), DimText(h);
    var pre := BangText(bang) + ws;
    DimTextParses(w);
    DimTextParses(h);
    assert ',' !in ws && ',' !in hs;
    assert ',' !in pre;
    assert [pre, hs][1..] == [hs];
    assert Join([pre, hs], ',') == pre + [','] + hs;
    SplitJoin([pre, hs], ',');
  }

  /** Removing '!' from the width part leaves the width digits. */
  lemma BangRemoved(bang: bool, w: Option<nat>)
    ensures RemoveAll(BangText(bang) + DimText(w), '!') == DimText(w)
  {
    var ws := DimText(w);
    DimTextParses(w);
    assert '!' !in ws;
    if bang {
      var pre := BangText(bang) + ws;
      assert pre[0] == '!' && pre[1..] == ws;
    }
  }

  /** For any token [!][w],[h] the gate parses w (the '!' removed) and h and goes ahead exactly when
      neither is below the image's dimension. */
  lemma SizeGateOfToken(bang: bool, w: Option<nat>, h: Option<nat>, d: Descriptor)
    ensures SizeGate(TokenText(bang, w, h), d) == Ok(Fits(w, h, d))
  {
    var token := TokenText(bang, w, h);
    var parts := Split(token, ',');
    TokenSplits(bang, w, h);
    BangRemoved(bang, w);
    var reqWidth := RemoveAll(parts[0], '!');
    assert reqWidth == DimText(w) && |parts| == 2 && parts[1] == DimText(h);
    DimTextParses(w);
    DimTextParses(h);
    if w.Some? && w.value < d.width {
      assert reqWidth != "" && ParseInt(reqWidth) == Ok(w.value);
      assert SizeGate(token, d) == Ok(false);
    } else {
      assert !(reqWidth != "" && ParseInt(reqWidth).Err?);
      assert !(reqWidth != "" && ParseInt(reqWidth).value < d.width);
      assert SizeGate(token, d) == Ok(!(parts[1] != "" && ParseInt(parts[1]).value < d.height));
    }
  }

  /** What each token states: (has '!', width, height). */
  function TokenDims(i: nat): (bool, Option<nat>, Option<nat>)
    requires i < |SizeTokens|
  {
    [(false, None, Some(200)), (false, Some(150), None), (false, Some(200), None), (false, Some(400), None),
     (false, Some(650), None), (false, Some(675), None), (false, Some(800), None), (true, Some(1024), Some(1024))][i]
  }

  // The decimal texts of the numbers in the tokens, each in its own lemma: evaluating str() on a
  // literal and comparing literal strings is costly for the solver.
  lemma Text150() ensures NatToString(150) == "150" {}
  lemma Text200() ensures NatToString(200) == "200" {}
  lemma Text400() ensures NatToString(400) == "400" {}
  lemma Text650() ensures NatToString(650) == "650" {}
  lemma Text675() ensures NatToString(675) == "675" {}
  lemma Text800() ensures NatToString(800) == "800" {}
  lemma Text1024() ensures NatToString(1024) == "1024" {}

  /** A token with only a width is the width's text followed by a comma. */
  lemma WidthOnlyToken(w: nat)
    ensures TokenText(false, Some(w), None) == NatToString(w) + ","
  {
  }

  lemma Token0() ensures SizeTokens[0] == TokenText(TokenDims(0).0, TokenDims(0).1, TokenDims(0).2) { Text200(); }
  lemma Token1() ensures SizeTokens[1] == TokenText(TokenDims(1).0, TokenDims(1).1, TokenDims(1).2) { Text150(); WidthOnlyToken(150); }
  lemma Token2() ensures SizeTokens[2] == TokenText(TokenDims(2).0, TokenDims(2).1, TokenDims(2).2) { Text200(); WidthOnlyToken(200); }
  lemma Token3() ensures SizeTokens[3] == TokenText(TokenDims(3).0, TokenDims(3).1, TokenDims(3).2) { Text400(); WidthOnlyToken(400); }
  lemma Token4() ensures SizeTokens[4] == TokenText(TokenDims(4).0, TokenDims(4).1, TokenDims(4).2) { Text650(); WidthOnlyToken(650); }
  lemma Token5() ensures SizeTokens[5] == TokenText(TokenDims(5).0, TokenDims(5).1, TokenDims(5).2) { Text675(); WidthOnlyToken(675); }
  lemma Token6() ensures SizeTokens[6] == TokenText(TokenDims(6).0, TokenDims(6).1, TokenDims(6).2) { Text800(); WidthOnlyToken(800); }
  lemma Token7() ensures SizeTokens[7] == TokenText(TokenDims(7).0, TokenDims(7).1, TokenDims(7).2) { Text1024(); }

  /** Each listed token has the form TokenDims gives it. */
  lemma TokenTable(i: nat)
    requires i < |SizeTokens|
    ensures SizeTokens[i] == TokenText(TokenDims(i).0, TokenDims(i).1, TokenDims(i).2)
  {
    if i == 0 { Token0(); }
    else if i == 1 { Token1(); }
    else if i == 2 { Token2(); }
    else if i == 3 { Token3(); }
    else if i == 4 { Token4(); }
    else if i == 5 { Token5(); }
    else if i == 6 { Token6(); }
    else { Token7(); }
  }

  /** The gate on each listed token: the request goes ahead exactly when every dimension the token
      states is at least the image's, so a request this task makes never asks for less than the image. */
  lemma SizeGateOnListedToken(i: nat, d: Descriptor)
    requires i < |SizeTokens|
    ensures SizeGate(SizeTokens[i], d) == Ok(Fits(TokenDims(i).1, TokenDims(i).2, d))
  {
    TokenTable(i);
    SizeGateOfToken(TokenDims(i).0, TokenDims(i).1, TokenDims(i).2, d);
  }

  /** For a 1000x1000 image "150," is skipped and "!1024,1024" goes ahead. */
  lemma SizeGateExample(d: Descriptor)
    requires d.width == 1000 && d.height == 1000
    ensures SizeTokens[1] == "150," && SizeGate("150,", d) == Ok(false)
    ensures SizeTokens[7] == "!1024,1024" && SizeGate("!1024,1024", d) == Ok(true)
  {
    SizeGateOnListedToken(1, d);
    SizeGateOnListedToken(7, d);
  }

  /** The request fullImageSized makes once the gate lets it through. */
  function SizedRequest(identifier: string, token: string): Request {
    Request(identifier + "/full/" + token + "/0/default.jpg", "Full image scaled")
  }

  /** fullImageSized. The gate reads the fetched descriptor, but the URL is built from a second,
      independent draw from the corpus (pick2), which need not be the entry whose descriptor was read. */
  function FullImageSized(images: seq<string>, pick: nat, fetched: Option<Descriptor>, tokenSeed: nat, pick2: nat)
    : (run: Run)
    ensures var o := OpenDescriptor(images, pick, fetched);
      && (o.info.Err? ==> run == Run(o.requests, Some(o.info.error)))
      && (o.info.Ok? ==>
            var i := RandInt(0, |SizeTokens| - 1, tokenSeed).value;
            && run.raised.None?
            && (!Fits(TokenDims(i).1, TokenDims(i).2, o.info.value) ==> run.requests == o.requests)
            && (Fits(TokenDims(i).1, TokenDims(i).2, o.info.value) ==>
                  exists k :: 0 <= k < |images| && run.requests == o.requests + [SizedRequest(Identifier(images[k]), SizeTokens[i])]))
  {
    var o := OpenDescriptor(images, pick, fetched);
    match o.info
    case Err(e) => Run(o.requests, Some(e))
    case Ok(d) =>
      var i := RandInt(0, |SizeTokens| - 1, tokenSeed).value;
      var token := SizeTokens[i];
      SizeGateOnListedToken(i, d);
      match SizeGate(token, d)
      case Err(e) => Run(o.requests, Some(e))
      case Ok(proceed) =>
        if !proceed then Run(o.requests, None)
        else
          match RandomImage(images, pick2)
          case Err(e) => Run(o.requests, Some(e))
          case Ok(u) => Run(o.requests + [SizedRequest(Identifier(u), token)], None)
  }

  /** With two different corpus entries the descriptor checked can belong to one image while the
      request goes to the other. */
  lemma FullImageSizedMayRequestAnotherImage(images: seq<string>, d: Descriptor)
    requires |images| >= 2 && images[0] != images[1]
    requires EndsWith(images[0], InfoSuffix) && EndsWith(images[1], InfoSuffix)
    requires d.width <= 1024 && d.height <= 1024
    ensures FullImageSized(images, 0, Some(d), 7, 1)
            == Run([InfoRequest(images[0]), SizedRequest(Identifier(images[1]), SizeTokens[7])], None)
    ensures Identifier(images[1]) != Identifier(images[0])
  {
    RandomImageReaches(images, 0);
    RandomImageReaches(images, 1);
    RandIntReaches(0, |SizeTokens| - 1, 7);
    assert OpenDescriptor(images, 0, Some(d)) == Opened([InfoRequest(images[0])], Ok(d));
    SizeGateOnListedToken(7, d);
    assert SizeGate(SizeTokens[7], d) == Ok(true);
  }

  // fullImage -------------------------------------------------------------------

  /** fullImage: the descriptor fetch, then the full region at full size. */
  function FullImage(b: ImageBuilder, images: seq<string>, pick: nat, fetched: Option<Descriptor>): (run: Run)
    ensures var o := OpenDescriptor(images, pick, fetched);
      && (o.info.Err? ==> run == Run(o.requests, Some(o.info.error)))
      && (o.info.Ok? ==> run == Run(o.requests + [Request(b.constructURL(o.info.value, "full",
                                      SizeArgs(None, None, Some("full"), None)), "Full/full image request")], None))
  {
    var o := OpenDescriptor(images, pick, fetched);
    match o.info
    case Err(e) => Run(o.requests, Some(e))
    case Ok(d) => Run(o.requests + [Request(b.constructURL(d, "full", SizeArgs(None, None, Some("full"), None)),
                                              "Full/full image request")], None)
  }

  // rotationRandomSize ----------------------------------------------------------

  /** The rotations rotationRandomSize draws from. */
  const Rotations: seq<int> := [0, 90, 180, 270]

  /** rotationRandomSize's draws: a listed size and a rotation; KeyError without a sizes list, IndexError for an empty one. */
  function DrawRotation(d: Descriptor, sizeSeed: nat, rotationSeed: nat): (r: Result<(Size, int)>)
    ensures r.Ok? <==> d.sizes.Some? && |d.sizes.value| > 0
    ensures d.sizes.None? ==> r == Err(KeyError("sizes"))
    ensures d.sizes == Some([]) ==> r == Err(IndexError)
    ensures r.Ok? ==> r.value.0 in d.sizes.value && r.value.1 in Rotations
  {
    match d.sizes
    case None => Err(KeyError("sizes"))
    case Some(ss) =>
      match Choice(ss, sizeSeed)
      case Err(e) => Err(e)
      case Ok(s) => Ok((s, Choice(Rotations, rotationSeed).value))
  }

  /** Every listed size and every rotation can be drawn together. */
  lemma DrawRotationReaches(d: Descriptor, i: nat, j: nat)
    requires d.sizes.Some? && i < |d.sizes.value| && j < |Rotations|
    ensures DrawRotation(d, i, j) == Ok((d.sizes.value[i], Rotations[j]))
  {
    ChoiceReaches(d.sizes.value, i);
    ChoiceReaches(Rotations, j);
  }

  /** The part of the rotation request after the descriptor's @id. */
  function RotationPath(s: Size, rotation: int): string {
    "/full/" + IntToString(s.width) + "," + IntToString(s.height) + "/" + IntToString(rotation) + "/default.jpg"
  }

  /** The IIIF parameters of a rotation request. */
  function RotationParams(s: Size, rotation: int): ImageRequest {
    ImageRequest("full", SizeText(s.width, s.height), IntToString(rotation), "default", "jpg")
  }

  lemma FullPrefix()
    ensures "/" + "full" + "/" == "/full/"
  {
  }

  lemma DefaultJpgSuffix()
    ensures "/" + "default" + "." + "jpg" == "/default.jpg"
  {
  }

  lemma RotationLiteralsWellFormed()
    ensures '/' !in "full" && '/' !in "default" && '/' !in "jpg" && '.' !in "default" && '.' !in "jpg"
  {
  }

  lemma RotationPathIsPath(s: Size, rotation: int)
    ensures WellFormed(RotationParams(s, rotation))
    ensures RotationPath(s, rotation) == Path(RotationParams(s, rotation))
  {
    var ws, hs, rs := IntToString(s.width), IntToString(s.height), IntToString(rotation);
    IntToStringHasNoSeparator(s.width, '/');
    IntToStringHasNoSeparator(s.height, '/');
    IntToStringHasNoSeparator(rotation, '/');
    RotationLiteralsWellFormed();
    FullPrefix();
    DefaultJpgSuffix();
    var sz := SizeText(s.width, s.height);
    assert '/' !in sz by {
      assert sz == ws + "," + hs;
    }
    calc {
      Path(RotationParams(s, rotation));
      "/" + "full" + "/" + sz + "/" + rs + "/" + "default" + "." + "jpg";
      ("/" + "full" + "/") + sz + "/" + rs + ("/" + "default" + "." + "jpg");
      "/full/" + sz + "/" + rs + "/default.jpg";
      RotationPath(s, rotation);
    }
  }

  /** The rotation path is the IIIF request for the full region at the drawn width and height, the
      drawn rotation and the default quality, and its size parameter reads back as the two numbers. */
  lemma RotationPathParams(s: Size, rotation: int)
    ensures ParsePath(RotationPath(s, rotation)) == Some(RotationParams(s, rotation))
    ensures var parts := Split(SizeText(s.width, s.height), ',');
      |parts| == 2 && ParseInt(parts[0]) == Ok(s.width) && ParseInt(parts[1]) == Ok(s.height)
    ensures ParseInt(IntToString(rotation)) == Ok(rotation)
  {
    RotationPathIsPath(s, rotation);
    PathRoundTrip(RotationParams(s, rotation));
    SizeTextRoundTrip(s.width, s.height);
    ParseIntRoundTrip(rotation);
  }

  /** rotationRandomSize: the descriptor fetch, then one request under the descriptor's own @id.
      A missing @id raises KeyError. */
  function RotationRandomSize(images: seq<string>, pick: nat, fetched: Option<Descriptor>, sizeSeed: nat, rotationSeed: nat)
    : (run: Run)
    ensures var o := OpenDescriptor(images, pick, fetched);
      && (o.info.Err? ==> run == Run(o.requests, Some(o.info.error)))
      && (o.info.Ok? ==>
            var d := o.info.value;
            && (run.raised.None? <==> d.sizes.Some? && |d.sizes.value| > 0 && d.id.Some?)
            && (d.sizes.None? ==> run == Run(o.requests, Some(KeyError("sizes"))))
            && (d.sizes == Some([]) ==> run == Run(o.requests, Some(IndexError)))
            && (d.sizes.Some? && |d.sizes.value| > 0 && d.id.None? ==> run == Run(o.requests, Some(KeyError("@id"))))
            && (run.raised.None? ==>
                  exists s, rotation :: s in d.sizes.value && rotation in Rotations
                    && run.requests == o.requests + [Request(d.id.value + RotationPath(s, rotation), "Rotate image")]))
  {
    var o := OpenDescriptor(images, pick, fetched);
    match o.info
    case Err(e) => Run(o.requests, Some(e))
    case Ok(d) =>
      match DrawRotation(d, sizeSeed, rotationSeed)
      case Err(e) => Run(o.requests, Some(e))
      case Ok(drawn) =>
        match d.id
        case None => Run(o.requests, Some(KeyError("@id")))
        case Some(id) => Run(o.requests + [Request(id + RotationPath(drawn.0, drawn.1), "Rotate image")], None)
  }

  // Dispatch --------------------------------------------------------------------

  /** The random draws one task invocation may consume, in the order the task makes them. */
  datatype Draws = Draws(image: nat, second: nat, third: nat, fourth: nat, fifth: nat)

  predicate IsTemplate(kind: TaskList.TaskKind) {
    kind.GetMiradorThumbnail? || kind.GetUVThumbnail? || kind.HalfScale? || kind.GrayScale?
    || kind.BitonalQuality? || kind.MirroringFull?
  }

  function TemplateOf(kind: TaskList.TaskKind): Template
    requires IsTemplate(kind)
  {
    match kind
    case GetMiradorThumbnail => MiradorThumbnail
    case GetUVThumbnail => UVThumbnail
    case HalfScale => HalfScale
    case GrayScale => GrayScale
    case BitonalQuality => BitonalQuality
    case MirroringFull => MirroringFull
  }

  /** One invocation of a task function. With an empty corpus every task raises before any request;
      otherwise every task issues at least one request, and a descriptor-dependent task's first request
      is a descriptor fetch of a corpus entry. */
  method Perform(kind: TaskList.TaskKind, b: ImageBuilder, images: seq<string>, fetched: Option<Descriptor>, draws: Draws)
    returns (run: Run)
    ensures |images| == 0 ==> run == Run([], Some(ValueError))
    ensures |images| > 0 ==> |run.requests| >= 1
    ensures IsTemplate(kind) ==> run == TemplateTask(TemplateOf(kind), images, draws.image)
    ensures |images| > 0 && !IsTemplate(kind) ==> exists k :: 0 <= k < |images| && run.requests[0] == InfoRequest(images[k])
  {
    match kind
    case GetMiradorThumbnail => run := TemplateTask(MiradorThumbnail, images, draws.image);
    case GetUVThumbnail => run := TemplateTask(UVThumbnail, images, draws.image);
    case HalfScale => run := TemplateTask(HalfScale, images, draws.image);
    case GrayScale => run := TemplateTask(GrayScale, images, draws.image);
    case BitonalQuality => run := TemplateTask(BitonalQuality, images, draws.image);
    case MirroringFull => run := TemplateTask(MirroringFull, images, draws.image);
    case GetThumbnailPanel => run := ThumbnailPanel(b, images, draws.image, fetched);
    case ZoomToPoint => run := ZoomToPoint(b, images, draws.image, fetched, draws.second, draws.third);
    case VirtualReading => run := VirtualReading(b, images, draws.image, fetched, draws.second);
    case CustomRegion => run := CustomRegion(b, images, draws.image, fetched, draws.second, draws.third, draws.fourth, draws.fifth);
    case FullImageSized => run := FullImageSized(images, draws.image, fetched, draws.second, draws.third);
    case FullImage => run := FullImage(b, images, draws.image, fetched);
    case RotationRandomSize => run := RotationRandomSize(images, draws.image, fetched, draws.second, draws.third);
  }
}
