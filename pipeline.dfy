/**
 * One request of the cutout tool: the input gate, the chain of remote and
 * library steps (each of which may fail and end the request), the cutout, and
 * the write of `<folder>/<name>.fits`.
 *
 * The remote services and foreign libraries are inputs: the query response is
 * an option, None when the query raised, and every later step is a partial map
 * from what the step is given to what it produces, where a missing entry means
 * that the step raised.
 */
module Pipeline {
  import opened Wrappers
  import opened Band
  import opened Cutout

  type Bytes = seq<bv8>

  /** What the caller passes: the object name, its coordinates in degrees, and the output folder. */
  datatype Request = Request(name: string, ra: real, dec: real, folder: string)

  /** The remote query and download, and the library calls on their payloads. */
  datatype Services = Services(
    siap: Option<Bytes>,                 // body of the image-access query; None: the GET raised
    voTable: map<Bytes, seq<Row>>,       // body -> table after the encoding rewrite and table parse
    download: map<string, Bytes>,        // image URL -> compressed body
    bunzip: map<Bytes, Bytes>,           // compressed -> decompressed bytes
    openFits: map<Bytes, Frame>)         // file bytes -> primary image and the target's projected position

  datatype InputField = Coordinates | Name | Folder
  datatype Remote = SiapQuery | ImageDownload
  datatype Document = VoTable | FitsFile

  /** Every way one request can end; only Written leaves a file behind. */
  datatype Outcome =
    | Skipped(path: string)
    | InvalidInput(field: InputField)
    | NetworkFailure(request: Remote)
    | ParseFailure(document: Document)
    | MissingBand
    | DecompressFailure
    | Written(path: string, pixels: seq<seq<real>>, undersized: bool)

  /** A network request the tool issues. */
  datatype NetCall = QuerySiap(ra: real, dec: real) | FetchImage(url: string)

  /** How a request ended and the network requests it issued, in order. */
  datatype Report = Report(outcome: Outcome, calls: seq<NetCall>)

  /** The file the request writes and whose presence makes it a no-op. */
  function OutputPath(folder: string, name: string): (p: string)
    ensures |p| > |folder| && p != ""
    ensures p[..|folder|] == folder && p[|folder|] == '/'
  {
    folder + "/" + name + ".fits"
  }

  /** Dec within [-90, 90] and RA within [0, 360). */
  predicate CoordinatesValid(ra: real, dec: real)
  {
    -90.0 <= dec <= 90.0 && 0.0 <= ra < 360.0
  }

  lemma RightAscensionBounds(dec: real)
    requires -90.0 <= dec <= 90.0
    ensures CoordinatesValid(0.0, dec) && !CoordinatesValid(360.0, dec)
  {
  }

  /** The checks in the order the tool makes them; Some(outcome) ends the request there. */
  function Gate(outputExists: bool, req: Request): (stop: Option<Outcome>)
    ensures outputExists ==> stop == Some(Skipped(OutputPath(req.folder, req.name)))
    ensures stop == Some(InvalidInput(Coordinates)) <==> !outputExists && !CoordinatesValid(req.ra, req.dec)
    ensures stop == Some(InvalidInput(Name)) <==>
      !outputExists && CoordinatesValid(req.ra, req.dec) && req.name == ""
    ensures stop == Some(InvalidInput(Folder)) <==>
      !outputExists && CoordinatesValid(req.ra, req.dec) && req.name != "" && req.folder == ""
    ensures stop.None? <==>
      !outputExists && CoordinatesValid(req.ra, req.dec) && req.name != "" && req.folder != ""
    ensures stop.Some? ==> stop.value.Skipped? || stop.value.InvalidInput?
  {
    if outputExists then Some(Skipped(OutputPath(req.folder, req.name)))
    else if !CoordinatesValid(req.ra, req.dec) then Some(InvalidInput(Coordinates))
    else if req.name == "" then Some(InvalidInput(Name))
    else if req.folder == "" then Some(InvalidInput(Folder))
    else None
  }

  /** The metadata table, when the query returned and its body parsed. */
  function Table(svc: Services): Option<seq<Row>>
  {
    if svc.siap.Some? && svc.siap.value in svc.voTable then Some(svc.voTable[svc.siap.value]) else None
  }

  /** Downloading `url`, decompressing the body and opening the result all succeed. */
  predicate ImageChainOk(svc: Services, url: string)
  {
    url in svc.download && svc.download[url] in svc.bunzip && svc.bunzip[svc.download[url]] in svc.openFits
  }

  /** The frame the remote steps produce, or the outcome that ends the request; and the image URL requested, if any. */
  datatype Fetch = Fetch(result: Result<Frame, Outcome>, imageUrl: Option<string>)

  /** The steps between the gate and the cutout, each ending the request when it fails. */
  function FetchFrame(svc: Services): (f: Fetch)
    ensures f.imageUrl.Some? <==> Table(svc).Some? && FirstBandRow(Table(svc).value).Some?
    ensures f.imageUrl.Some? ==>
      exists i :: IsFirstMatch(Table(svc).value, i) && f.imageUrl.value == Table(svc).value[i].url
    ensures f.result.Success? <==> f.imageUrl.Some? && ImageChainOk(svc, f.imageUrl.value)
    ensures f.result == Failure(MissingBand) <==>
      Table(svc).Some? && forall j :: 0 <= j < |Table(svc).value| ==> !IsRBand(Table(svc).value[j])
    ensures f.result.Failure? ==> !f.result.error.Written? && !f.result.error.Skipped? && !f.result.error.InvalidInput?
    ensures f.result == Failure(NetworkFailure(SiapQuery)) <==> svc.siap.None?
    ensures f.result == Failure(ParseFailure(VoTable)) <==> svc.siap.Some? && svc.siap.value !in svc.voTable
    ensures f.result == Failure(NetworkFailure(ImageDownload)) <==>
      f.imageUrl.Some? && f.imageUrl.value !in svc.download
    ensures f.result == Failure(DecompressFailure) <==>
      f.imageUrl.Some? && f.imageUrl.value in svc.download && svc.download[f.imageUrl.value] !in svc.bunzip
    ensures f.result == Failure(ParseFailure(FitsFile)) <==>
      f.imageUrl.Some? && f.imageUrl.value in svc.download && svc.download[f.imageUrl.value] in svc.bunzip &&
      svc.bunzip[svc.download[f.imageUrl.value]] !in svc.openFits
    ensures f.result.Success? ==>
      f.result.value == svc.openFits[svc.bunzip[svc.download[f.imageUrl.value]]]
  {
    if svc.siap.None? then Fetch(Failure(NetworkFailure(SiapQuery)), None)
    else if svc.siap.value !in svc.voTable then Fetch(Failure(ParseFailure(VoTable)), None)
    else
      match FirstBandRow(svc.voTable[svc.siap.value])
      case None => Fetch(Failure(MissingBand), None)
      case Some(row) =>
        var url := Some(row.url);
        if row.url !in svc.download then Fetch(Failure(NetworkFailure(ImageDownload)), url)
        else if svc.download[row.url] !in svc.bunzip then Fetch(Failure(DecompressFailure), url)
        else if svc.bunzip[svc.download[row.url]] !in svc.openFits then Fetch(Failure(ParseFailure(FitsFile)), url)
        else Fetch(Success(svc.openFits[svc.bunzip[svc.download[row.url]]]), url)
  }

  /** One whole request, given whether the output file was already present. */
  function Run(req: Request, outputExists: bool, svc: Services): (r: Report)
    ensures outputExists ==> r == Report(Skipped(OutputPath(req.folder, req.name)), [])
    ensures Gate(outputExists, req).Some? ==> r == Report(Gate(outputExists, req).value, [])
    ensures Gate(outputExists, req).None? ==> |r.calls| >= 1 && r.calls[0] == QuerySiap(req.ra, req.dec)
    ensures Gate(outputExists, req).None? && FetchFrame(svc).imageUrl.None? ==>
      r.calls == [QuerySiap(req.ra, req.dec)]
    ensures Gate(outputExists, req).None? && FetchFrame(svc).result.Failure? ==>
      r.outcome == FetchFrame(svc).result.error
    ensures r.outcome == NetworkFailure(SiapQuery) <==> Gate(outputExists, req).None? && svc.siap.None?
    ensures r.outcome.Written? ==>
      r.outcome.path == OutputPath(req.folder, req.name) && |r.calls| == 2 &&
      |r.outcome.pixels| <= CutoutSize && forall i :: 0 <= i < |r.outcome.pixels| ==> |r.outcome.pixels[i]| <= CutoutSize
  {
    match Gate(outputExists, req)
    case Some(stop) => Report(stop, [])
    case None =>
      var f := FetchFrame(svc);
      var calls := [QuerySiap(req.ra, req.dec)] + (if f.imageUrl.Some? then [FetchImage(f.imageUrl.value)] else []);
      match f.result
      case Failure(stop) => Report(stop, calls)
      case Success(frame) =>
        var cut := CutOut(frame);
        Report(Written(OutputPath(req.folder, req.name), cut.pixels, cut.undersized), calls)
  }

  /**
   * The written pixels are the opened image's pixels inside the clamped window
   * around the target, row by row and column by column, with nothing added.
   */
  lemma WrittenPixelsAreClampedRegion(req: Request, outputExists: bool, svc: Services)
    ensures Run(req, outputExists, svc).outcome.Written? ==>
      var o := Run(req, outputExists, svc).outcome;
      && FetchFrame(svc).result.Success?
      && var f := FetchFrame(svc).result.value;
         var w := ClampWindow(f.Px(), f.Py(), f.image.Height(), f.image.nx);
         && f == svc.openFits[svc.bunzip[svc.download[FetchFrame(svc).imageUrl.value]]]
         && |o.pixels| == Extent(w.y0, w.y1)
         && (forall i :: 0 <= i < |o.pixels| ==> |o.pixels[i]| == Extent(w.x0, w.x1))
         && forall i, j :: 0 <= i < |o.pixels| && 0 <= j < Extent(w.x0, w.x1) ==>
              o.pixels[i][j] == f.image.rows[w.y0 + i][w.x0 + j]
  {
  }

  /** Every step succeeds: the gate, the query, the parse, the band match, the download, decompression and opening. */
  ghost predicate AllStepsSucceed(req: Request, outputExists: bool, svc: Services)
  {
    && Gate(outputExists, req).None?
    && Table(svc).Some?
    && exists i :: IsFirstMatch(Table(svc).value, i) && ImageChainOk(svc, Table(svc).value[i].url)
  }

  /** The file is written exactly when every step before the write succeeded. */
  lemma WrittenIffAllStepsSucceed(req: Request, outputExists: bool, svc: Services)
    ensures Run(req, outputExists, svc).outcome.Written? <==> AllStepsSucceed(req, outputExists, svc)
  {
  }

  /** Out-of-range coordinates end the request before the metadata query, unless the file exists. */
  lemma InvalidCoordinatesMakeNoRequest(req: Request, svc: Services)
    requires !CoordinatesValid(req.ra, req.dec)
    ensures Run(req, false, svc) == Report(InvalidInput(Coordinates), [])
  {
  }

  /** The request ends with MissingBand exactly when the table parsed and no Title contains the marker. */
  lemma MissingBandIffNoRBandRow(req: Request, outputExists: bool, svc: Services)
    ensures Run(req, outputExists, svc).outcome == MissingBand <==>
      Gate(outputExists, req).None? && Table(svc).Some? &&
      forall j :: 0 <= j < |Table(svc).value| ==> !IsRBand(Table(svc).value[j])
  {
  }

  /** The image requested is the one of the first r-band row in table order, never a later one. */
  lemma DownloadsFirstRBandRow(req: Request, outputExists: bool, svc: Services, i: int)
    requires Gate(outputExists, req).None? && Table(svc).Some? && IsFirstMatch(Table(svc).value, i)
    ensures Run(req, outputExists, svc).calls == [QuerySiap(req.ra, req.dec), FetchImage(Table(svc).value[i].url)]
  {
  }

  /** Once every step has succeeded, the cutout is written, and the warning is raised exactly when the centre is near an edge. */
  lemma UndersizedCutoutIsStillWritten(req: Request, svc: Services)
    ensures Gate(false, req).None? && FetchFrame(svc).result.Success? ==>
      var f := FetchFrame(svc).result.value;
      var o := Run(req, false, svc).outcome;
      o.Written? && (o.undersized <==> NearEdge(f.Px(), f.Py(), f.image.Height(), f.image.nx))
  {
  }

  /** A centre well inside the image gives a full 128 by 128 cutout and no warning. */
  lemma InteriorTargetWritesFullCutout(req: Request, svc: Services)
    ensures Gate(false, req).None? && FetchFrame(svc).result.Success? ==>
      var f := FetchFrame(svc).result.value;
      var o := Run(req, false, svc).outcome;
      !NearEdge(f.Px(), f.Py(), f.image.Height(), f.image.nx) ==>
        o.Written? && !o.undersized && |o.pixels| == CutoutSize &&
        forall i :: 0 <= i < CutoutSize ==> |o.pixels[i]| == CutoutSize
  {
  }

  // The output folder. The tool creates it when absent, before the gate.

  /** The directories after the folder step as the tool takes it: None when `os.makedirs` raises. */
  function PrepareFolderAsWritten(folder: string, folderExists: bool, dirs: set<string>): (r: Option<set<string>>)
    ensures folder == "" && !folderExists ==> r.None?
    ensures folderExists ==> r == Some(dirs)
    ensures !folderExists && folder != "" ==> r == Some(dirs + {folder})
  {
    if folderExists then Some(dirs)
    else if folder == "" then None
    else Some(dirs + {folder})
  }

  /** The folder step with the empty folder left to the gate, which rejects it. */
  function PrepareFolder(folder: string, folderExists: bool, dirs: set<string>): (d: set<string>)
    ensures dirs <= d && d - dirs <= {folder}
    ensures "" !in dirs ==> "" !in d
    ensures folderExists ==> d == dirs
    ensures !folderExists && folder != "" ==> folder in d
  {
    if folderExists || folder == "" then dirs else dirs + {folder}
  }

  /**
   * The folder step as written, followed by `Run` with the corrected extraction;
   * None when the folder step raises.
   */
  function RunAsWritten(req: Request, folderExists: bool, dirs: set<string>, outputExists: bool, svc: Services): (r: Option<Report>)
    ensures r.None? <==> req.folder == "" && !folderExists
  {
    match PrepareFolderAsWritten(req.folder, folderExists, dirs)
    case None => None
    case Some(_) => Some(Run(req, outputExists, svc))
  }

  /**
   * An empty string never names an existing path, so the tool as written never
   * reaches its own empty-folder check: the request either ends earlier or raises.
   */
  lemma AsWrittenNeverRejectsFolder(req: Request, folderExists: bool, dirs: set<string>, outputExists: bool, svc: Services)
    requires req.folder == "" ==> !folderExists
    ensures var r := RunAsWritten(req, folderExists, dirs, outputExists, svc);
      r.None? || r.value.outcome != InvalidInput(Folder)
  {
  }

  /** With the folder step guarded, an empty folder ends in InvalidInput with no request and no write. */
  lemma EmptyFolderIsRejected(req: Request, svc: Services)
    requires req.folder == ""
    ensures var r := Run(req, false, svc);
      r.outcome.InvalidInput? && r.calls == [] &&
      (CoordinatesValid(req.ra, req.dec) && req.name != "" ==> r.outcome == InvalidInput(Folder))
  {
  }

  /** The local file system: the directories and the image files, by path. */
  class FileSystem {
    var dirs: set<string>
    var files: map<string, seq<seq<real>>>

    /** No directory or file has the empty path. */
    ghost predicate Valid()
      reads this
    {
      "" !in dirs && "" !in files
    }

    /** `os.path.exists`: a directory or a file is at `path`. */
    predicate Exists(path: string)
      reads this
    {
      path in dirs || path in files
    }

    method MakeDirs(folder: string)
      requires Valid() && folder != ""
      modifies this
      ensures Valid()
      ensures dirs == old(dirs) + {folder} && files == old(files)
    {
      dirs := dirs + {folder};
    }

    /** Write an image to `path`, replacing what was there. */
    method WriteTo(path: string, pixels: seq<seq<real>>)
      requires Valid() && path != ""
      modifies this
      ensures Valid()
      ensures files == old(files)[path := pixels] && dirs == old(dirs)
    {
      files := files[path := pixels];
    }
  }

  /**
   * One request against the file system: prepare the folder, pass the gate,
   * query, select the r-band row, download, decompress, open, cut out, write.
   */
  method DownloadAndCutout(fs: FileSystem, req: Request, svc: Services) returns (outcome: Outcome, calls: seq<NetCall>)
    requires fs.Valid()
    modifies fs
    ensures fs.Valid()
    ensures Report(outcome, calls) == Run(req, old(fs.Exists(OutputPath(req.folder, req.name))), svc)
    ensures fs.dirs == PrepareFolder(req.folder, old(fs.Exists(req.folder)), old(fs.dirs))
    ensures fs.files == if outcome.Written? then old(fs.files)[outcome.path := outcome.pixels] else old(fs.files)
  {
    if !fs.Exists(req.folder) && req.folder != "" {
      fs.MakeDirs(req.folder);
    }
    var path := OutputPath(req.folder, req.name);
    assert path != req.folder;
    var stop := Gate(fs.Exists(path), req);
    if stop.Some? {
      return stop.value, [];
    }
    calls := [QuerySiap(req.ra, req.dec)];
    if svc.siap.None? {
      return NetworkFailure(SiapQuery), calls;
    }
    var body := svc.siap.value;
    if body !in svc.voTable {
      return ParseFailure(VoTable), calls;
    }
    var table := svc.voTable[body];
    var rRow := SelectRBand(table);
    assert rRow == FirstBandRow(table) by {
      if FirstBandRow(table).Some? {
        var i :| IsFirstMatch(table, i) && table[i] == FirstBandRow(table).value;
      }
    }
    if rRow.None? {
      return MissingBand, calls;
    }
    var url := rRow.value.url;
    calls := calls + [FetchImage(url)];
    if url !in svc.download {
      return NetworkFailure(ImageDownload), calls;
    }
    var compressed := svc.download[url];
    if compressed !in svc.bunzip {
      return DecompressFailure, calls;
    }
    var raw := svc.bunzip[compressed];
    if raw !in svc.openFits {
      return ParseFailure(FitsFile), calls;
    }
    var frame := svc.openFits[raw];
    var px, py := TruncateTowardZero(frame.x), TruncateTowardZero(frame.y);
    var w := ClampWindow(px, py, frame.image.Height(), frame.image.nx);
    var undersized := Undersized(w);
    var pixels := Extract(frame.image, w);
    fs.WriteTo(path, pixels);
    outcome := Written(path, pixels, undersized);
  }

  /** Running the same request again after it wrote or skipped issues no request and leaves the file as it was. */
  method DownloadTwice(fs: FileSystem, req: Request, svc: Services, svcAgain: Services)
    returns (first: Outcome, second: Outcome, callsAgain: seq<NetCall>)
    requires fs.Valid()
    modifies fs
    ensures fs.Valid()
    ensures first.Written? || first.Skipped? ==> second == Skipped(OutputPath(req.folder, req.name)) && callsAgain == []
    ensures first.Written? ==> fs.files == old(fs.files)[OutputPath(req.folder, req.name) := first.pixels]
    ensures first.Skipped? ==> fs.files == old(fs.files)
  {
    var calls;
    first, calls := DownloadAndCutout(fs, req, svc);
    second, callsAgain := DownloadAndCutout(fs, req, svcAgain);
  }
}
