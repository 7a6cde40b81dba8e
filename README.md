# SDSS cutout tool: a Dafny model of `download_and_cutout`

The tool takes one astronomical object (a name, right ascension and
declination in degrees, and an output folder). It fetches an SDSS r-band
image of the object's sky position and crops a 128 by 128 pixel cutout
centred on the object. It writes the cutout to `<folder>/<name>.fits`.
One Python function does it all. The steps are:

1. Create the output folder if it is missing.
2. Skip the request if the output file already exists.
3. Check the coordinates, then the name, then the folder.
4. Query the SkyServer image-access (SIAP) endpoint and parse the returned
   VOTable.
5. Pick the first row whose Title contains `"Filter r"`.
6. Download the image, bz2-decompress it and open it as FITS.
7. Project the target into pixel coordinates and truncate them to integers.
8. Clamp a 128-pixel window around that pixel to the image and warn when the
   window comes out smaller.
9. Slice the window out of the image and write it.

Every failure the function catches (the gate and the steps of lines 49-95)
prints a message and returns. The exceptions listed under "## Left out" and
"## Findings" escape to the caller.

The model is split into five modules:

- `Wrappers`: `Option` and `Result`.
- `Text`: Python's substring test.
- `Band`: the r-band row selection. `FirstBandRow` is its specification. The
  method `SelectRBand` is the source's `for`/`break` loop, proved against it.
- `Cutout`: the window geometry, the warning condition, the clamped extraction,
  and Python/numpy slice semantics.
- `Pipeline`:
  - the request gate;
  - the chain of remote and library steps;
  - the outcome of a request as a datatype, with `Run` as its pure
    specification;
  - a `FileSystem` class holding directories and files;
  - the imperative `DownloadAndCutout` method, which updates that file system
    and is proved equal to `Run`.

The foreign steps are inputs held in a `Services` value. These are the two
HTTP GETs, the UTF-8 decode with the `encoding=` rewrite plus the VOTable
parse, bz2, and FITS open with the WCS projection. One `Services` value describes the services
as seen by one request. `siap` is the single response to this request's query,
so it is an `Option` and is not keyed by the query. `voTable`, `download` and
`bunzip` are partial maps from what the step receives to what it produces.
`openFits` maps file bytes to a frame whose `x` and `y` stand for
`all_world2pix` of this request's RA and Dec, so it is not keyed by the
coordinates either. A missing entry, or a `None` query response, means the
step raised. The printed diagnostics become the `Outcome` a request ends with:

- `Skipped`
- `InvalidInput(Coordinates | Name | Folder)`
- `NetworkFailure(SiapQuery | ImageDownload)`
- `ParseFailure(VoTable | FitsFile)`
- `MissingBand`
- `DecompressFailure`
- `Written(path, pixels, undersized)`, where `undersized` is the warning

`Report.calls` lists the network requests issued, in order.

## Model

| member | source | states |
|---|---|---|
| `Text.Contains` | SDSS_FITS_CUTOUT_TOOL.py:69 | `sub in s` holds exactly when `sub` occurs in `s` at some index. |
| `Text.EmptyOccursEverywhere` | SDSS_FITS_CUTOUT_TOOL.py:69 | The empty string is contained in every string. |
| `Band.FirstBandRow` | SDSS_FITS_CUTOUT_TOOL.py:67-74 | No row is chosen exactly when no Title contains "Filter r". A chosen row is an r-band row with no r-band row before it. |
| `Band.FirstBandRowIsFirstMatch` | SDSS_FITS_CUTOUT_TOOL.py:67-71 | Whichever row is the first r-band row in table order is the one chosen, so no later row is. |
| `Band.SelectRBand` | SDSS_FITS_CUTOUT_TOOL.py:67-74 | The loop with `break` returns None exactly when no row matches. Otherwise it returns the row that is the first match in table order. |
| `Cutout.TruncateTowardZero` | SDSS_FITS_CUTOUT_TOOL.py:104 | `int(x)` is the integer part of `x`, truncated toward zero for negative values too. |
| `Cutout.ClampWindow` | SDSS_FITS_CUTOUT_TOOL.py:106-116 | `x0 >= 0`, `y0 >= 0`, `x1 <= nx` and `y1 <= ny`. Each side is at most 128. A centre at least 64 from both edges gives exactly `[p-64, p+64)`. A centre inside the image lies inside the window. The warning is raised exactly when the centre is within 64 pixels of an edge. |
| `Cutout.Extract` | SDSS_FITS_CUTOUT_TOOL.py:119 | The corrected slice has `max(0, y1-y0)` rows of `max(0, x1-x0)` pixels. Pixel `(i, j)` is image pixel `(y0+i, x0+j)`. |
| `Cutout.CutOut` | SDSS_FITS_CUTOUT_TOOL.py:106-119 | The written cutout is exactly the image inside the clamped window. It has `Extent(y0, y1)` rows of `Extent(x0, x1)` pixels, and pixel `(i, j)` is image pixel `(y0+i, x0+j)`, so nothing is padded. It is never larger than 128 by 128. Its warning flag is set exactly when the centre is within 64 pixels of an edge. |
| `Cutout.InteriorCutoutIsFull` | SDSS_FITS_CUTOUT_TOOL.py:111-117 | A centre away from every edge gives an exactly 128 by 128 cutout, with no warning. Its rows are the image rows `py-64 ..` sliced `[px-64, px+64)`. |
| `Cutout.NearEdgeShortensCutout` | SDSS_FITS_CUTOUT_TOOL.py:111-119 | A centre within 64 pixels of the left or right edge gives rows shorter than 128. One within 64 pixels of the top or bottom edge gives fewer than 128 rows. |
| `Cutout.Undersized` | SDSS_FITS_CUTOUT_TOOL.py:116 | The warning condition: either side of the clamped window is shorter than 128. `ClampWindow` proves it equivalent to the centre being near an edge. |
| `Cutout.CutoutContainsTarget` | SDSS_FITS_CUTOUT_TOOL.py:103-119 | When the target pixel is inside the image, the cutout keeps it at its offset from the window corner. |
| `Cutout.SliceBound` | SDSS_FITS_CUTOUT_TOOL.py:119 | One slice bound: an index in `[0, len]` is kept. A negative index counts from the end. Anything beyond `len` becomes `len`, and anything before `-len` becomes 0. |
| `Cutout.SliceRange` | SDSS_FITS_CUTOUT_TOOL.py:119 | The slice `[start:stop]` starts at the normalised start. It ends at the normalised stop, or is empty when that stop is not after the start. The result satisfies `lo <= hi <= len`. |
| `Cutout.ExtractAsWritten` | SDSS_FITS_CUTOUT_TOOL.py:119 | `data[y0:y1, x0:x1]` under numpy slice normalisation never has more rows than the image or wider rows than the image. Its relation to the window is stated by `AsWrittenAgreesWithoutWrap` and `WrappedCutoutWidth`. |
| `Cutout.AsWrittenAgreesWithoutWrap` | SDSS_FITS_CUTOUT_TOOL.py:111-119 | When `px >= -64` and `py >= -64`, the tool's slice equals the clamped extraction. |
| `Cutout.WrappedCutoutWidth` | SDSS_FITS_CUTOUT_TOOL.py:112-119 | For every `px < -64` with `nx + px + 64 > 0` and a centre row inside the image, the window is empty. Yet each row of the tool's slice has `nx + px + 64` pixels, taken from the left of the image row. That exceeds 128 when `nx + px + 64 > 128`. |
| `Cutout.WrappedCutoutHeight` | SDSS_FITS_CUTOUT_TOOL.py:114-119 | For every `py < -64` with `ny + py + 64 > 0` and a centre column inside the image, the window has no rows. Yet the tool's slice has `ny + py + 64` rows. |
| `Pipeline.OutputPath` | SDSS_FITS_CUTOUT_TOOL.py:18 | The output path is never empty and starts with the folder followed by `/`. |
| `Pipeline.CoordinatesValid` | SDSS_FITS_CUTOUT_TOOL.py:23 | Dec in [-90, 90] and RA in [0, 360). |
| `Pipeline.RightAscensionBounds` | SDSS_FITS_CUTOUT_TOOL.py:23 | RA = 0 is accepted and RA = 360 is rejected. |
| `Pipeline.Gate` | SDSS_FITS_CUTOUT_TOOL.py:17-33 | An existing output means Skipped, whatever the coordinates. Otherwise the first failing check, in the order coordinates, name, folder, names the invalid field. The gate passes exactly when all three checks hold. It only ever stops with Skipped or InvalidInput. |
| `Pipeline.FetchFrame` | SDSS_FITS_CUTOUT_TOOL.py:49-95 | Each failing step gives its own outcome, exactly when that step is the first to fail: NetworkFailure(SiapQuery) when the query raised, ParseFailure(VoTable), MissingBand, NetworkFailure(ImageDownload), DecompressFailure, ParseFailure(FitsFile). An image URL is requested exactly when the table has an r-band row, and it is the first match's URL. The frame delivered is the one opened from that URL's decompressed download. |
| `Pipeline.Run` | SDSS_FITS_CUTOUT_TOOL.py:15-127 | An existing output gives Skipped with no request. A failure after the gate becomes the request's outcome unchanged, and NetworkFailure(SiapQuery) happens exactly when the gate passed and the query raised. A stop at the gate is the request's outcome, with no request issued. Otherwise the SIAP query is first, and a failure before an r-band row is chosen (query, table parse, no r-band row) issues no image request. Written is always to `OutputPath(folder, name)`, after both requests, with at most 128 by 128 pixels. |
| `Pipeline.WrittenPixelsAreClampedRegion` | SDSS_FITS_CUTOUT_TOOL.py:97-127 | When Written, the pixels are those of the frame opened from the downloaded image, inside the clamped window around the target, pixel by pixel. |
| `Pipeline.WrittenIffAllStepsSucceed` | SDSS_FITS_CUTOUT_TOOL.py:49-127 | A file is written exactly when the gate, query, parse, band match, download, decompression and FITS open all succeed. |
| `Pipeline.InvalidCoordinatesMakeNoRequest` | SDSS_FITS_CUTOUT_TOOL.py:23-50 | If the file is absent, out-of-range coordinates end the request as InvalidInput before any network request. |
| `Pipeline.MissingBandIffNoRBandRow` | SDSS_FITS_CUTOUT_TOOL.py:67-74 | The outcome is MissingBand exactly when the gate passed, the table parsed and no Title contains "Filter r". No file is written then. |
| `Pipeline.DownloadsFirstRBandRow` | SDSS_FITS_CUTOUT_TOOL.py:67-80 | The image requested is the URL of the first r-band row in table order. |
| `Pipeline.UndersizedCutoutIsStillWritten` | SDSS_FITS_CUTOUT_TOOL.py:116-127 | With the centre near an edge, the warning is raised and the file is still written. |
| `Pipeline.InteriorTargetWritesFullCutout` | SDSS_FITS_CUTOUT_TOOL.py:106-127 | With the centre away from the edges, a 128 by 128 cutout is written without a warning. |
| `Pipeline.PrepareFolderAsWritten` | SDSS_FITS_CUTOUT_TOOL.py:15-16 | An existing folder leaves the directories as they are. An absent non-empty folder is added. For an absent empty folder, `os.makedirs` raises. |
| `Pipeline.PrepareFolder` | SDSS_FITS_CUTOUT_TOOL.py:15-16 | The corrected folder step changes nothing for an existing folder. It creates an absent non-empty folder and nothing else, and never creates the empty path. |
| `Pipeline.RunAsWritten` | SDSS_FITS_CUTOUT_TOOL.py:15-33 | The folder step as written, followed by `Run` with the corrected extraction, raises exactly when the folder is empty and absent. |
| `Pipeline.AsWrittenNeverRejectsFolder` | SDSS_FITS_CUTOUT_TOOL.py:15-33 | As written, a request either raises or ends in an outcome other than InvalidInput(Folder), so the "Invalid folder location" branch is unreachable. |
| `Pipeline.EmptyFolderIsRejected` | SDSS_FITS_CUTOUT_TOOL.py:27-33 | With the corrected folder step, an empty folder ends in InvalidInput with no request. It is InvalidInput(Folder) once the coordinates and name pass. |
| `Pipeline.FileSystem.Exists` | SDSS_FITS_CUTOUT_TOOL.py:19 | `os.path.exists`: a directory or a file is at the path. |
| `Pipeline.FileSystem.MakeDirs` | SDSS_FITS_CUTOUT_TOOL.py:16 | Adds the folder to the directories and leaves the files alone. |
| `Pipeline.FileSystem.WriteTo` | SDSS_FITS_CUTOUT_TOOL.py:127 | Writing with `overwrite=True` replaces the image at that path and changes nothing else. |
| `Pipeline.DownloadAndCutout` | SDSS_FITS_CUTOUT_TOOL.py:10-130 | The early-return method ends with the outcome and requests that `Run` gives. The only file it changes is `OutputPath(folder, name)`, and only when Written. The directories change only by the folder step. |
| `Pipeline.DownloadTwice` | SDSS_FITS_CUTOUT_TOOL.py:18-21 | After a run that wrote or skipped, the same request is Skipped with no network request. The file keeps the first run's contents. |

## Left out

- Directory creation: `os.makedirs` creating parent directories, or failing for a non-empty path (permissions, an existing file in the way), is not modelled. Only the leaf folder is recorded, and a non-empty folder is always created.
- Python's `isinstance(name, str)` and `isinstance(folder_location, str)`: name and folder are strings in this model, so only the emptiness tests remain. `os.path.exists` on non-string arguments is not modelled.
- Float coordinates are modelled as `real`. NaN, which fails every comparison and is therefore rejected by the source, does not exist in the model.
- The HTTP requests, the UTF-8 decode with replacement, the regular-expression rewrite of the `encoding=` declaration, the VOTable parse, bz2 and `fits.open` are modelled only as steps that succeed with some result or raise. The content they produce is an input.
- The SIAP URL text, including the `size_deg` constant and the float formatting of RA and Dec, is not modelled. The query is recorded as `QuerySiap(ra, dec)`.
- The WCS projection `all_world2pix` is an input: each opened frame carries the target's fractional pixel position. The recomputed cutout WCS (`w.slice`, `to_header`) is not modelled, so the written file holds only the pixels.
- The metadata table is modelled as rows that always carry a Title and a url. A parsed table without a `Title` column (line 69) or a `url` column (line 76) makes the source raise an uncaught `KeyError`, which is not modelled.
- FITS files whose primary HDU is not a two-dimensional image, and exceptions from WCS construction or projection, are not modelled. The source does not catch these.
- Paths are compared as raw strings and are not normalised. `"out"`, `"out/"` and `"./out"` are different folders in the model, and `"out//n.fits"` is a different file from `"out/n.fits"`, although `os.path.exists` treats each group as one path. A rerun with a differently spelled folder is therefore not seen as already present.
- A failing `writeto` is not modelled. Such an exception would escape the function.
- The console output (`print`) and `hdul.close()` are not modelled. The diagnostics appear as `Outcome` values, and the undersized warning as the `undersized` flag of `Written`.
- Pixel values are `real`. FITS integer and float pixel types are not distinguished.
- `Run` and `DownloadAndCutout` use the corrected folder step and the corrected extraction listed under Findings. The as-written folder step is modelled beside them by `PrepareFolderAsWritten` and `RunAsWritten` (the folder step as written, followed by `Run` with the corrected extraction), and the as-written slice by `ExtractAsWritten`.

## Findings

| source | as written | input that shows it | evidently intended | confidence | as-written member | corrected member |
|---|---|---|---|---|---|---|
| SDSS_FITS_CUTOUT_TOOL.py:112-119 | A negative `x1 = px + 64` (or `y1`) is taken by numpy as an index from the far edge, so `data[y0:y1, x0:x1]` returns columns up to `nx + px + 64`. | `px = -65`, image width 130 or more: the window `[0, -1)` is empty, but the slice is `nx - 1` columns wide. | The part of the image inside the clamped window: empty here, never wider than 128. | not executed; the SIAP position query may never return a frame whose centre is that far outside it | `Cutout.ExtractAsWritten`, `Cutout.WrappedCutoutWidth`, `Cutout.WrappedCutoutHeight` | `Cutout.Extract`, `Cutout.CutOut` |
| SDSS_FITS_CUTOUT_TOOL.py:15-33 | `os.path.exists("")` is false, so `os.makedirs("")` runs and raises `FileNotFoundError` before the empty-folder check at lines 31-33. | `folder_location = ""` | The request ends with "Invalid folder location" and returns. | not executed; follows from how `os.makedirs` treats the empty path | `Pipeline.PrepareFolderAsWritten`, `Pipeline.AsWrittenNeverRejectsFolder` | `Pipeline.PrepareFolder`, `Pipeline.EmptyFolderIsRejected` |
