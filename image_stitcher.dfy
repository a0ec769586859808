/** The `ImageStitcher` class: the choice of stitching mode, the status
    message table, the configuration setters, and the decisions `stitchImages`
    takes around the calls into the vision library.

    The vision library is not modelled. Its results are inputs instead:
    - the directory listing, together with what decoding each listed file
      yields (`files`);
    - the status the stitcher reports (`status`);
    - whether writing the result succeeded (`writeOk`).
    `StitchImages` returns its boolean verdict and the calls into the library
    it made, in order (`calls`). That makes "no later file is read" and "the
    stitcher is never invoked" statements about the call trace. */
module ImageStitching {
  import opened Wrappers

  /** The two modes the library's stitcher can be created in. */
  datatype Mode = Panorama | Scans

  /** A stitcher status code, with the library's numbering. */
  type Status = int

  const OK: Status := 0
  const ERR_NEED_MORE_IMGS: Status := 1
  const ERR_HOMOGRAPHY_EST_FAIL: Status := 2
  const ERR_CAMERA_PARAMS_ADJUST_FAIL: Status := 3

  /** The static message table, built once and only ever read. */
  const ERROR_MESSAGES: map<Status, string> := map[
    OK := "OK",
    ERR_NEED_MORE_IMGS := "Not enough images for stitching",
    ERR_HOMOGRAPHY_EST_FAIL := "Homography estimation failed",
    ERR_CAMERA_PARAMS_ADJUST_FAIL := "Camera parameter adjustment failed"
  ]

  const UNKNOWN_ERROR := "Unknown error"

  /** `getStitchingErrorMessage`: a total lookup with a fallback. Being a
      function of its argument alone, its result depends only on the status. */
  function StitchingErrorMessage(status: Status): (msg: string)
    ensures status in ERROR_MESSAGES ==> msg == ERROR_MESSAGES[status]
    ensures status !in ERROR_MESSAGES ==> msg == UNKNOWN_ERROR
  {
    if status in ERROR_MESSAGES then ERROR_MESSAGES[status] else UNKNOWN_ERROR
  }

  /** The fallback message is given for exactly the four statuses outside the
      table: no table entry reads "Unknown error". */
  lemma UnknownErrorExactlyOutsideTable(status: Status)
    ensures StitchingErrorMessage(status) == UNKNOWN_ERROR <==>
            status !in {OK, ERR_NEED_MORE_IMGS, ERR_HOMOGRAPHY_EST_FAIL, ERR_CAMERA_PARAMS_ADJUST_FAIL}
  {
  }

  /** The constructor's mode choice: the method string `"scans"` selects
      Scans; `"panorama"`, the empty string and any other string select
      Panorama, and no string is rejected. */
  function ModeFor(stitchingMethod: string): (m: Mode)
    ensures m == Scans <==> stitchingMethod == "scans"
    ensures m == Panorama <==> stitchingMethod != "scans"
  {
    if stitchingMethod != "" then
      if stitchingMethod == "panorama" then Panorama
      else if stitchingMethod == "scans" then Scans
      else Panorama
    else Panorama
  }

  /** A decoded image; only its size matters here. */
  datatype Image = Image(cols: nat, rows: nat)

  /** One entry of the directory listing and what decoding it yields
      (None for the empty image the library returns on failure). */
  datatype File = File(path: string, decoded: Option<Image>)

  /** A rectangle in image coordinates: columns x .. x+width-1, rows y .. y+height-1. */
  datatype Rect = Rect(x: int, y: int, width: int, height: int)

  /** An entry of the image list handed to the stitcher: the region `region`
      of the `source`-th listed file. */
  datatype Piece = Piece(source: nat, region: Rect)

  /** A call into the vision library. */
  datatype Call =
    | Glob(pattern: string)
    | Read(path: string)
    | SetPanoConfidence(threshold: real)
    | Stitch(mode: Mode, images: seq<Piece>)
    | Show
    | Write(path: string)

  /** The verdict of `stitchImages` and the calls it made. */
  datatype Outcome = Outcome(ok: bool, calls: seq<Call>)

  /** The state of an `ImageStitcher`: the mode its stitcher handle was
      created with, and the six configuration fields. */
  datatype Settings = Settings(
    mode: Mode,
    directoryPath: string,
    imageExtension: string,
    outputFilePath: string,
    confidenceThreshold: real,
    debugMode: bool,
    d3: bool)

  /** The glob pattern: the directory, a slash, a star, a dot and the extension. */
  function Pattern(s: Settings): (r: string)
    ensures |r| == |s.directoryPath| + 3 + |s.imageExtension|
    ensures r[..|s.directoryPath|] == s.directoryPath
    ensures r[|s.directoryPath|..|s.directoryPath| + 3] == "/*."
    ensures r[|s.directoryPath| + 3..] == s.imageExtension
  {
    s.directoryPath + "/*." + s.imageExtension
  }

  // ---------------------------------------------------------------------
  // Chunk geometry

  function FullRect(img: Image): Rect {
    Rect(0, 0, img.cols, img.rows)
  }

  /** The i-th of the three column chunks of an image. */
  function ChunkRect(img: Image, i: nat): Rect {
    Rect(i * (img.cols / 3), 0, img.cols / 3, img.rows)
  }

  /** Column c lies inside r. */
  predicate HasColumn(r: Rect, c: int) {
    r.x <= c < r.x + r.width
  }

  /** The three chunks are regions the library accepts for this image:
      non-negative, inside the image, full height, starting at row 0. */
  lemma ChunkInsideImage(img: Image, i: nat)
    requires i < 3
    ensures var r := ChunkRect(img, i);
      && 0 <= r.x && 0 <= r.width && r.x + r.width <= 3 * (img.cols / 3) <= img.cols
      && r.y == 0 && r.height == img.rows
  {
  }

  /** Chunk i+1 starts at the column where chunk i ends. */
  lemma ChunksAdjacent(img: Image, i: nat)
    requires i < 2
    ensures ChunkRect(img, i + 1).x == ChunkRect(img, i).x + ChunkRect(img, i).width
  {
  }

  /** Two different chunks share no column. */
  lemma ChunksDisjoint(img: Image, i: nat, j: nat, c: int)
    requires i < 3 && j < 3 && i != j
    ensures !(HasColumn(ChunkRect(img, i), c) && HasColumn(ChunkRect(img, j), c))
  {
    var w := img.cols / 3;
    assert ChunkRect(img, i).x == i * w && ChunkRect(img, j).x == j * w;
    if i < j {
      assert i * w + w <= j * w by { ChunksOrdered(w, i, j); }
    } else {
      assert j * w + w <= i * w by { ChunksOrdered(w, j, i); }
    }
  }

  lemma ChunksOrdered(w: nat, i: nat, j: nat)
    requires i < j
    ensures i * w + w <= j * w
  {
    assert (j - i) * w >= w by {
      assert j - i >= 1;
    }
    assert j * w == i * w + (j - i) * w;
  }

  /** Together the chunks cover exactly the columns before the last
      `cols % 3` ones; those are dropped. */
  lemma ChunksCoverAllButRemainder(img: Image, c: int)
    ensures (HasColumn(ChunkRect(img, 0), c) || HasColumn(ChunkRect(img, 1), c) || HasColumn(ChunkRect(img, 2), c))
            <==> 0 <= c < img.cols - img.cols % 3
  {
    var w := img.cols / 3;
    assert img.cols - img.cols % 3 == 3 * w;
    assert ChunkRect(img, 1).x == w;
    assert ChunkRect(img, 2).x == 2 * w;
  }

  /** Nothing guards narrow images: below three columns every chunk is empty. */
  lemma NarrowImageChunksEmpty(img: Image, i: nat)
    requires img.cols < 3
    ensures ChunkRect(img, i).width == 0
    ensures forall c :: !HasColumn(ChunkRect(img, i), c)
  {
  }

  // ---------------------------------------------------------------------
  // The image list

  /** The three chunks of the k-th file, in chunk order. */
  function Chunks(k: nat, img: Image): seq<Piece> {
    [Piece(k, ChunkRect(img, 0)), Piece(k, ChunkRect(img, 1)), Piece(k, ChunkRect(img, 2))]
  }

  /** What the k-th file contributes to the image list. */
  function Contribution(k: nat, img: Image, d3: bool): seq<Piece> {
    if d3 then Chunks(k, img) else [Piece(k, FullRect(img))]
  }

  /** The splitting step of `stitchImages`: append the three chunks of the
      n-th image, each `cols / 3` wide and of full height, to the image list. */
  method PushChunks(images: seq<Piece>, n: nat, img: Image) returns (result: seq<Piece>)
    ensures result == images + Chunks(n, img)
  {
    result := images;
    var chunkWidth := img.cols / 3;
    for i := 0 to 3
      invariant result == images + Chunks(n, img)[..i]
    {
      result := result + [Piece(n, Rect(i * chunkWidth, 0, chunkWidth, img.rows))];
    }
  }

  /** The first n files all decode. */
  predicate ReadableUpTo(files: seq<File>, n: nat) {
    forall j :: 0 <= j < n && j < |files| ==> files[j].decoded.Some?
  }

  predicate AllReadable(files: seq<File>) {
    ReadableUpTo(files, |files|)
  }

  /** The image list built from the first n files, in listing order. */
  function ImageList(files: seq<File>, n: nat, d3: bool): seq<Piece>
    requires n <= |files| && ReadableUpTo(files, n)
  {
    if n == 0 then []
    else ImageList(files, n - 1, d3) + Contribution(n - 1, files[n - 1].decoded.value, d3)
  }

  /** Each image contributes three entries with splitting on and one without. */
  lemma {:induction false} ImageListLength(files: seq<File>, n: nat, d3: bool)
    requires n <= |files| && ReadableUpTo(files, n)
    ensures |ImageList(files, n, d3)| == (if d3 then 3 else 1) * n
  {
    if n > 0 {
      ImageListLength(files, n - 1, d3);
    }
  }

  /** Without splitting, the list is the decoded images themselves, whole,
      in listing order. */
  lemma {:induction false} ImageListWhole(files: seq<File>, n: nat, k: nat)
    requires n <= |files| && ReadableUpTo(files, n) && k < n
    ensures |ImageList(files, n, false)| == n
    ensures ImageList(files, n, false)[k] == Piece(k, FullRect(files[k].decoded.value))
  {
    ImageListLength(files, n, false);
    ImageListLength(files, n - 1, false);
    if k < n - 1 {
      ImageListWhole(files, n - 1, k);
    }
  }

  /** With splitting, entry 3k+i is chunk i of the k-th image: file order
      first, chunk order second. */
  lemma {:induction false} ImageListSplit(files: seq<File>, n: nat, k: nat, i: nat)
    requires n <= |files| && ReadableUpTo(files, n) && k < n && i < 3
    ensures |ImageList(files, n, true)| == 3 * n
    ensures ImageList(files, n, true)[3 * k + i] == Piece(k, ChunkRect(files[k].decoded.value, i))
  {
    ImageListLength(files, n, true);
    ImageListLength(files, n - 1, true);
    if k < n - 1 {
      ImageListSplit(files, n - 1, k, i);
    }
  }

  // ---------------------------------------------------------------------
  // The decision logic of stitchImages

  /** The position of the first file that fails to decode, or the number of
      files when all of them decode. */
  function FirstUnreadable(files: seq<File>): (k: nat)
    ensures k <= |files|
    ensures ReadableUpTo(files, k)
    ensures k < |files| ==> files[k].decoded.None?
  {
    if files == [] then 0
    else if files[0].decoded.None? then 0
    else 1 + FirstUnreadable(files[1..])
  }

  /** The calls made while loading the first n files: the listing, then one
      Read per file in listing order. */
  function Loading(s: Settings, files: seq<File>, n: nat): (calls: seq<Call>)
    requires n <= |files|
    ensures |calls| == n + 1 && calls[0] == Glob(Pattern(s))
    ensures forall c :: c in calls ==> c.Glob? || c.Read?
  {
    if n == 0 then [Glob(Pattern(s))]
    else Loading(s, files, n - 1) + [Read(files[n - 1].path)]
  }

  /** Exactly the first n files are read, each once and in order. */
  lemma {:induction false} LoadingReads(s: Settings, files: seq<File>, n: nat, j: nat)
    requires j < n <= |files|
    ensures Loading(s, files, n)[j + 1] == Read(files[j].path)
  {
    if j < n - 1 {
      LoadingReads(s, files, n - 1, j);
    }
  }

  /** What happens once the image list is built, after the calls `loaded`:
      give up below two images; set the confidence and stitch, giving up on
      any status but OK; show the result in debug mode; write it when an
      output path is set, failing when the write fails. */
  function StitchStep(s: Settings, images: seq<Piece>, loaded: seq<Call>, status: Status, writeOk: bool): Outcome {
    if |images| < 2 then
      Outcome(false, loaded)
    else
      var stitched := loaded + [SetPanoConfidence(s.confidenceThreshold), Stitch(s.mode, images)];
      if status != OK then
        Outcome(false, stitched)
      else
        var shown := if s.debugMode then stitched + [Show] else stitched;
        if s.outputFilePath == "" then Outcome(true, shown)
        else Outcome(writeOk, shown + [Write(s.outputFilePath)])
  }

  /** What `stitchImages` does: list the files matching the pattern; decode
      them in order, giving up at the first that fails; build the image list,
      split into chunks when d3 is on; then `StitchStep`. */
  function Run(s: Settings, files: seq<File>, status: Status, writeOk: bool): Outcome {
    var k := FirstUnreadable(files);
    if k < |files| then
      Outcome(false, Loading(s, files, k + 1))
    else
      StitchStep(s, ImageList(files, |files|, s.d3), Loading(s, files, |files|), status, writeOk)
  }

  /** The number of images the stitcher would get is at least two exactly
      when there are two files, or one file with splitting on. */
  predicate EnoughImages(files: seq<File>, d3: bool) {
    if d3 then |files| >= 1 else |files| >= 2
  }

  /** The verdict: true exactly when every file decodes, there are enough
      images, the status is OK, and either no output path is set or the
      write succeeds. */
  lemma RunSucceedsIff(s: Settings, files: seq<File>, status: Status, writeOk: bool)
    ensures Run(s, files, status, writeOk).ok <==>
      && AllReadable(files)
      && EnoughImages(files, s.d3)
      && status == OK
      && (s.outputFilePath == "" || writeOk)
  {
    if AllReadable(files) {
      ImageListLength(files, |files|, s.d3);
    }
  }

  /** The first file that fails to decode ends the run: the result is false,
      the files after it are never read and the stitcher is never configured
      or called. */
  lemma {:induction false} RunStopsAtUnreadable(s: Settings, files: seq<File>, status: Status, writeOk: bool, k: nat)
    requires k < |files| && files[k].decoded.None? && ReadableUpTo(files, k)
    ensures var o := Run(s, files, status, writeOk);
      && !o.ok
      && o.calls == Loading(s, files, k + 1)
      && forall c :: c in o.calls ==> !c.Stitch? && !c.SetPanoConfidence?
  {
    assert FirstUnreadable(files) == k;
  }

  /** Fewer than two images after the optional split: false, and the
      stitcher is never configured or called. */
  lemma {:induction false} RunNeedsTwoImages(s: Settings, files: seq<File>, status: Status, writeOk: bool)
    requires AllReadable(files) && !EnoughImages(files, s.d3)
    ensures var o := Run(s, files, status, writeOk);
      && !o.ok
      && o.calls == Loading(s, files, |files|)
      && forall c :: c in o.calls ==> !c.Stitch? && !c.SetPanoConfidence?
  {
    ImageListLength(files, |files|, s.d3);
    assert FirstUnreadable(files) == |files|;
  }

  /** The stitcher only ever sees the complete image list: a Stitch call
      happens only when every file decodes, and it carries the list of all of
      them, in the configured mode. */
  lemma {:induction false} RunStitchesImageList(s: Settings, files: seq<File>, status: Status, writeOk: bool, c: Call)
    requires c in Run(s, files, status, writeOk).calls && c.Stitch?
    ensures AllReadable(files)
    ensures c == Stitch(s.mode, ImageList(files, |files|, s.d3))
  {
    assert FirstUnreadable(files) == |files|;
    assert c !in Loading(s, files, |files|);
  }

  /** The stitcher is configured only after every file decodes, and with
      the object's confidence threshold. */
  lemma {:induction false} RunConfiguresThreshold(s: Settings, files: seq<File>, status: Status, writeOk: bool, c: Call)
    requires c in Run(s, files, status, writeOk).calls && c.SetPanoConfidence?
    ensures AllReadable(files)
    ensures c == SetPanoConfidence(s.confidenceThreshold)
  {
    assert FirstUnreadable(files) == |files|;
    assert c !in Loading(s, files, |files|);
  }

  /** With splitting on, a single readable file yields three images and the
      stitcher is called on its three chunks. */
  lemma RunSplitsSingleImage(s: Settings, f: File, status: Status, writeOk: bool)
    requires s.d3 && f.decoded.Some?
    ensures Stitch(s.mode, Chunks(0, f.decoded.value)) in Run(s, [f], status, writeOk).calls
  {
    var img := f.decoded.value;
    assert ImageList([f], 1, true) == Chunks(0, img);
    var o := Run(s, [f], status, writeOk);
    assert o.calls[3] == Stitch(s.mode, Chunks(0, img));
  }

  /** The result is shown exactly when every file decodes, there are enough
      images, the stitch succeeds and debug mode is on. */
  lemma RunShowsIff(s: Settings, files: seq<File>, status: Status, writeOk: bool)
    ensures Show in Run(s, files, status, writeOk).calls <==>
      AllReadable(files) && EnoughImages(files, s.d3) && status == OK && s.debugMode
  {
    var k := FirstUnreadable(files);
    if k < |files| {
      assert Show !in Loading(s, files, k + 1);
    } else {
      ImageListLength(files, |files|, s.d3);
      assert Show !in Loading(s, files, |files|);
    }
  }

  // ---------------------------------------------------------------------
  // The class

  /** An `ImageStitcher` object. `stitcherMode` stands for the stitcher
      handle created by the constructor; the library keeps nothing else of
      it that this model needs. */
  class ImageStitcher {
    var stitcherMode: Mode
    var directoryPath: string
    var imageExtension: string
    var outputFilePath: string
    var confidenceThreshold: real
    var debugMode: bool
    var d3: bool

    /** The object's state as a value. */
    function State(): Settings
      reads this
    {
      Settings(stitcherMode, directoryPath, imageExtension, outputFilePath,
               confidenceThreshold, debugMode, d3)
    }

    /** Creates the stitcher in the mode the method string selects; every
        other field keeps its declared default (empty strings, threshold
        0.8, debug and d3 off). */
    constructor (directoryPath: string, stitchingMethod: string)
      ensures State() == Settings(ModeFor(stitchingMethod), directoryPath, "", "", 0.8, false, false)
    {
      this.directoryPath := directoryPath;
      imageExtension := "";
      outputFilePath := "";
      confidenceThreshold := 0.8;
      debugMode := false;
      d3 := false;
      var mode := Panorama;
      if stitchingMethod != "" {
        if stitchingMethod == "panorama" {
          mode := Panorama;
        } else if stitchingMethod == "scans" {
          mode := Scans;
        }
      }
      stitcherMode := mode;
    }

    method SetDirectoryPath(directoryPath: string)
      modifies this
      ensures State() == old(State()).(directoryPath := directoryPath)
    {
      this.directoryPath := directoryPath;
    }

    method SetImageExtension(imageExtension: string)
      modifies this
      ensures State() == old(State()).(imageExtension := imageExtension)
    {
      this.imageExtension := imageExtension;
    }

    method SetConfidenceThreshold(confidenceThreshold: real)
      modifies this
      ensures State() == old(State()).(confidenceThreshold := confidenceThreshold)
    {
      this.confidenceThreshold := confidenceThreshold;
    }

    method SetOutputFilePath(outputFilePath: string)
      modifies this
      ensures State() == old(State()).(outputFilePath := outputFilePath)
    {
      this.outputFilePath := outputFilePath;
    }

    method SetDebugMode(debugMode: bool)
      modifies this
      ensures State() == old(State()).(debugMode := debugMode)
    {
      this.debugMode := debugMode;
    }

    method SetD3Optimization(enable: bool)
      modifies this
      ensures State() == old(State()).(d3 := enable)
    {
      d3 := enable;
    }

    /** `stitchImages`. `files` is what listing the pattern returns, each with
        what decoding it yields; `status` is what the stitcher reports;
        `writeOk` is whether writing the result succeeds. */
    method StitchImages(files: seq<File>, status: Status, writeOk: bool) returns (ok: bool, calls: seq<Call>)
      ensures Outcome(ok, calls) == Run(State(), files, status, writeOk)
    {
      ghost var st := State();
      var images: seq<Piece> := [];
      calls := [Glob(directoryPath + "/*." + imageExtension)];
      for n := 0 to |files|
        invariant ReadableUpTo(files, n)
        invariant calls == Loading(st, files, n)
        invariant images == ImageList(files, n, st.d3)
      {
        calls := calls + [Read(files[n].path)];
        if files[n].decoded.None? {
          RunStopsAtUnreadable(st, files, status, writeOk, n);
          return false, calls;
        }
        var img := files[n].decoded.value;
        if d3 {
          images := PushChunks(images, n, img);
        } else {
          // Use the whole image.
          images := images + [Piece(n, Rect(0, 0, img.cols, img.rows))];
        }
      }
      assert FirstUnreadable(files) == |files|;

      if |images| < 2 {
        return false, calls;
      }

      calls := calls + [SetPanoConfidence(confidenceThreshold), Stitch(stitcherMode, images)];
      if status != OK {
        return false, calls;
      }

      if debugMode {
        calls := calls + [Show];
      }

      if outputFilePath != "" {
        calls := calls + [Write(outputFilePath)];
        if !writeOk {
          return false, calls;
        }
      }
      return true, calls;
    }
  }
}
