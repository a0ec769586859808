# Image stitching: a verified model

This project models the logic that the Imaging repository owns around
OpenCV's `cv::Stitcher` and Boost.Program_options. It has three parts.

- **`ImageStitcher`** (`image_stitcher.dfy`, module `ImageStitching`).
  - The constructor maps the method string to a stitching mode.
  - `getStitchingErrorMessage` looks up the status message table, with a fallback.
  - Six setters hold the configuration.
  - `stitchImages` decides what happens:
    - list the files matching the pattern and decode them in order, giving up at the first that fails;
    - when d3 splitting is on, cut each image into three column chunks of `cols / 3`;
    - give up below two images;
    - set the confidence and stitch, giving up on any status but OK;
    - show the result in debug mode, then write it when an output path is set.
- **`CommandLineParams`** (`stitching_cli.dfy`, module `StitchingCli`).
  - The option defaults, and the rewrite of an empty output path to `"stitched_image." + extension`.
  - The sticky help and version flags (`set_flag`).
  - Validation of the method (exactly "panorama" or "scans") and of the confidence (the closed range [0, 1]).
- **The demo's `main`** (`stitching_demo.dfy`, module `StitchingDemo`). It reads the parameters, then answers help or version, or configures a stitcher and runs it. It maps each outcome to an exit code of 0 or -1 and to its output lines on standard output or standard error.

`wrappers.dfy` holds the `Option` type.

Neither the vision library nor the option parser is modelled. What they return becomes an input instead:

- `files` is the directory listing, with what decoding each file yields (`None` for the empty image returned on failure);
- `status` is the stitcher's status code, numbered as the library numbers it;
- `writeOk` is whether writing the result succeeded;
- `CommandLine` is either a parse failure or the values the user supplied.

`StitchImages` returns its verdict together with the calls it made into the library, in order (`Glob`, `Read`, `SetPanoConfidence`, `Stitch`, `Show`, `Write`). That lets "no later file is read" and "the stitcher is never called" be stated about the returned calls. An exception is a returned `Option<CliError>`.

The two classes are Dafny classes whose fields the methods update in place. The pure parts are specification functions: `ModeFor`, `StitchingErrorMessage`, `ImageList`, `Run`, `Resolve`, `ReadParamsError` and `Demo`. Each method is proved equal to its function, and the properties are lemmas about the functions.

The `CommandLineParams` getters are `reads`-only functions that return the stored field. `OptionsDescript` returns the `const` description object, which is the one `ReadParams` fills in.

## Model

| member | source | states |
|---|---|---|
| ImageStitching.StitchingErrorMessage | src/image_stitcher.cpp:49-53 | A status in the table gets its table message; any other status gets "Unknown error". The result depends on the status alone. |
| ImageStitching.UnknownErrorExactlyOutsideTable | src/image_stitcher.cpp:23-28 | "Unknown error" is returned for exactly the statuses other than OK, ERR_NEED_MORE_IMGS, ERR_HOMOGRAPHY_EST_FAIL and ERR_CAMERA_PARAMS_ADJUST_FAIL. No table entry reads "Unknown error". |
| ImageStitching.ModeFor | src/image_stitcher.cpp:34-45 | "scans" selects Scans. "panorama", the empty string and every other string select Panorama, and no string is rejected. |
| ImageStitching.Pattern | src/image_stitcher.cpp:90 | The glob pattern is the directory, then "/*.", then the extension, with nothing added or dropped. |
| ImageStitching.ChunkInsideImage | src/image_stitcher.cpp:103-105 | Chunk i < 3 has a non-negative x and width, starts at row 0, has full height and ends within `3 * (cols / 3) <= cols`. |
| ImageStitching.ChunksAdjacent | src/image_stitcher.cpp:103-105 | Chunk i+1 starts at the column where chunk i ends. |
| ImageStitching.ChunksDisjoint | src/image_stitcher.cpp:103-107 | Two different chunks of an image share no column. |
| ImageStitching.ChunksCoverAllButRemainder | src/image_stitcher.cpp:103-107 | A column lies in some chunk exactly when `0 <= c < cols - cols % 3`, so the last `cols % 3` columns are dropped. |
| ImageStitching.NarrowImageChunksEmpty | src/image_stitcher.cpp:103-105 | Nothing guards images below three columns: every chunk then has width 0 and contains no column. |
| ImageStitching.PushChunks | src/image_stitcher.cpp:100-107 | The splitting loop appends exactly the three chunks of the image, in chunk order, to the image list. |
| ImageStitching.ImageListLength | src/image_stitcher.cpp:93-113 | The image list has three entries per file with splitting on, and one per file without. |
| ImageStitching.ImageListWhole | src/image_stitcher.cpp:109-112 | Without splitting, entry k of the image list is the k-th decoded image, whole (listing order). |
| ImageStitching.ImageListSplit | src/image_stitcher.cpp:100-107 | With splitting, entry 3k+i is chunk i of the k-th image: file order first, chunk order second. |
| ImageStitching.FirstUnreadable | src/image_stitcher.cpp:93-98 | The position of the first file that fails to decode: every earlier file decodes. It is the file count when all decode. |
| ImageStitching.Loading | src/image_stitcher.cpp:90-94 | Loading starts with the listing of the pattern, and makes no call other than the listing and the reads. |
| ImageStitching.LoadingReads | src/image_stitcher.cpp:93-94 | The j-th read is of the j-th listed file: files are read once each, in listing order. |
| ImageStitching.RunSucceedsIff | src/image_stitcher.cpp:85-151 | `stitchImages` returns true exactly when every file decodes, there are at least two images after splitting, the status is OK, and either no output path is set or the write succeeds. |
| ImageStitching.RunStopsAtUnreadable | src/image_stitcher.cpp:93-98 | The first file that fails to decode ends the run. The result is false, no later file is read, and the stitcher is never configured or called. |
| ImageStitching.RunNeedsTwoImages | src/image_stitcher.cpp:115-119 | Fewer than two images gives false, and the stitcher is never configured or called. |
| ImageStitching.RunStitchesImageList | src/image_stitcher.cpp:121-128 | A stitch call happens only when every file decodes. It passes the complete image list, in the mode the stitcher was created with. |
| ImageStitching.RunConfiguresThreshold | src/image_stitcher.cpp:121-123 | The stitcher is configured only after every file decodes, and always with the object's confidence threshold. |
| ImageStitching.RunSplitsSingleImage | src/image_stitcher.cpp:100-119 | With splitting on, one readable file yields three images, passes the two-image check and is stitched as its three chunks. |
| ImageStitching.RunShowsIff | src/image_stitcher.cpp:136-140 | The result is shown exactly when every file decodes, there are enough images, the status is OK and debug mode is on. |
| ImageStitching.ImageStitcher.constructor | src/image_stitcher.cpp:31-47 | The stitcher is created in the mode the method string selects, and the directory is stored. Every other field keeps the default declared in the header: empty extension and output path, confidence threshold 0.8, debug mode and splitting off. |
| ImageStitching.ImageStitcher.SetDirectoryPath | src/image_stitcher.cpp:55-58 | Changes the directory and nothing else. |
| ImageStitching.ImageStitcher.SetImageExtension | src/image_stitcher.cpp:60-63 | Changes the extension and nothing else. |
| ImageStitching.ImageStitcher.SetConfidenceThreshold | src/image_stitcher.cpp:65-68 | Changes the confidence threshold and nothing else. |
| ImageStitching.ImageStitcher.SetOutputFilePath | src/image_stitcher.cpp:70-73 | Changes the output path and nothing else. |
| ImageStitching.ImageStitcher.SetDebugMode | src/image_stitcher.cpp:75-78 | Changes debug mode and nothing else. |
| ImageStitching.ImageStitcher.SetD3Optimization | src/image_stitcher.cpp:80-83 | Changes the splitting flag and nothing else. This is the only way to turn splitting on. |
| ImageStitching.ImageStitcher.StitchImages | src/image_stitcher.cpp:85-151 | The verdict and the calls made equal `Run` on the object's state, which carries the properties above. |
| StitchingCli.ValidateMethod | demo/stitching_cli.cpp:39-45 | Passes exactly "panorama" and "scans". Any other method raises the invalid-method runtime error. |
| StitchingCli.AdvertisedMethodsRejected | demo/stitching_cli.cpp:15 | "cylindrical" and "spherical", which the help text of --method offers, are rejected. |
| StitchingCli.ValidateConfidence | demo/stitching_cli.cpp:47-56 | Passes exactly 0.0 <= c <= 1.0, both ends included. Anything else raises the invalid-confidence runtime error. |
| StitchingCli.DefaultOutput | demo/stitching_cli.cpp:29-32 | The output path is never empty: a non-empty path is kept, and an empty one becomes "stitched_image." and the extension. |
| StitchingCli.DefaultOutputIdempotent | demo/stitching_cli.cpp:29-32 | Defaulting an already defaulted path changes nothing, whatever the extension. |
| StitchingCli.Stored | demo/stitching_cli.cpp:13-24 | A supplied value is stored as given. A missing one takes its default: "" for the directory and output, "jpg", "panorama", 0.8. The debug switch is stored as supplied. |
| StitchingCli.Resolve | demo/stitching_cli.cpp:13-32 | Every field except the output is the stored one, so a supplied `-d`, `-e`, `-m`, `-c` or `--debug` is what gets validated and used. The output is the stored output defaulted from the resolved extension, and it is never empty. |
| StitchingCli.SuppliedOutputKept | demo/stitching_cli.cpp:29-32 | A non-empty output path the user supplies is kept unchanged. |
| StitchingCli.ResolveDefaults | demo/stitching_cli.cpp:13-18 | With no options: directory "", extension "jpg", method "panorama", confidence 0.8, debug off, output "stitched_image.jpg". |
| StitchingCli.OutputFollowsExtension | demo/stitching_cli.cpp:29-32 | Without an output path, the output follows the resolved extension, so "png" gives "stitched_image.png". |
| StitchingCli.SetFlag | demo/stitching_cli.cpp:58-64 | A flag ends up set exactly when it was set or its key is present. It is never cleared. |
| StitchingCli.SetFlagIdempotent | demo/stitching_cli.cpp:58-64 | Setting a flag twice has the effect of setting it once. |
| StitchingCli.FlagsFollowArgs | demo/stitching_cli.cpp:26-27 | The help and version flags become set exactly when the option is supplied (or the flag was already set). |
| StitchingCli.ReadParamsError | demo/stitching_cli.cpp:21-37 | A parse failure raises the parser's error. For a parsed command line, an invalid method raises the method error. With a valid method, the outcome is that of the confidence check. So nothing is raised exactly when both pass. |
| StitchingCli.ConfidenceErrorRaised | demo/stitching_cli.cpp:35-56 | A supported method with an out-of-range confidence raises the invalid-confidence runtime error. |
| StitchingCli.DefaultsValidate | demo/stitching_cli.cpp:13-36 | With no options, validation passes. |
| StitchingCli.MethodCheckedFirst | demo/stitching_cli.cpp:35-36 | When the method is invalid, the method error is raised, whatever the confidence. |
| StitchingCli.ValidationIgnoresFlags | demo/stitching_cli.cpp:26-36 | Validation raises the same error whatever the help and version flags. |
| StitchingCli.OptionsDescription.constructor | demo/stitching_cli.cpp:5-6 | The description gets its caption and starts with no options. |
| StitchingCli.CommandLineParams.constructor | demo/stitching_cli.h:91-103 | The help, version, debug and d3 flags start false, and the strings start empty. |
| StitchingCli.CommandLineParams.OptionsDescript | demo/stitching_cli.h:33 | Returns the object's own description, the one `ReadParams` fills in. |
| StitchingCli.CommandLineParams.IsHelp | demo/stitching_cli.h:46-48 | Returns the help flag unchanged, without changing the object. |
| StitchingCli.CommandLineParams.IsVersion | demo/stitching_cli.h:51-53 | Returns the version flag unchanged, without changing the object. |
| StitchingCli.CommandLineParams.GetDirectoryPath | demo/stitching_cli.h:56-58 | Returns the stored directory path. |
| StitchingCli.CommandLineParams.GetImageExtension | demo/stitching_cli.h:61-63 | Returns the stored extension. |
| StitchingCli.CommandLineParams.GetStitchingMethod | demo/stitching_cli.h:66-68 | Returns the stored method. |
| StitchingCli.CommandLineParams.GetOutputFilePath | demo/stitching_cli.h:71-73 | Returns the stored output path, which is the defaulted one after a successful read. |
| StitchingCli.CommandLineParams.GetConfidenceThreshold | demo/stitching_cli.h:76-78 | Returns the stored confidence. |
| StitchingCli.CommandLineParams.GetDebugMode | demo/stitching_cli.h:81-83 | Returns the stored debug switch. |
| StitchingCli.CommandLineParams.GetD3 | demo/stitching_cli.h:86-88 | No member assigns d3, so the getter always returns false. |
| StitchingCli.CommandLineParams.Notify | demo/stitching_cli.cpp:13-24 | Every parameter field receives its supplied value or its default. The flags are untouched. |
| StitchingCli.CommandLineParams.ReadParams | demo/stitching_cli.cpp:8-37 | Appends the eight options to the description every call. On a parse failure it raises the parser's error and leaves the fields alone. Otherwise the fields hold the resolved values and the flags are recorded. It raises exactly what `ReadParamsError` says, even when help is set. |
| StitchingDemo.StitcherSettings | demo/stitching_demo.cpp:38-44 | The demo's stitcher never splits. Its mode follows the method. Its pattern, output path, confidence threshold and debug mode come from the resolved parameters. |
| StitchingDemo.RunDemo | demo/stitching_demo.cpp:20-72 | The exit code, the output lines and the stitcher's calls equal `Demo`. |
| StitchingDemo.DemoExitCode | demo/stitching_demo.cpp:27-71 | The exit code is 0 or -1. It is 0 exactly when the parameters are valid and help or version is asked for or stitching succeeds. |
| StitchingDemo.HelpStillValidates | demo/stitching_demo.cpp:24-30 | --help with an unsupported method prints the method error and exits with -1. |
| StitchingDemo.HelpBeforeVersion | demo/stitching_demo.cpp:27-35 | With valid parameters and help asked for, the description is printed and the exit code is 0, whether or not version is also asked for. |
| StitchingDemo.StitcherOnlyWithoutFlags | demo/stitching_demo.cpp:27-38 | A stitcher is created and run exactly when the parameters are valid and neither help nor version is asked for. |
| StitchingDemo.DescriptionOnlyOnParseErrors | demo/stitching_demo.cpp:54-68 | The options description goes to standard error exactly when the command line fails to parse. |
| StitchingDemo.DemoNeverSplits | demo/stitching_demo.cpp:38-47 | The stitcher gets every listed file whole, in listing order. |
| StitchingDemo.DemoAlwaysWrites | demo/stitching_demo.cpp:43-52 | Because the output path is never empty, a successful stitch is always followed by a write to the resolved path. The exit code is 0 exactly when that write succeeds. |
| StitchingDemo.DefaultRun | demo/stitching_demo.cpp:38-47 | With no options, a stitcher is run and its first call lists the pattern `/*.jpg`. That pattern comes from the empty directory; it is not the working directory's `*.jpg`. |
| StitchingDemo.DemoConfidenceInRange | demo/stitching_demo.cpp:38-47 | Every confidence setting the demo makes carries the resolved threshold, which validation has put in [0, 1]. |
| StitchingDemo.DemoShowsIff | demo/stitching_demo.cpp:44-47 | With valid parameters and neither help nor version, the result is shown exactly when every file decodes, there are at least two files, the stitch succeeds and the resolved debug switch (--debug) is on. |

## Left out

- The vision library's operations are inputs, not models: the listing, decoding, the stitcher's algorithm, display and writing. So are the listing order and the pixel content of images, including the copy made of each chunk. Only the chunk rectangles are modelled.
- `stitchImages` returns only a boolean. The sequence of calls that `StitchImages` also returns is how the model exposes its effects; the source has no such value.
- The diagnostic and log lines of `stitchImages` ("Error reading image", the warnings with the status message) are not modelled. The `LogWarning` macro is not modelled either.
- Boost.Program_options tokenising and its errors are not modelled: unknown options, missing values, unparsable numbers. They reach the model as one `Malformed` outcome carrying the parser's message.
- ValidateConfidence: the source's confidence is a `double` and the model's is a `real`, so NaN is not represented. In the source a NaN passes both comparisons and is accepted.
- Image widths and heights are unbounded naturals. `i * chunkWidth` never exceeds `cols`, so the source's `int` arithmetic cannot overflow here.
- Exceptions raised by the vision library inside `stitchImages` are not modelled: in listing, decoding, stitching, display or writing. So are the demo's `std::exception` handler, which would then print "Error: …" instead of "Image stitching failed", and its catch-all "An unexpected error occurred." path.
- What the listing returns for a given pattern is an input. In particular, the model does not establish what the default pattern `/*.jpg` lists, or whether listing it raises.
- A decode is any `Some` image, including one of zero width or height. The source's `empty()` test would treat a zero-area image as a failed read, but decoding never yields one; the model does not exclude such inputs.
- The demo's `CommandLineParams` singleton is read once per run. The model creates one fresh object.
- Before `read_params` runs, the confidence of `CommandLineParams` is uninitialised in the source. The model leaves it unspecified.
- The stitcher handle is represented by the mode it was created with. The library's other stitcher settings are not modelled.
- The repository-root `image_stitcher.cpp` (an older copy of the class) and `main.cpp` (a standalone prototype) are not part of this model.
