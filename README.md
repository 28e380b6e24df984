# rakali — a Dafny model of the camera-calibration bookkeeping

rakali is a Python toolkit built on OpenCV for calibrating pinhole, fisheye and
stereo-fisheye cameras, and for grabbing frames from live streams. This project
models the code around the OpenCV numerics; the numerics themselves are not
modelled. The modelled parts are:

- **Object-point grids.** The three grids differ in point order.
- **The chessboard collection loop.** The first picture fixes the size, and the object and image lists grow in lockstep.
- **The cache-first points pipeline and seeded subsampling.**
- **Saving and loading records.** These are the fisheye, pinhole and stereo calibration records and the image-point caches.
- **Stereo data preparation.**
- **The rectification-map rules.** These cover the aspect check, the default sizes and K rescaling.
- **Frame plumbing.** This covers the `VideoStream` single-slot reader, `StereoFrame` and `StereoCamera`, and the capture loops that save numbered pictures. It also includes splitting a side-by-side recording, resizing, `ImageSize` and the `FPS` stopwatch.

Every OpenCV or numpy routine appears as a function-typed parameter and is never
interpreted. This covers calibration, stereo calibration, rectification,
`remap`, corner finding, `projectPoints`, `norm` and `resize`.

The file system is a `Records.Disk`, which maps paths to records: `.npz`
archives, JSON documents and pictures. A record is a `Records.Value`, the union
of the Python and numpy values that appear in those records.

Python's exceptions become `Py.Result`'s `Raise` branch. `sys.exit()` in that
scheme is `Raise(SystemExit)`.

Integer and real arithmetic is unbounded, and `int()` of a float truncates
toward zero (`Py.Trunc`).

Modules follow the source files:

| module | source |
|---|---|
| `Py` | exceptions, `int()`, `/`, slicing, `random.choices` |
| `Text` | the string operations the code relies on |
| `Records` | values, files, `np.savez`/`np.load`, `imread` |
| `Mats` | images as pixel rows; numpy slicing, `hstack`/`vstack` |
| `Grid` | the index grid behind `np.indices(...).T` / `np.mgrid[...].T` |
| `Collection` | the shared image-point collection and cache |
| `Pinhole` | `camera/pinhole.py` |
| `Fisheye` | `camera/fisheye.py` |
| `FisheyeStereo` | `camera/fisheye_stereo.py` |
| `CalibrateFisheye` | `cli/calibrate_fisheye.py` |
| `CalibratePinhole` | `cli/calibrate_pinhole.py` |
| `Video` | `video/reader.py` and its older copy `video_reader.py` |
| `StereoReader` | `stereo/reader.py` |
| `Fps` | `video/fps.py` |
| `Img` | `ImageSize` in `img.py` |
| `Transforms` | `transforms.py` |
| `FindChessboardsLive` | `cli/find_chessboards_live.py` |
| `FindChessboardsStereoLive` | `cli/find_chessboards_stereo_live.py` |
| `SplitFeed` | `cli/split_feed.py` |
| `UndistortFisheye` | `cli/undistort_fisheye.py` |
| `DisparityFisheye` | `cli/disparity_fisheye.py` |

Code that changes things in place is modelled as classes with `modifies`
clauses. That is `VideoStream`, `StereoCamera`, `FPS`, the two calibrated
camera classes, and the caller's dict that `save_stereo_calibration` fills in.

Loops are modelled as methods. Each method's ensures ties its result to a
specification function, and the properties are proved about that function:

- the collection loop, `Collection.Collect`, against `Collected`;
- `reprojection_error`, `Pinhole.ReprojectionError`, against `MeanError`;
- `calibration_labels`, `FisheyeStereo.CalibrationLabels`, against `EyeLabels`;
- `get_frames`, `DisparityFisheye.LoadSides`, against `SideFrames`, and
  `GetFrames` against `PairFrames`;
- the split loop, `SplitFeed.Cli`, against `SplitOutcome`;
- the undistort loop, `UndistortFisheye.Cli`, against `Shown`;
- the mono capture loop, `FindChessboardsLive.SaveBoards`, against `SavedAs`
  of `Boards`;
- the stereo capture loop, `FindChessboardsStereoLive.StereoLoop`, against
  `Outcome`.

The record-building code stays as functions.

## Model

| member | source | states |
|---|---|---|
| Py.Trunc | src/rakali/video/reader.py:20-21 | `int()` of a float truncates toward zero: below or above by less than one, on the side of zero |
| Py.Divide | src/rakali/camera/pinhole.py:139 | a zero length raises `ZeroDivisionError`; otherwise the quotient times the length is the total |
| Py.Head | src/rakali/cli/calibrate_fisheye.py:157 | `s[:k]` keeps min(k, len) leading elements for k >= 0 and drops -k trailing ones for k < 0, always a prefix |
| Py.Pick | src/rakali/cli/calibrate_fisheye.py:155-156 | the seeded draw is always an index inside the population |
| Py.Choices | src/rakali/cli/calibrate_fisheye.py:155-156 | `random.choices(pop, k)`: empty for k <= 0, `IndexError` on an empty population otherwise, else exactly k seeded draws with replacement |
| Py.ChoicesFromPopulation | src/rakali/cli/calibrate_fisheye.py:155-156 | every drawn element is a member of the population |
| Text.Pad5Properties | src/rakali/cli/find_chessboards_live.py:45 | `{n:05}` is all digits, reads back as n, and is at least 5 long, exactly 5 below 100000 |
| Text.IntToString | src/rakali/img.py:27-31 | the decimal text of an integer, never empty; `int()` reads it back (IntToStringParses, NegativeTextParses) |
| Text.Pad5 | src/rakali/cli/find_chessboards_live.py:45 | `{count:05}`: the zero-padded decimal text; its digits, value, length and injectivity are given by Pad5Properties and Pad5Injective |
| Text.Pad5Injective | src/rakali/cli/find_chessboards_live.py:45 | different counts give different `{n:05}` texts |
| Text.ZeroPadIsZeros | src/rakali/cli/find_chessboards_live.py:45 | zero padding prefixes exactly 5 - len zeros to a shorter digit string and leaves a longer one alone |
| Text.NatToStringValue | src/rakali/cli/find_chessboards_live.py:45 | the decimal text of n reads back as n |
| Text.Find | src/rakali/cli/find_chessboards_live.py:18 | `str.find`: the first occurrence, or -1 exactly when there is none |
| Text.Strip | src/rakali/stereo/reader.py:72 | `str.strip()` neither starts nor ends with whitespace (Python's `isspace` set) |
| Text.StripIsSlice | src/rakali/stereo/reader.py:72 | `str.strip()` is a slice of the text with only whitespace before and after it |
| Text.StripUnchanged | src/rakali/stereo/reader.py:72 | a text with no whitespace at its ends strips to itself |
| Text.Split | src/rakali/camera/fisheye_stereo.py:171 | `split('\n')` yields at least one piece and no piece contains the separator |
| Text.SplitJoin | src/rakali/camera/fisheye_stereo.py:171 | joining the pieces with the separator restores the text |
| Text.SplitAfterHeader | src/rakali/camera/fisheye_stereo.py:171 | `'K\n' + body` splits into the header followed by the body's pieces |
| Text.IntToStringParses | src/rakali/cli/find_chessboards_live.py:21-23 | `int()` accepts the decimal text of every integer, negative ones included, and gives it back |
| Text.ParseInt | src/rakali/cli/find_chessboards_live.py:21-23 | `int(source)`: the literal left after stripping Python whitespace; what it accepts and rejects is given by IntToStringParses, NegativeTextParses, ParsePositive and ParseIntRejects |
| Text.NegativeTextParses | src/rakali/cli/find_chessboards_live.py:21-23 | `int()` of "-d" is -d |
| Text.ParsePositive | src/rakali/cli/find_chessboards_live.py:21-23 | `int()` of a digit string is its value |
| Text.ParseIntRejects | src/rakali/cli/find_chessboards_live.py:21-25 | a stripped text holding a character other than a digit, `_` or a sign is not accepted by `int()` |
| Text.ExpandUserParts | src/rakali/cli/find_chessboards_live.py:28 | `Path(p).expanduser()` parses p first: for a relative path whose first component is "~" the result has the home folder's root and components followed by the rest of p's components; any other path keeps its root and components; the result is in normal form (no "//" after its first character) |
| Text.HomeDir | src/rakali/cli/find_chessboards_live.py:28 | the home folder as `os.path.expanduser` hands it on: trailing separators removed, "/" exactly when the home is nothing but separators |
| Text.SlashHomeIsRoot | src/rakali/cli/find_chessboards_live.py:28 | with a home made only of separators (such as "/"), "~/x" expands to "/x", never to the "//" root |
| Text.ExpandUserSkipsDot | src/rakali/cli/find_chessboards_live.py:28 | a leading "./" is dropped before expansion, so "./~/x" expands as "~/x" does |
| Text.Root | src/rakali/cli/find_chessboards_live.py:25 | `pathlib`'s POSIX root: none exactly when the path does not start with "/", else "/" or "//" |
| Text.Keep | src/rakali/cli/find_chessboards_live.py:25 | only non-empty pieces other than "." are kept as components, and pieces that all are such are kept unchanged |
| Text.PartsShape | src/rakali/cli/find_chessboards_live.py:25 | every component is non-empty, not ".", and holds no "/" |
| Text.PathText | src/rakali/cli/find_chessboards_live.py:25 | `str(Path(p))` is never empty |
| Text.PathTextNormal | src/rakali/cli/find_chessboards_live.py:25 | `str(Path(p))` has the root and the components of p, no "//" after its root, and a trailing "/" only when it is a root alone |
| Text.SplitJoinInverse | src/rakali/cli/find_chessboards_live.py:25 | pieces without the separator, joined by it, split back into those pieces |
| Text.DotComponentDropped | src/rakali/cli/find_chessboards_live.py:25 | `str(Path("a/./b"))` is "a/b" for any components a and b |
| Text.DoubleRootKept | src/rakali/cli/find_chessboards_live.py:25 | `str(Path("//a"))` keeps its two leading slashes, for any component a |
| Text.TripleRootCollapsed | src/rakali/cli/find_chessboards_live.py:25 | `str(Path("///a"))` is "/a", for any component a |
| Text.PathTextIdempotent | src/rakali/cli/disparity_fisheye.py:86-93 | normalising a normalised path changes nothing, so a folder's text can be joined with a name directly |
| Text.JoinPath | src/rakali/cli/disparity_fisheye.py:92-93 | `source / Path(fname)` for a plain file name: the result ends with the name, and is the name alone inside "." |
| Records.Imread | src/rakali/cli/disparity_fisheye.py:98 | `imread` gives a picture exactly when a picture file is at the path, and `None` otherwise |
| Records.Exists | src/rakali/cli/disparity_fisheye.py:87 | `Path.exists()`: true for a stored file or a folder |
| Records.Get | src/rakali/camera/fisheye_stereo.py:28 | indexing a dict gives the entry when the key is present and `KeyError` otherwise |
| Records.ToInt | src/rakali/camera/fisheye.py:42-43 | `int()` of an int is itself; of a float, a numpy scalar or a one-entry array the truncation of that number; anything else a `TypeError` |
| Records.ToFloat | src/rakali/camera/fisheye.py:44 | `float()` of an int, a float, a numpy scalar or a one-entry array is that number; anything else a `TypeError` |
| Records.AsArray | src/rakali/camera/fisheye.py:22-30 | `np.savez` stores Python ints and floats as 0-d arrays and every other value unchanged |
| Records.NpzPath | src/rakali/camera/fisheye.py:22-23 | `np.savez` writes to a path ending in ".npz", and a path already ending so is kept |
| Records.SaveNpz | src/rakali/camera/fisheye.py:22-30 | the archive has exactly the given keys, each stored as `AsArray`; exactly one file is added or replaced (the archive); every other file, the folders and home are unchanged |
| Records.LoadNpz | src/rakali/camera/fisheye.py:37 | `np.load` succeeds exactly on an archive, giving its arrays; a missing file is an `IOError` |
| Records.SaveJson | src/rakali/camera/fisheye_stereo.py:120-122 | the document is written at the path and no other file changes |
| Records.SavedEntry | src/rakali/camera/fisheye.py:22-45 | every key saved into an archive loads back, as its stored array |
| Records.NumbersSurviveArchive | src/rakali/camera/fisheye.py:42-44 | an int saved into an archive comes back through `int()` unchanged, and a float through `float()` |
| Mats.Zeros | src/rakali/video/reader.py:22 | `np.zeros((h, w, 3))` has that shape and every pixel black |
| Mats.Crop | src/rakali/cli/split_feed.py:61-62 | numpy slicing clamps each bound to the frame, is empty where a lower bound passes the upper, and keeps the selected pixels |
| Mats.HStack | src/rakali/cli/undistort_fisheye.py:97 | `np.hstack` succeeds exactly on equal heights, giving the summed width with the left pixels then the right ones; otherwise `ValueError` |
| Mats.VStack | src/rakali/cli/disparity_fisheye.py:74 | `np.vstack` succeeds exactly on equal widths, with the top pixels then the bottom ones; otherwise `ValueError` |
| Grid.MgridTLength | src/rakali/camera/pinhole.py:20 | the transposed, flattened index grid of an a-by-b board has a·b entries |
| Grid.MgridTAt | src/rakali/camera/pinhole.py:20 | its k-th entry is (k mod a, k div a) |
| Grid.MgridTAll | src/rakali/camera/pinhole.py:20 | the same for every k at once |
| Grid.Board | src/rakali/camera/pinhole.py:18-22 | an a-by-b board has a·b points, point k at (k mod a, k div a)·s with z = 0: the mgrid index pairs, in order, each scaled by the square size |
| Collection.Detections | src/rakali/cli/calibrate_fisheye.py:82-90 | the image samples of the pictures where corners are found, never more than the pictures |
| Collection.Collected | src/rakali/cli/calibrate_fisheye.py:58-93 | the outcome of collection. It succeeds exactly on a nonempty list of same-sized pictures. A later size mismatch is `SystemExit` and an empty list is `TypeError`. On success there is one zero object per detection in lockstep, and the size is returned as (w, h) |
| Collection.DetectionsFound | src/rakali/cli/calibrate_fisheye.py:82-90 | exactly one image sample per picture with found corners; none when no picture has corners |
| Collection.Collect | src/rakali/cli/calibrate_fisheye.py:58-93 | the collection loop, threading the first size through `check_size`, computes `Collected` |
| Collection.SaveImagePointsFile | src/rakali/cli/calibrate_fisheye.py:28-39 | the cache archive holds exactly object_points, image_points and image_size; exactly one file is added or replaced (the archive); every other file, the folders and home are unchanged |
| Collection.LoadImagePointsFile | src/rakali/cli/calibrate_fisheye.py:42-55 | a missing file gives `None` (the `IOError` is caught), and a file that is not an archive is a `ValueError` |
| Collection.ImagePointsRoundTrip | src/rakali/camera/pinhole.py:25-52 | loading a saved cache gives back the object points, image points and size unchanged |
| Collection.CachedPoints | src/rakali/cli/calibrate_fisheye.py:135-149 | a readable cache is returned as is, without collecting. Without one, the pictures are collected and the result is cached with size (w, h). A collection failure propagates |
| Collection.SecondRunUsesCache | src/rakali/cli/calibrate_fisheye.py:135-149 | after a run that wrote the cache, a second run returns the same points whatever pictures it is given |
| Collection.Subsample | src/rakali/cli/calibrate_fisheye.py:155-157 | a subsample with replacement. It draws exactly pick_size image samples, each one of the collected samples, and keeps the first min(pick_size, n) object points. Only an empty list with a positive pick_size is an `IndexError` |
| Collection.SubsampleAccepted | src/rakali/cli/calibrate_fisheye.py:155-159 | the subsample as written is accepted by the solver exactly when 0 < pick_size <= n, for n object samples (both directions) |
| Collection.FewDetectionsRejected | src/rakali/cli/calibrate_fisheye.py:155-159 | with at least one image sample and fewer than pick_size object samples, the subsample is drawn but holds n object samples against pick_size image samples, which the solver rejects |
| Collection.SubsampleMatched | src/rakali/cli/calibrate_fisheye.py:154-157 | the intended subsample: at most pick_size views, the same count of image and object samples, each image sample from the collected ones and the objects a prefix, so a cache with one object per image sample is always accepted by the solver |
| Pinhole.GetZeroObject | src/rakali/camera/pinhole.py:18-22 | p0·p1 flat points, point k at (k mod p0, k div p0)·square_size with z = 0 |
| Pinhole.GetPointsFromChessboardImages | src/rakali/camera/pinhole.py:55-94 | the collection outcome with this board's zero object and the finder built for the board size, and every object sample is that zero object |
| Pinhole.SampleError | src/rakali/camera/pinhole.py:129-136 | one sample's term is defined exactly when its rotation, translation and image exist and the projection is nonempty, with a missing entry an `IndexError` |
| Pinhole.TotalError | src/rakali/camera/pinhole.py:126-137 | the accumulated total is defined exactly when every term up to k is |
| Pinhole.MeanError | src/rakali/camera/pinhole.py:126-139 | an empty object list divides by zero; a defined mean times the count is the total |
| Pinhole.ReprojectionError | src/rakali/camera/pinhole.py:116-139 | the accumulating loop computes `MeanError` |
| Pinhole.TotalErrorSticks | src/rakali/camera/pinhole.py:128-137 | the first failing sample's exception ends the loop: no later sample changes it |
| Pinhole.TotalErrorBounds | src/rakali/camera/pinhole.py:126-137 | with every term within [lo, hi], the total of k terms is within [k·lo, k·hi] |
| Pinhole.ReprojectionErrorBounds | src/rakali/camera/pinhole.py:116-139 | with every term within [lo, hi], the mean is defined and within [lo, hi] |
| Pinhole.SaveCalibration | src/rakali/camera/pinhole.py:142-166 | the archive has exactly the nine calibration keys; exactly one file is added or replaced (the archive); every other file, the folders and home are unchanged |
| Pinhole.LoadCalibration | src/rakali/camera/pinhole.py:169-183 | a missing file is an `IOError`. A success has the nine keys, with salt and pick_size ints and error a float. An archive without "salt" is a `KeyError` |
| Pinhole.CalibrationRoundTrip | src/rakali/camera/pinhole.py:142-183 | loading a saved calibration gives back all nine fields, with salt and pick_size as ints and error as a float |
| Pinhole.Undistort | src/rakali/camera/pinhole.py:186-195 | undistortion needs camera_matrix, distortion_coefficients and new_camera_matrix, a missing one being a `KeyError`, and applies them |
| Pinhole.CalibratedPinholeCamera.constructor | src/rakali/camera/pinhole.py:201-210 | stores the name and calibration |
| Pinhole.CalibratedPinholeCamera.Open | src/rakali/camera/pinhole.py:201-210 | a missing file leaves `calibration` unset; an existing one is loaded, and a failed load fails the constructor |
| Pinhole.CalibratedPinholeCamera.Correct | src/rakali/camera/pinhole.py:212-215 | without a calibration, `AttributeError`; with one, the undistortion it defines |
| Pinhole.MissingCalibrationFails | src/rakali/camera/pinhole.py:207-215 | a camera opened on a missing file always fails to correct a frame |
| CalibrateFisheye.GetZeroObject | src/rakali/cli/calibrate_fisheye.py:21-25 | one row of rows·columns points, point k at (k mod rows, k div rows) with z = 0 |
| CalibrateFisheye.ZeroObjectIgnoresSquareSize | src/rakali/cli/calibrate_fisheye.py:21-25 | the square size has no effect on the grid |
| CalibrateFisheye.GetPointsFromChessboardImages | src/rakali/cli/calibrate_fisheye.py:58-93 | the collection outcome with this grid and the finder built for the board size, every object sample in the one-row layout |
| CalibrateFisheye.DoCalibrate | src/rakali/cli/calibrate_fisheye.py:125-178 | a points failure propagates and leaves the disk as it was; every later failure keeps the disk the points step left, so freshly collected points stay cached. A size that is not two numbers is a `ValueError` and w <= h an `AssertionError`. On a valid size an empty draw is an `IndexError`, and a subsample the solver does not accept (`Collection.SolverAccepts`: unequal counts, or none) is a `CvError`; the run succeeds exactly when the subsample is drawn and accepted. A success saves exactly the keys K, D, image_size, seed and k: K and D are the solver's on the salt/pick_size subsample, image_size is the points' size, seed = salt, k = pick_size. The result is the solver's rms; on success exactly one file is added or replaced (the archive); every other file, the folders and home are unchanged |
| CalibrateFisheye.SaveRecord | src/rakali/cli/calibrate_fisheye.py:165-174 | the `savez_compressed` call saves exactly the keys K, D, image_size, seed and k, each holding its value as the archive stores it (seed and k as scalars); exactly one file is added or replaced (the archive); every other file, the folders and home are unchanged |
| CalibrateFisheye.FailedRunKeepsCache | src/rakali/cli/calibrate_fisheye.py:135-157 | a run that collected and then raised leaves its points cached: the next run loads them whatever pictures it is given, and a run that failed `assert w > h` fails the same way again |
| CalibrateFisheye.CacheFirst | src/rakali/cli/calibrate_fisheye.py:135-149 | with a readable cache, the pictures make no difference to the result |
| CalibrateFisheye.SolverSeesSubsample | src/rakali/cli/calibrate_fisheye.py:155-178 | a successful run had at least pick_size > 0 object samples; the solver received pick_size image samples and the first pick_size object samples, and its rms is returned |
| CalibrateFisheye.FewBoardsFail | src/rakali/cli/calibrate_fisheye.py:151-163 | a landscape run with at least one but fewer than pick_size boards found is a `CvError` from `cv.fisheye.calibrate`, and keeps the cache the points step left |
| CalibrateFisheye.Cli | src/rakali/cli/calibrate_fisheye.py:232-263 | pick_size < 5 exits before the folder is looked at; an input path that does not exist (neither folder nor file) exits; otherwise `do_calibrate` with (columns, rows) |
| CalibratePinhole.GetZeroObject | src/rakali/cli/calibrate_pinhole.py:19-22 | size[0]·size[1] flat points, point k at (k mod size[0], k div size[0]) with z = 0 |
| CalibratePinhole.GetPointsFromChessboardImages | src/rakali/cli/calibrate_pinhole.py:55-87 | the finder is built for the chessboard size, but the collection always uses the default 9x6 zero object |
| CalibratePinhole.DoCalibrate | src/rakali/cli/calibrate_pinhole.py:135-194 | the same failures as the fisheye run, with the same disk on each failure (the points cache written before them stays), then a failing subsample (`IndexError`) or a subsample the solver does not accept (`CvError`) fails the run. Past those checks the result is exactly the mean reprojection error of the solver's output, its `ZeroDivisionError` included. A success saves exactly the pinhole keys: camera_matrix, distortion_coefficients, rotation and translation are the solver's on the subsample, new_camera_matrix and roi the optimizer's, seed and k the arguments, error the returned reprojection error. On success exactly one file is added or replaced (the archive); every other file, the folders and home are unchanged |
| CalibratePinhole.FewBoardsFail | src/rakali/cli/calibrate_pinhole.py:159-171 | a landscape run with at least one but fewer than k boards found is a `CvError` from `cv.calibrateCamera`, and keeps the cache the points step left |
| CalibratePinhole.FailedRunKeepsCache | src/rakali/cli/calibrate_pinhole.py:143-165 | a run that collected and then raised leaves its points cached: the next run loads them whatever pictures it is given, and a run that failed `assert w > h` fails the same way again |
| CalibratePinhole.SaveRecord | src/rakali/cli/calibrate_pinhole.py:181-193 | each key of the `savez_compressed` call holds its value as the archive stores it; exactly one file is added or replaced (the archive); every other file, the folders and home are unchanged |
| CalibratePinhole.ErrorIsReprojectionError | src/rakali/cli/calibrate_pinhole.py:163-194 | the returned error is the mean reprojection error over the subsample |
| CalibratePinhole.RecordLacksSalt | src/rakali/cli/calibrate_pinhole.py:182-193 | the record this command saves cannot be read by `pinhole.load_calibration`: no "salt" key, so `KeyError` |
| CalibratePinhole.NoSaltNoLoad | src/rakali/camera/pinhole.py:180-181 | an archive with the command's keys fails to load with `KeyError` |
| CalibratePinhole.Cli | src/rakali/cli/calibrate_pinhole.py:230-251 | an input path that does not exist (neither folder nor file) exits; otherwise `do_calibrate` with board size (columns, rows) and the defaults seed 888 and k 50, and no minimum size check |
| Fisheye.SaveCalibration | src/rakali/camera/fisheye.py:10-30 | the archive holds exactly K, D, image_size, salt, pick_size and error; exactly one file is added or replaced (the archive); every other file, the folders and home are unchanged |
| Fisheye.LoadCalibration | src/rakali/camera/fisheye.py:33-45 | a missing file is an `IOError`; a success has the six keys with salt and pick_size ints and error a float |
| Fisheye.CalibrationRoundTrip | src/rakali/camera/fisheye.py:10-45 | loading a saved calibration gives back exactly the six fields unchanged |
| Fisheye.CalibrationCoercion | src/rakali/camera/fisheye.py:42-44 | float salt and pick_size come back truncated to ints, and an int error comes back as a float |
| Fisheye.ScaleK | src/rakali/camera/fisheye.py:68-69 | K times w / wc entrywise, except [2][2], which is exactly 1; a K smaller than 3x3 is an `IndexError` |
| Fisheye.ScaleKSameWidth | src/rakali/camera/fisheye.py:68-69 | at the calibration width the scaled K is K with [2][2] set to 1 |
| Fisheye.FrameSize | src/rakali/camera/fisheye.py:59 | the frame size is `shape[:2]` reversed, (width, height) |
| Fisheye.MapParameters | src/rakali/camera/fisheye.py:59-69 | a zero height divides by zero, and a different aspect (w·hc != wc·h) is an `AssertionError`. A zero calibration width that passes the aspect check (a zero-width frame) is a `CvError`. Absent dim2 and dim3 default to the frame size, and K is scaled by the width ratio |
| Fisheye.AspectIsCrossMultiplication | src/rakali/camera/fisheye.py:60-61 | the aspect-ratio equality is exactly the integer cross-multiplication |
| Fisheye.GetMaps | src/rakali/camera/fisheye.py:48-87 | fails exactly as the parameter rules do; the maps have the dim3 size |
| Fisheye.Undistort | src/rakali/camera/fisheye.py:90-102 | the remapped frame has the size of the maps it is given |
| Fisheye.UndistortKeepsSize | src/rakali/camera/fisheye.py:48-102 | with the default dims, undistortion keeps the frame size |
| FisheyeStereo.ZeroMatrix | src/rakali/camera/fisheye_stereo.py:38-41 | a rows-by-cols matrix of zeros |
| FisheyeStereo.Entries | src/rakali/camera/fisheye_stereo.py:30 | indexing into a nested dict succeeds exactly on a dict, otherwise `TypeError` |
| FisheyeStereo.FlattenLength | src/rakali/camera/fisheye_stereo.py:60-65 | flattening n samples of m points each gives n·m points |
| FisheyeStereo.FlattenAt | src/rakali/camera/fisheye_stereo.py:60-65 | after flattening n samples of m points each, sample i's point j sits at i·m + j |
| FisheyeStereo.Reshape | src/rakali/camera/fisheye_stereo.py:63-65 | `np.reshape` to (n, area) succeeds exactly on a rectangular set with n·area points, otherwise `ValueError`, and gives n samples of area points |
| FisheyeStereo.ReshapeKeeps | src/rakali/camera/fisheye_stereo.py:63-65 | reshaping uniform samples to their own shape gives them back |
| FisheyeStereo.ReshapeRejectsCount | src/rakali/camera/fisheye_stereo.py:63-65 | uniform samples cannot be reshaped to another sample count |
| FisheyeStereo.ObjectGrid | src/rakali/camera/fisheye_stereo.py:56-57 | cs[0]·cs[1] points in a column layout, point k at (k mod cs[0], k div cs[0]) with z = 0 |
| FisheyeStereo.InitialIntrinsics | src/rakali/camera/fisheye_stereo.py:32-41 | without pre-calibration, 3x3 zero K's and 4x1 zero D's; with it, the left and right entries' K and D |
| FisheyeStereo.Replicate | src/rakali/camera/fisheye_stereo.py:59 | `[objp] * n` is n copies of the grid |
| FisheyeStereo.PrepareStereo | src/rakali/camera/fisheye_stereo.py:28-65 | one grid per left sample. Left and right counts equal that number, every sample has board-area points, and the object points are the replicated grid. Without the flag the initial K's are 3×3 zeros and the D's 4×1 zeros. With it, K_left, D_left, K_right and D_right are the left and right entries' K and D. The image size is the left entry's image_size |
| FisheyeStereo.Assemble | src/rakali/camera/fisheye_stereo.py:54-65 | once the entries are read: one grid per left sample, left and right reshaped to that many samples of board-area points, and the given K's, D's and image size passed on unchanged. A left entry that is not a list is a `TypeError` (`len`), and a right one a `ValueError` (`np.reshape`) |
| FisheyeStereo.PrepareKeepsPoints | src/rakali/camera/fisheye_stereo.py:46-65 | equal counts of board-area samples pass through preparation unchanged |
| FisheyeStereo.PrepareRejectsUnequalCounts | src/rakali/camera/fisheye_stereo.py:54-65 | unequal left and right counts make preparation fail |
| FisheyeStereo.StereoCalibrate | src/rakali/camera/fisheye_stereo.py:23-102 | a failed preparation raises its own exception, and prepared inputs with no view are a `CvError` from the solver (`StereoSolverAccepts`); it succeeds exactly when preparation does and gives at least one view, with exactly the keys rms, individual_calibration, K_left, D_left, K_right, D_right, R and T. individual_calibration is the input itself, and rms is the solver's |
| FisheyeStereo.NoViewsRejected | src/rakali/camera/fisheye_stereo.py:55-75 | with empty image points for both eyes, preparation succeeds (N_OK = 0, the reshapes accept it) and `cv.fisheye.stereoCalibrate` raises `CvError` |
| FisheyeStereo.StereoRecord | src/rakali/camera/fisheye_stereo.py:115-118 | the dict gains image_size, salt, pick_size and cid, and its other keys are unchanged |
| FisheyeStereo.SaveStereoCalibration | src/rakali/camera/fisheye_stereo.py:105-122 | the caller's dict is updated in place with the four entries, and exactly that dict is written as JSON |
| FisheyeStereo.LoadStereoCalibration | src/rakali/camera/fisheye_stereo.py:125-144 | a missing file gives `None`; a success has exactly the seven keys; a file that is not JSON fails to decode |
| FisheyeStereo.StereoRoundTrip | src/rakali/camera/fisheye_stereo.py:105-144 | loading a saved stereo calibration gives back the six matrices and image_size, and not salt, pick_size or cid |
| FisheyeStereo.Block | src/rakali/camera/fisheye_stereo.py:171 | one label block is the header line followed by the value's lines; a missing key is a `KeyError` |
| FisheyeStereo.EyeLabelsAreLines | src/rakali/camera/fisheye_stereo.py:169-174 | an eye's labels start with "K", have at least eight lines, and no line holds a newline |
| FisheyeStereo.CalibrationLabels | src/rakali/camera/fisheye_stereo.py:166-182 | any side but "left" or "right" gives no labels. Left uses K_left/D_left and right uses K_right/D_right, both sharing R and T |
| FisheyeStereo.EyeBlocks | src/rakali/camera/fisheye_stereo.py:169-174 | the four `extend` steps append exactly the eye's K, D, R and T blocks, or raise `KeyError` |
| FisheyeStereo.CidOf | src/rakali/camera/fisheye_stereo.py:213-219 | the calibration's cid when it is set and has one, otherwise "UNSET" |
| FisheyeStereo.TimeOf | src/rakali/camera/fisheye_stereo.py:221-227 | the calibration's time when it is set and has one, otherwise -1 |
| FisheyeStereo.LoadedCalibrationIsUnset | src/rakali/camera/fisheye_stereo.py:125-144 | a loaded stereo calibration never carries cid or time, so both properties read "UNSET" and -1 |
| FisheyeStereo.PrintCalibration | src/rakali/camera/fisheye_stereo.py:147-163 | printing needs the six matrices; `None` is a `TypeError` |
| FisheyeStereo.RectifyParameters | src/rakali/camera/fisheye_stereo.py:234-248 | rectification needs the seven loaded keys and passes them and the balance to the solver |
| FisheyeStereo.InitialCalibration | src/rakali/camera/fisheye_stereo.py:200-204 | a missing file leaves the calibration `None`; otherwise it is loaded |
| FisheyeStereo.CalibratedStereoFisheyeCamera.constructor | src/rakali/camera/fisheye_stereo.py:188-199 | stores balance, name, dims, calibration and rectification, with no maps |
| FisheyeStereo.CalibratedStereoFisheyeCamera.Open | src/rakali/camera/fisheye_stereo.py:188-207 | as written: a missing file raises `TypeError`, because printing `None` fails. Otherwise the loaded calibration is kept, the rectification computed from it, and both map pairs are unset |
| FisheyeStereo.CalibratedStereoFisheyeCamera.OpenGuarded | src/rakali/camera/fisheye_stereo.py:188-207 | corrected: a missing file gives a camera with no calibration and no rectification |
| FisheyeStereo.CalibratedStereoFisheyeCamera.SetCalibration | src/rakali/camera/fisheye_stereo.py:209-211 | replaces the calibration and nothing else |
| FisheyeStereo.CalibratedStereoFisheyeCamera.Cid | src/rakali/camera/fisheye_stereo.py:213-219 | the cid property of the current calibration |
| FisheyeStereo.CalibratedStereoFisheyeCamera.CalibrationTime | src/rakali/camera/fisheye_stereo.py:221-227 | the time property of the current calibration |
| FisheyeStereo.CalibratedStereoFisheyeCamera.SetMaps | src/rakali/camera/fisheye_stereo.py:250-275 | without a calibration nothing changes. With one, both eyes' maps are built from the first frame with that eye's K, D and rotation. A missing image_size, K_left or D_left is a `KeyError`, and a missing rectification an `AttributeError`; both leave the maps as they were. A missing K_right or D_right is a `KeyError` raised after the left maps are set, so the right maps stay as they were. Nothing else changes |
| FisheyeStereo.CalibratedStereoFisheyeCamera.Correct | src/rakali/camera/fisheye_stereo.py:277-284 | with no maps, `AttributeError`; otherwise each frame is undistorted with its own eye's maps |
| FisheyeStereo.MissingFileAsWritten | src/rakali/camera/fisheye_stereo.py:200-207 | the constructor on a missing file always raises `TypeError` |
| FisheyeStereo.MissingFileGuarded | src/rakali/camera/fisheye_stereo.py:200-219 | with the guard, the camera opens, reports cid "UNSET" and refuses to correct with `AttributeError` |
| Video.NextRead | src/rakali/video/reader.py:15 | `VideoCapture.read()`: the flag holds exactly when a frame is returned, and the end of the stream is (False, None) |
| Video.FirstFailure | src/rakali/cli/find_chessboards_live.py:55-57 | the loop's stop: every earlier read succeeded and the read there failed (or the stream ended) |
| Video.Delivered | src/rakali/cli/split_feed.py:58-67 | the frames read before the first failure, in order |
| Video.DeliveredNext | src/rakali/cli/split_feed.py:58-67 | after j successful reads the next read succeeds exactly when the first failure lies further on, and delivers the next frame |
| Video.Capture.constructor | src/rakali/video/reader.py:14 | the capture reports the device's size and delivers its frames |
| Video.Capture.Read | src/rakali/video/reader.py:15 | one read consumes one pending frame |
| Video.VideoStream.Open | src/rakali/video/reader.py:13-22 | the first read sets grabbed. The frame is then zeros of the device-reported (height, width), whatever was read, and `stopped` is false. A negative size is a `ValueError` |
| Video.VideoStream.Init | src/rakali/video/reader.py:13-22 | the stream holds the capture, the first read's flag and the device size, with a zero frame of that size and `stopped` false |
| Video.VideoStream.GetWhSize | src/rakali/video/reader.py:27-31 | the current frame's `shape[:2]` swapped to (width, height) |
| Video.VideoStream.GetShape | src/rakali/video/reader.py:33-34 | the current frame's (height, width, 3), and an `AttributeError` exactly when a failed read has left no frame |
| Video.VideoStream.Start | src/rakali/video/reader.py:36-38 | returns the stream itself |
| Video.VideoStream.UpdateStep | src/rakali/video/reader.py:40-45 | a stopped stream returns leaving everything alone; otherwise grabbed and frame become the next device read |
| Video.VideoStream.Copy | src/rakali/video/reader.py:51-56 | a value equal to the current frame, unaffected by later updates |
| Video.VideoStream.Stop | src/rakali/video/reader.py:58-59 | sets `stopped` and leaves the frame and flag unchanged |
| Video.VideoStream.Enter | src/rakali/video/reader.py:61-63 | returns the stream itself |
| Video.VideoStream.Exit | src/rakali/video/reader.py:65-66 | leaves `stopped` true |
| Video.LatestFrameWins | src/rakali/video_reader.py:32-41 | two update steps keep only the later frame: the single slot is overwritten |
| Video.StoppedStreamIsFrozen | src/rakali/video_reader.py:32-44 | after `stop`, an update step changes neither the frame nor what the device delivers |
| StereoReader.MakeStereoFrame | src/rakali/stereo/reader.py:14-31 | the names are kept, and the timestamp is the one given or, without one, the clock's time |
| StereoReader.CalibrationNamedFrames | src/rakali/stereo/reader.py:37-45 | always ("left", left) then ("right", right), whatever the frame's own names |
| StereoReader.FramesInOrder | src/rakali/stereo/reader.py:33-45 | `frames()` is (left, right) and the calibration names never follow the custom names |
| StereoReader.Frames | src/rakali/stereo/reader.py:33-35 | `frames()`: the left frame, then the right (FramesInOrder) |
| StereoReader.IsGood | src/rakali/stereo/reader.py:47-48 | `is_good()`: both frames are present |
| StereoReader.GetStereoFrameSize | src/rakali/stereo/reader.py:50-54 | (2·w, h) of the left frame exactly when there is one; with no left frame, `AttributeError` |
| StereoReader.StereoSizeIsStackedSize | src/rakali/stereo/reader.py:50-54 | for a good pair of equal shapes, the stereo size is the width and height of the two stacked side by side |
| StereoReader.StereoCamera.Open | src/rakali/stereo/reader.py:65-77 | sources equal after stripping exit. Otherwise the camera opens exactly when both devices report non-negative sizes, and fails with `ValueError` otherwise. The right reader is opened on left_src and the left reader on right_src, as two distinct running streams, each holding the zero frame of its own device's size |
| StereoReader.StereoCamera.Init | src/rakali/stereo/reader.py:73-74 | the camera holds exactly the two given readers |
| StereoReader.StereoCamera.Enter | src/rakali/stereo/reader.py:79-82 | returns the camera itself |
| StereoReader.StereoCamera.Exit | src/rakali/stereo/reader.py:84-86 | stops both readers and leaves their frames alone |
| StereoReader.StereoCamera.Read | src/rakali/stereo/reader.py:88-98 | the pair of the two readers' current frames, and good exactly when both are present |
| StereoReader.FirstReadSwapsEyes | src/rakali/stereo/reader.py:65-98 | the first read's left frame is the zero frame sized by the right source's device |
| Fps.FPS.constructor | src/rakali/video/fps.py:9-12 | frames 0, start and stop unset, and no end |
| Fps.FPS.Begin | src/rakali/video/fps.py:14-17 | sets start to the clock and returns itself, frames unchanged |
| Fps.FPS.Done | src/rakali/video/fps.py:19-22 | sets end to the clock and counts exactly one more frame |
| Fps.FPS.Cost | src/rakali/video/fps.py:24-28 | before any `done`, `AttributeError`; without `begin`, `TypeError`; otherwise start + cost = end |
| Fps.FPS.Rate | src/rakali/video/fps.py:30-32 | the reciprocal of the cost; a zero cost divides by zero |
| Fps.TimedFrame | src/rakali/video/fps.py:9-28 | a fresh stopwatch has no cost yet; after begin and done, cost is the elapsed time and one frame is counted |
| Img.ImageSize.Call | src/rakali/img.py:19-20 | (height, width), in that order |
| Img.FromMat | src/rakali/img.py:22-25 | the size called gives the matrix's `shape[:2]` |
| Img.IntToStringInjective | src/rakali/img.py:27-31 | different integers print differently |
| Img.StrInjective | src/rakali/img.py:27-28 | `str` of two sizes is the same text only for equal sizes |
| Img.ImageSize.Str | src/rakali/img.py:27-28 | `height: H, width: W`; distinct sizes have distinct texts (StrInjective) |
| Img.ImageSize.Repr | src/rakali/img.py:30-31 | `ImageSize(height=H, width=W)`; distinct sizes have distinct texts (ReprInjective) |
| Img.ReprInjective | src/rakali/img.py:30-31 | `repr` of two sizes is the same text only for equal sizes |
| Transforms.ChooseInterpolation | src/rakali/transforms.py:11-18 | linear unless optimising. When optimising, cubic exactly when both factors exceed 1 and area exactly when either does not |
| Transforms.Resize | src/rakali/transforms.py:9-26 | OpenCV resize of the image by the two factors: linear unless optimising; when optimising, cubic when both factors exceed 1 and area otherwise |
| Transforms.Scale | src/rakali/transforms.py:4-6 | uniform scaling is the optimised resize with equal factors: cubic for s > 1 and area otherwise |
| Transforms.OptimizedNeverLinear | src/rakali/transforms.py:9-18 | with the default, linear is never chosen |
| FindChessboardsLive.ResolveSourceAsWritten | src/rakali/cli/find_chessboards_live.py:18-25 | as written: an rtsp source is kept, an `int()` literal becomes a device index, and all else becomes the expanded path text |
| FindChessboardsLive.UrlMangledAsWritten | src/rakali/cli/find_chessboards_live.py:24-25 | a non-rtsp URL with "://" is handed to the reader changed: the user-expanded path is in normal form and the URL is not |
| FindChessboardsLive.UrlReadAsPath | src/rakali/cli/find_chessboards_live.py:21-25 | a non-rtsp URL with "://" fails `int()` and is read as the path `str(Path(url).expanduser())` (`Text.ExpandUser`) |
| FindChessboardsLive.DoubleSlashNormalised | src/rakali/cli/find_chessboards_live.py:25 | a text holding "://" is changed by `str(Path(...))` |
| FindChessboardsLive.AxisUrlMangledAsWritten | src/rakali/cli/find_chessboards_live.py:24-25 | "http://axis-lab" is opened as something other than itself |
| FindChessboardsLive.ResolveSource | src/rakali/cli/find_chessboards_live.py:18-25 | corrected: any source with a scheme or "rtsp" is handed over unchanged |
| FindChessboardsLive.ResolveSourceAgrees | src/rakali/cli/find_chessboards_live.py:18-25 | without a scheme the corrected resolution is the written one |
| FindChessboardsLive.IntegerSourceIsIndex | src/rakali/cli/find_chessboards_live.py:21-23 | the text of any integer opens that device index |
| FindChessboardsLive.Boards | src/rakali/cli/find_chessboards_live.py:41-46 | the frames in which the board is found, never more than were read |
| FindChessboardsLive.OutPath | src/rakali/cli/find_chessboards_live.py:28 | `Path(out_folder).expanduser()` as text: `Text.ExpandUser`, whose properties `Text.ExpandUserParts` states |
| FindChessboardsLive.PictureName | src/rakali/cli/find_chessboards_live.py:45 | `{out_path}/{count:05}.jpg`; distinct counts give distinct names (SavedNamesDistinct) |
| FindChessboardsLive.SavedAs | src/rakali/cli/find_chessboards_live.py:44-46 | board k is written under picture name k, in order; one more board appends one more picture (SavedAsSnoc) |
| FindChessboardsLive.BoardsCounted | src/rakali/cli/find_chessboards_live.py:43-50 | exactly one saved picture per frame with a board |
| FindChessboardsLive.SavedAsSnoc | src/rakali/cli/find_chessboards_live.py:44-46 | saving one more board appends its picture under the next number |
| FindChessboardsLive.SavedNamesDistinct | src/rakali/cli/find_chessboards_live.py:45 | no saved picture's name repeats another's |
| FindChessboardsLive.SaveBoards | src/rakali/cli/find_chessboards_live.py:36-57 | the loop saves the boards found before the first failed read as `{out}/{k:05}.jpg` from 0, and count is the number saved |
| FindChessboardsLive.SaveFromSource | src/rakali/cli/find_chessboards_live.py:31-57 | the reader on a given source opens unless its device size is negative (`ValueError`), and the pictures saved are those of `SaveBoards` |
| FindChessboardsLive.FindChessboardsInStream | src/rakali/cli/find_chessboards_live.py:16-57 | as written: the reader is opened on `ResolveSourceAsWritten` (a non-rtsp URL with its "//" collapsed); it opens unless that device's size is negative (`ValueError`), and the pictures saved are those of `SaveBoards` |
| FindChessboardsLive.FindChessboardsInStreamIntended | src/rakali/cli/find_chessboards_live.py:16-57 | the same run with the intended `ResolveSource`, which opens a URL as given |
| FindChessboardsLive.Cli | src/rakali/cli/find_chessboards_live.py:88-98 | as written: the source resolved by `ResolveSourceAsWritten`, success exactly when that device's size is non-negative, and the board size is (columns, rows) |
| FindChessboardsStereoLive.SavedPairs | src/rakali/cli/find_chessboards_stereo_live.py:104-108 | two pictures per saved pair |
| FindChessboardsStereoLive.PairName | src/rakali/cli/find_chessboards_stereo_live.py:107 | `{out_path}/{side}_{good_count:05}.jpg`; distinct sides or counts give distinct names (PairNamesDistinct) |
| FindChessboardsStereoLive.SavedPairsAt | src/rakali/cli/find_chessboards_stereo_live.py:106-107 | pair k is saved as left_{k:05}.jpg then right_{k:05}.jpg |
| FindChessboardsStereoLive.SavedPairsSnoc | src/rakali/cli/find_chessboards_stereo_live.py:104-108 | one more pair appends its left then right picture under the next number |
| FindChessboardsStereoLive.PairNamesDistinct | src/rakali/cli/find_chessboards_stereo_live.py:106-107 | two saved names agree only for the same side and the same number |
| FindChessboardsStereoLive.Pairs | src/rakali/cli/find_chessboards_stereo_live.py:85-108 | the good reads in which both frames show the board, in order |
| FindChessboardsStereoLive.PairsSnoc | src/rakali/cli/find_chessboards_stereo_live.py:85-108 | one more read adds its pair exactly when it is good and both frames have corners |
| FindChessboardsStereoLive.PairsCounted | src/rakali/cli/find_chessboards_stereo_live.py:104-108 | good_count equals the number of reads in which both frames have a board |
| FindChessboardsStereoLive.FirstUnstackable | src/rakali/cli/find_chessboards_stereo_live.py:110 | the first good read whose two frames cannot be stacked, the reads before it all stackable |
| FindChessboardsStereoLive.OutcomeAtStop | src/rakali/cli/find_chessboards_stereo_live.py:82-110 | a read with unequal heights ends the run with `ValueError` after its own pair is saved |
| FindChessboardsStereoLive.Outcome | src/rakali/cli/find_chessboards_stereo_live.py:82-113 | the run over the delivered reads: the reads taken up to and including the first pair that cannot be stacked, the pairs saved among them, and the `ValueError` that pair raises (OutcomeAtStop, OutcomeAtEnd, OutcomeCounts) |
| FindChessboardsStereoLive.FirstUnstackableAt | src/rakali/cli/find_chessboards_stereo_live.py:110 | the first unstackable read is unique |
| FindChessboardsStereoLive.OutcomeAtEnd | src/rakali/cli/find_chessboards_stereo_live.py:82-113 | without an unstackable read every read is counted and every board pair saved |
| FindChessboardsStereoLive.OutcomeCounts | src/rakali/cli/find_chessboards_stereo_live.py:82-108 | frame_count counts every read, failed ones included. good_count counts the reads with both boards, and twice that many pictures are saved |
| FindChessboardsStereoLive.TakeRead | src/rakali/cli/find_chessboards_stereo_live.py:83-110 | one iteration's body saves the pair only when both frames have corners and fails exactly on unequal heights |
| FindChessboardsStereoLive.StereoLoop | src/rakali/cli/find_chessboards_stereo_live.py:80-113 | the loop computes the run's outcome: counters, saved pictures and failure |
| FindChessboardsStereoLive.Cli | src/rakali/cli/find_chessboards_stereo_live.py:59-113 | equal eye sources exit; otherwise the run succeeds exactly when both devices report non-negative sizes (`ValueError` otherwise), with the outcome of the loop with board size (columns, rows) in the expanded folder |
| SplitFeed.HalfWidth | src/rakali/cli/split_feed.py:55 | `int(w / 2)` is w div 2: twice it is w or w - 1 |
| SplitFeed.HalvesRestore | src/rakali/cli/split_feed.py:61-62 | the left and right halves stacked side by side give the frame back |
| SplitFeed.LeftHalf | src/rakali/cli/split_feed.py:61 | `frame[0:h, 0:hw]` for the first frame's h and hw; with RightHalf it restores a frame of that size (HalvesRestore, HalvesShape) |
| SplitFeed.RightHalf | src/rakali/cli/split_feed.py:62 | `frame[0:h, hw:w]` for the first frame's h, hw and w (HalvesRestore, HalvesShape) |
| SplitFeed.HalvesShape | src/rakali/cli/split_feed.py:54-62 | both halves have the frame's height, and the right is wider than the left by exactly w mod 2 |
| SplitFeed.ReadAt | src/rakali/cli/split_feed.py:59 | the i-th read's frame is what the file delivers after i reads |
| SplitFeed.Lefts | src/rakali/cli/split_feed.py:61-64 | the left writer's frames are the left halves of the frames read, in order |
| SplitFeed.Rights | src/rakali/cli/split_feed.py:62-65 | the right writer's frames are the right halves, in order |
| SplitFeed.HalvesSnoc | src/rakali/cli/split_feed.py:58-65 | each further read adds one frame to each writer |
| SplitFeed.SplitOutcomeRestores | src/rakali/cli/split_feed.py:52-65 | the writers get one frame each per read after the sizing one, and together these restore each frame read |
| SplitFeed.SplitOutcome | src/rakali/cli/split_feed.py:52-67 | the halves written for the reads up to the first failure, sized by the first read; a failed first read followed by a good one is a `NameError` (SplitOutcomeRestores, SplitOutcomeRaises) |
| SplitFeed.SplitOutcomeRaises | src/rakali/cli/split_feed.py:52-62 | a failed sizing read followed by a good one raises `NameError`; a good sizing read never raises |
| SplitFeed.Cli | src/rakali/cli/split_feed.py:52-67 | the sizing read is never written, and each later read up to the first failure gives one frame to each writer |
| UndistortFisheye.Labels | src/rakali/cli/undistort_fisheye.py:85-90 | four label lines: cost, balance, dim2, dim3 |
| UndistortFisheye.SizeText | src/rakali/cli/undistort_fisheye.py:88-89 | a size shown as `(w, h)`, the text of a tuple |
| UndistortFisheye.Undistort | src/rakali/cli/undistort_fisheye.py:46-97 | a zero height divides by zero and an aspect other than 1920:1080 is an `AssertionError` |
| UndistortFisheye.UndistortSideBySide | src/rakali/cli/undistort_fisheye.py:46-97 | a frame of the calibration's aspect gives the original with the undistorted one stacked to its right: twice as wide, left half the original |
| UndistortFisheye.FullSizeUsesK | src/rakali/cli/undistort_fisheye.py:58-59 | at 1920x1080 the scaled K is K itself |
| UndistortFisheye.UndistortAcceptsAspect | src/rakali/cli/undistort_fisheye.py:49-51 | undistortion succeeds exactly on frames of the calibration's aspect |
| UndistortFisheye.SimpleUndistort | src/rakali/cli/undistort_fisheye.py:17-42 | an unreadable picture fails with `AttributeError` |
| UndistortFisheye.SimpleUndistortNeedsCalibrationHeight | src/rakali/cli/undistort_fisheye.py:17-42 | the fixed-size maps stack only with a 1080-high picture, giving 1080 by (w + 1920) |
| UndistortFisheye.Shown | src/rakali/cli/undistort_fisheye.py:123-127 | the frames the player is shown, never more than were read |
| UndistortFisheye.ShownStep | src/rakali/cli/undistort_fisheye.py:123-127 | a failed read shows nothing and goes on; a good one shows its undistorted frame or ends the command with its exception |
| UndistortFisheye.ShownStopsAtFailure | src/rakali/cli/undistort_fisheye.py:123-127 | once a frame is rejected, later reads change nothing |
| UndistortFisheye.ShownFailsOnRejectedFrame | src/rakali/cli/undistort_fisheye.py:123-127 | the command runs through exactly when every good read is accepted |
| UndistortFisheye.ShownAcceptsAspect | src/rakali/cli/undistort_fisheye.py:115-127 | the command runs through exactly when every good read has the calibration's aspect |
| UndistortFisheye.Cli | src/rakali/cli/undistort_fisheye.py:115-127 | the loop computes `Shown` |
| UndistortFisheye.Call | src/rakali/cli/undistort_fisheye.py:127 | `undistort(img=frame)` for the k-th shown frame, with the k-th cost text |
| DisparityFisheye.SidePathsDiffer | src/rakali/cli/disparity_fisheye.py:91-93 | the left and right files of one pair are different files |
| DisparityFisheye.SourceFolder | src/rakali/cli/disparity_fisheye.py:86 | `Path(chessboards_folder).expanduser()` as text: `Text.ExpandUser`, whose properties `Text.ExpandUserParts` states |
| DisparityFisheye.FramePath | src/rakali/cli/disparity_fisheye.py:92-93 | `source / Path(f"{side}_{image_number}.jpg")`, with the file name parsed as a path, so '/'-separated parts of the image number are normalised; the left and right paths differ (SidePathsDiffer) |
| DisparityFisheye.SidePaths | src/rakali/cli/disparity_fisheye.py:91-93 | the two paths the loop builds, left then right |
| DisparityFisheye.PairFrames | src/rakali/cli/disparity_fisheye.py:82-99 | [left, right] as read, or `SystemExit`. A missing folder exits before any file is looked at, and a missing left file before the right one is checked. Files are named `{side}_{n}.jpg` in that order |
| DisparityFisheye.PairFramesOk | src/rakali/cli/disparity_fisheye.py:86-97 | the pair is returned exactly when the folder and both files exist |
| DisparityFisheye.SideFrames | src/rakali/cli/disparity_fisheye.py:89-97 | given the two side paths: [left, right] as read, or `SystemExit` at the first missing file, which is the last one announced; the announced files are a prefix of the paths |
| DisparityFisheye.LoadSides | src/rakali/cli/disparity_fisheye.py:89-97 | the loop over the two side paths computes `SideFrames` |
| DisparityFisheye.GetFrames | src/rakali/cli/disparity_fisheye.py:82-99 | the folder check followed by the loop computes `PairFrames` |
| DisparityFisheye.CorrectPair | src/rakali/cli/disparity_fisheye.py:65-74 | both eyes' maps are built from the left frame, both frames corrected, and the originals stacked above the corrected ones |
| DisparityFisheye.Cli | src/rakali/cli/disparity_fisheye.py:49-79 | a missing calibration file or pair exits. A success shows the originals above both frames corrected with maps built from the left frame |

## Left out

- The background thread of `VideoStream.start` is not modelled. `update` is one step (`UpdateStep`), and interleavings are not modelled.
- Every OpenCV solver and image operation is an uninterpreted function-typed parameter. This covers calibration, stereo calibration, rectification, new-K estimation, map building, `remap`, `undistort`, `projectPoints`, `norm`, corner finding, drawing and `resize`. Floating point is `real`, and the aspect test is integer cross-multiplication.
- `random.seed`/`random.choices` are replaced by a seed-indexed oracle (`Py.Rng`) whose draws lie in [0, 1). The Mersenne Twister is not modelled.
- The `.npz` and JSON byte encodings, `imwrite` and the `NumpyEncoder` are not modelled. Files are records and JSON is lossless on values. `glob` is a given list of pictures.
- `mkdir` of output folders, `print`, logging, windows, key polls (`go()`, `waitKey`) and frame labels/annotations are not modelled. A capture loop takes one iteration per element of the read sequence it is given.
- The annotation routine is assumed to keep a frame's shape (`UndistortFisheye.KeepsShape`), because `add_frame_labels` is not part of this model.
- Video writers (`video/writer.py`) are not part of this model. The mono capture loop's and split loop's writers are the returned sequences. The stereo writer helper is not defined in the shown sources, so its writes are not modelled.
- The revisions of the shown files do not agree. Each caller is modelled against the interface it expects:
  - `set_maps` passes `image_size=`/`R=` to a `get_maps` that has neither, so the stereo maps are a `StereoMapper` parameter.
  - Readers are called with `name=`.
  - `read()` is unpacked as `(ok, frame)`.
  - `VideoFile` is imported but not shown, so its frames are a given sequence.
  - The `cost` decorator is imported from `fps.py` but is not there, so cost labels are given text.
  - `disparity_fisheye` imports `CalibratedStereoFisheyeCamera` from `camera/fisheye.py`, which does not define it. The camera is modelled as the class of `camera/fisheye_stereo.py`.
  - `split_feed` passes `fps=` to `VideoWriter`, whose constructor in `video/writer.py` has no such parameter. Writers are not modelled; the two written sequences stand for them.
- `calibration_time_formatted` (datetime formatting) is not modelled.
- `undistort_fisheye`'s `--calibration-file` option is never used by the command, so it is not a parameter. `disparity_fisheye`'s `--scale` option is likewise unused.
- `disparity_fisheye.label_frame` is not modelled, because it is never called.
- Text.ExpandUser: a first component "~name" naming another user is left unexpanded (the user database is not modelled), and `pathlib`'s `RuntimeError` when the home folder cannot be determined or itself starts with "~" is not modelled; the home folder is taken as `os.path.expanduser` gives it (trailing separators removed), which is what Python 3.10 and later do.
- Of `pathlib`, the POSIX parse is modelled (the root, "//" kept only as exactly two leading slashes, empty and "." components dropped, ".." kept); Windows paths are not.
- `Text.ParseInt`: only ASCII digits are accepted, while Python's `int()` also accepts the other Unicode decimal digits, because the digit tables are out of scope.
- `Fisheye.MapParameters`: a zero calibration height is Python's `ZeroDivisionError`, as for the tuple `DIM` of `undistort_fisheye`. When `calibration_dim` holds numpy numbers (a record loaded from an archive), numpy gives inf or nan instead, and the aspect assertion fails with `AssertionError`; that case is not distinguished.
- `Video.VideoStream.Copy`: `np.copy(None)` is not distinguished from a missing frame, because frames are values.
- OpenCV's failures on zero-width images are not modelled, except in `get_maps`: there a zero calibration width gives a NaN K, and `Fisheye.MapParameters` raises `CvError`. "No frame" everywhere is `None`.
- Of the checks OpenCV's calibration solvers make, only the view counts are modelled (`Collection.SolverAccepts` for the mono solvers, `FisheyeStereo.StereoSolverAccepts` for the stereo one). Per-view point counts, the `CALIB_CHECK_COND` conditioning test and non-convergence are not, because the solvers are uninterpreted.
- `FisheyeStereo.Assemble`: a right `image_points` entry that is not a list is a `ValueError`; numpy would reshape a stored matrix or number of the right size, and that case is not modelled.
- Negative board sizes and `not dim2` on tuple-valued falsy sizes are not modelled. Sizes are naturals, and dims are `Option`s.
- `Video.VideoStream.Read` and `Video.VideoStream.Size` are functions of the current state with no contract of their own. `read()` returns the frame alone; the model's `Read` reads the frame, and `Open`'s contract fixes `Size`.
- `Py.Choices`: the draws are stated through the oracle, not as Python's exact algorithm, because the RNG is an oracle.
- `UndistortFisheye.Undistort`: its success case is stated through `UndistortSideBySide`, which assumes that the maps and labels keep sizes.
- `Fisheye.Undistort`: the frame size is stated only for collaborators that honour sizes (`SizesHonoured`), because `remap` is uninterpreted.

## Findings

| source | as written | input that shows it | evidently intended | confidence | as-written member | corrected member |
|---|---|---|---|---|---|---|
| src/rakali/camera/fisheye_stereo.py:200-207 | a missing calibration file leaves `calibration` as `None`, and `print_calibration(None)` then raises `TypeError` | any path that does not exist | the constructor guards the file so a missing calibration gives an uncalibrated camera (cid "UNSET") | high, not executed | FisheyeStereo.MissingFileAsWritten | FisheyeStereo.MissingFileGuarded |
| src/rakali/cli/find_chessboards_live.py:24-25 | a non-rtsp URL fails `int()` and is turned into `str(Path(url).expanduser())`, which collapses "//" | "http://axis-lab" (the default's scheme and host) opens "http:/axis-lab" | URLs are handed to the reader unchanged | high, not executed | FindChessboardsLive.AxisUrlMangledAsWritten | FindChessboardsLive.ResolveSource |
| src/rakali/cli/calibrate_fisheye.py:156-157 | `random.choices(image_points, k=pick_size)` draws pick_size image samples but `object_points[:pick_size]` keeps only the n found, so `cv.fisheye.calibrate` gets unequal counts | any landscape run finding between 1 and 49 boards at the default pick_size 50 | the subsample shrinks to the views at hand, with as many object as image samples | high, not executed | CalibrateFisheye.FewBoardsFail | Collection.SubsampleMatched |
| src/rakali/cli/calibrate_pinhole.py:164-165 | the same subsample, so `cv.calibrateCamera` gets unequal counts | any landscape run finding between 1 and 49 boards at the default k 50 | as for the fisheye command | high, not executed | CalibratePinhole.FewBoardsFail | Collection.SubsampleMatched |
