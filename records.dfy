/** The values the modelled code keeps in dicts and writes to files, and the
    files themselves. A file is an `.npz` archive (`np.savez_compressed` /
    `np.load`), a JSON document, a picture, or anything else; a `Disk` maps
    path strings to files and also knows which folders exist and the user's
    home folder. The byte encodings are not modelled: an archive or document
    holds the values themselves. */
module Records {
  import opened Py
  import opened Grid
  import opened Mats
  import Text

  /** A numeric matrix (camera matrix, distortion vector, rotation, translation, ...). */
  type Matrix = seq<seq<real>>

  datatype Value =
    | IntV(i: int)                          // a Python int
    | FloatV(x: real)                       // a Python float
    | Scalar(x: real)                       // a 0-d numpy array, as `np.load` returns a saved number
    | StrV(s: string)                       // a Python str
    | IntsV(ints: seq<int>)                 // a tuple (or 1-d array) of ints: image_size, roi, ...
    | MatV(m: Matrix)                       // a numeric array
    | MatsV(ms: seq<Matrix>)                // a list of numeric arrays (per-sample rotations, ...)
    | ObjectsV(objects: seq<ObjectSample>)  // a list of object-point sets
    | ImagesV(images: seq<ImageSample>)     // a list of image-point sets
    | DictV(entries: map<string, Value>)    // a nested dict

  /** A Python dict with string keys. */
  type Doc = map<string, Value>

  datatype File =
    | Npz(arrays: Doc)
    | Json(doc: Doc)
    | Picture(image: Image)
    | Bytes

  datatype Disk = Disk(files: map<string, File>, folders: set<string>, home: string)

  /** A call that may write files: the disk it leaves behind, whether it
      returned or raised, and what it returned or raised. */
  datatype Effect<T> = Effect(disk: Disk, result: Result<T>)

  /** `Path(p).exists()`. */
  predicate Exists(disk: Disk, p: string) {
    p in disk.files || p in disk.folders
  }

  /** `cv.imread(path)`: the picture stored at `path`, and `None` (no
      exception) when nothing readable as a picture is there. */
  function Imread(disk: Disk, path: string): (r: Option<Image>)
    ensures r.Some? <==> path in disk.files && disk.files[path].Picture?
    ensures r.Some? ==> r.value == disk.files[path].image
  {
    if path in disk.files && disk.files[path].Picture? then Some(disk.files[path].image) else None
  }

  /** `d[key]`. */
  function Get(d: Doc, key: string): (r: Result<Value>)
    ensures r.Ok? <==> key in d
    ensures r.Ok? ==> r.value == d[key]
    ensures !r.Ok? ==> r.exc == KeyError
  {
    if key in d then Ok(d[key]) else Raise(KeyError)
  }

  /** `d.get(key, default)`. */
  function GetOr(d: Doc, key: string, default: Value): (r: Value)
    ensures key in d ==> r == d[key]
    ensures key !in d ==> r == default
  {
    if key in d then d[key] else default
  }

  /** An array holding exactly one number, which numpy converts with `int()`
      and `float()` as it would that number. */
  predicate SizeOne(v: Value) {
    (v.IntsV? && |v.ints| == 1) || (v.MatV? && |v.m| == 1 && |v.m[0]| == 1)
  }

  /** `int(v)`: exact on ints, truncating toward zero on floats and 0-d arrays,
      and on an array of one entry that entry's conversion; anything else is a
      `TypeError`. */
  function ToInt(v: Value): (r: Result<int>)
    ensures v.IntV? ==> r == Ok(v.i)
    ensures (v.FloatV? || v.Scalar?) ==> r == Ok(Trunc(v.x))
    ensures v.IntsV? && |v.ints| == 1 ==> r == Ok(v.ints[0])
    ensures v.MatV? && SizeOne(v) ==> r == Ok(Trunc(v.m[0][0]))
    ensures !(v.IntV? || v.FloatV? || v.Scalar? || SizeOne(v)) ==> r == Raise(TypeError)
  {
    match v
    case IntV(i) => Ok(i)
    case FloatV(x) => Ok(Trunc(x))
    case Scalar(x) => Ok(Trunc(x))
    case IntsV(ints) => if |ints| == 1 then Ok(ints[0]) else Raise(TypeError)
    case MatV(m) => if |m| == 1 && |m[0]| == 1 then Ok(Trunc(m[0][0])) else Raise(TypeError)
    case _ => Raise(TypeError)
  }

  /** `float(v)`, with the same one-entry arrays accepted. */
  function ToFloat(v: Value): (r: Result<real>)
    ensures v.IntV? ==> r == Ok(v.i as real)
    ensures (v.FloatV? || v.Scalar?) ==> r == Ok(v.x)
    ensures v.IntsV? && |v.ints| == 1 ==> r == Ok(v.ints[0] as real)
    ensures v.MatV? && SizeOne(v) ==> r == Ok(v.m[0][0])
    ensures !(v.IntV? || v.FloatV? || v.Scalar? || SizeOne(v)) ==> r == Raise(TypeError)
  {
    match v
    case IntV(i) => Ok(i as real)
    case FloatV(x) => Ok(x)
    case Scalar(x) => Ok(x)
    case IntsV(ints) => if |ints| == 1 then Ok(ints[0] as real) else Raise(TypeError)
    case MatV(m) => if |m| == 1 && |m[0]| == 1 then Ok(m[0][0]) else Raise(TypeError)
    case _ => Raise(TypeError)
  }

  /** `list(a)` or `tuple(a)`: a number (a Python number or a 0-d array)
      cannot be iterated; any other value is kept as the sequence of its entries. */
  function Iterate(v: Value): (r: Result<Value>)
    ensures (v.Scalar? || v.IntV? || v.FloatV?) <==> r == Raise(TypeError)
    ensures !(v.Scalar? || v.IntV? || v.FloatV?) ==> r == Ok(v)
  {
    if v.Scalar? || v.IntV? || v.FloatV? then Raise(TypeError) else Ok(v)
  }

  /** What `np.savez` stores for a value: Python numbers become 0-d arrays. */
  function AsArray(v: Value): (r: Value)
    ensures (v.IntV? ==> r == Scalar(v.i as real)) && (v.FloatV? ==> r == Scalar(v.x))
    ensures !(v.IntV? || v.FloatV?) ==> r == v
  {
    match v
    case IntV(i) => Scalar(i as real)
    case FloatV(x) => Scalar(x)
    case _ => v
  }

  /** A value `np.savez` stores as it is: an array, not a bare Python number. */
  predicate IsArray(v: Value) {
    !(v.IntV? || v.FloatV?)
  }

  /** The file `np.savez_compressed` writes: ".npz" is appended unless present. */
  function NpzPath(p: string): (r: string)
    ensures Text.EndsWith(r, ".npz")
    ensures Text.EndsWith(p, ".npz") ==> r == p
  {
    if Text.EndsWith(p, ".npz") then p else p + ".npz"
  }

  /** `np.savez_compressed(path, **arrays)`. */
  function SaveNpz(disk: Disk, path: string, arrays: Doc): (d: Disk)
    ensures d.files == disk.files[NpzPath(path) := Npz(map k | k in arrays :: AsArray(arrays[k]))]
    ensures NpzPath(path) in d.files && d.files[NpzPath(path)].Npz?
    ensures d.files.Keys == disk.files.Keys + {NpzPath(path)}
    ensures d.files[NpzPath(path)].arrays.Keys == arrays.Keys
    ensures forall p :: p in disk.files && p != NpzPath(path) ==> p in d.files && d.files[p] == disk.files[p]
    ensures forall k :: k in arrays ==> d.files[NpzPath(path)].arrays[k] == AsArray(arrays[k])
    ensures d.folders == disk.folders && d.home == disk.home
  {
    disk.(files := disk.files[NpzPath(path) := Npz(map k | k in arrays :: AsArray(arrays[k]))])
  }

  /** `np.load(path)` on an archive: a missing file raises `FileNotFoundError`
      (an `IOError`), a file that is not an archive a `ValueError`. */
  function LoadNpz(disk: Disk, path: string): (r: Result<Doc>)
    ensures r.Ok? <==> path in disk.files && disk.files[path].Npz?
    ensures r.Ok? ==> r.value == disk.files[path].arrays
    ensures path !in disk.files ==> r == Raise(IOError)
  {
    if path !in disk.files then Raise(IOError)
    else if !disk.files[path].Npz? then Raise(ValueError)
    else Ok(disk.files[path].arrays)
  }

  /** Writing a JSON document (`open(path, 'w')` followed by `f.write(json.dumps(doc))`). */
  function SaveJson(disk: Disk, path: string, doc: Doc): (d: Disk)
    ensures d.files == disk.files[path := Json(doc)]
    ensures d.folders == disk.folders && d.home == disk.home
  {
    disk.(files := disk.files[path := Json(doc)])
  }

  /** A dict is truthy when it exists and is not empty. */
  predicate Truthy(d: Option<Doc>) {
    d.Some? && d.value != map[]
  }

  /** A loaded archive entry is what was saved, up to `AsArray`. */
  lemma SavedEntry(disk: Disk, path: string, arrays: Doc, key: string)
    requires key in arrays
    ensures var d := SaveNpz(disk, path, arrays);
            LoadNpz(d, NpzPath(path)).Ok? && key in LoadNpz(d, NpzPath(path)).value
            && LoadNpz(d, NpzPath(path)).value[key] == AsArray(arrays[key])
  {
  }

  /** `int(...)` of a saved int and `float(...)` of a saved float give them back. */
  lemma NumbersSurviveArchive(i: int, x: real)
    ensures ToInt(AsArray(IntV(i))) == Ok(i)
    ensures ToFloat(AsArray(FloatV(x))) == Ok(x)
  {
    assert Trunc(i as real) == i;
  }
}
