/**
 * The loader and the top-level page: how each image module is paired with
 * its annotation file, how an annotation file is normalised into an image
 * record, and when the viewer is shown.
 *
 * The two module tables the bundler builds are inputs: the image table as a
 * sequence of (path, resolved image URL) pairs in iteration order, the
 * annotation table as a map from path to the already-parsed document.
 */
module App {
  import opened Wrappers
  import opened Records
  import ImgView

  /** Where the images and the annotation files live, relative to the loader. */
  const ImagesDir: string := "../data/images/"
  const JsonDir: string := "../data/jsons/"
  const JpgExt: string := ".jpg"
  const JsonExt: string := ".json"
  const AltPrefix: string := "Image "
  const LoadErrorMessage: string := "Error loading images or JSON data"

  // ---------------------------------------------------------------------
  // Annotation documents, as parsed
  // ---------------------------------------------------------------------

  /** `input.data`: the image's size, either of which may be absent. */
  datatype Dims = Dims(width: Option<real>, height: Option<real>)

  /** `prediction.bbox`. */
  datatype BoxCoords = BoxCoords(x: real, y: real, width: real, height: real)

  /** One element of `output.predictions`; its `bbox` object may be absent. */
  datatype Prediction = Prediction(confidence: real, labelText: string, bbox: Option<BoxCoords>)

  /**
   * An annotation document. `inputData` is None when `input` or `input.data`
   * is missing, `predictions` is None when `output` or `output.predictions`
   * is missing: reading through either throws in the loader.
   */
  datatype JsonDoc = JsonDoc(inputData: Option<Dims>, predictions: Option<seq<Prediction>>)

  /** The loader rejects as a whole when an annotation document has the wrong shape. */
  datatype LoadError = MalformedJson(jsonPath: string)

  // ---------------------------------------------------------------------
  // Paths
  // ---------------------------------------------------------------------

  /** The index of the last '/' before position `end`, if any. */
  function LastSlash(path: string, end: nat): (r: Option<nat>)
    requires end <= |path|
    ensures r.Some? ==> r.value < end
    decreases end
  {
    if end == 0 then None
    else if path[end - 1] == '/' then Some(end - 1)
    else LastSlash(path, end - 1)
  }

  /** LastSlash finds the last '/' before `end`, or reports that there is none. */
  lemma {:induction false} LastSlashSpec(path: string, end: nat)
    requires end <= |path|
    ensures var r := LastSlash(path, end);
            (r.Some? ==> r.value < end && path[r.value] == '/' &&
                         forall j :: r.value < j < end ==> path[j] != '/') &&
            (r.None? ==> forall j :: 0 <= j < end ==> path[j] != '/')
    decreases end
  {
    if end > 0 && path[end - 1] != '/' {
      LastSlashSpec(path, end - 1);
    }
  }

  /** The last '/'-separated segment of a module path: `path.split('/').pop()`. */
  function ImageName(path: string): string {
    match LastSlash(path, |path|)
    case None => path
    case Some(i) => path[i + 1..]
  }

  /**
   * The name is the longest suffix of the path without '/': a suffix with no
   * '/' that is either the whole path or preceded by a '/'.
   */
  lemma ImageNameIsLastSegment(path: string)
    ensures var name := ImageName(path);
            '/' !in name &&
            |name| <= |path| && name == path[|path| - |name|..] &&
            (|name| < |path| ==> path[|path| - |name| - 1] == '/')
  {
    LastSlashSpec(path, |path|);
  }

  /** `pat` occurs in `s` starting at index i. */
  predicate OccursAt(s: string, pat: string, i: int) {
    0 <= i && i + |pat| <= |s| && s[i..i + |pat|] == pat
  }

  /** The first index at or after `from` where `pat` occurs, if any: `indexOf`. */
  function IndexOfFrom(s: string, pat: string, from: nat): (r: Option<nat>)
    ensures r.Some? ==> r.value + |pat| <= |s|
    decreases |s| - from
  {
    if from + |pat| > |s| then None
    else if s[from..from + |pat|] == pat then Some(from)
    else IndexOfFrom(s, pat, from + 1)
  }

  /** IndexOfFrom finds the first occurrence at or after `from`, or reports that there is none. */
  lemma {:induction false} IndexOfFromSpec(s: string, pat: string, from: nat)
    ensures var r := IndexOfFrom(s, pat, from);
            (r.Some? ==> from <= r.value && OccursAt(s, pat, r.value) &&
                         forall j :: from <= j < r.value ==> !OccursAt(s, pat, j)) &&
            (r.None? ==> forall j :: from <= j ==> !OccursAt(s, pat, j))
    decreases |s| - from
  {
    if from + |pat| <= |s| && s[from..from + |pat|] != pat {
      IndexOfFromSpec(s, pat, from + 1);
    }
  }

  /** `s.replace(pat, rep)` with a string pattern. */
  function ReplaceFirst(s: string, pat: string, rep: string): string {
    match IndexOfFrom(s, pat, 0)
    case None => s
    case Some(i) => s[..i] + rep + s[i + |pat|..]
  }

  /** With no occurrence of the pattern the string is unchanged. */
  lemma ReplaceFirstWithout(s: string, pat: string, rep: string)
    requires forall j :: !OccursAt(s, pat, j)
    ensures ReplaceFirst(s, pat, rep) == s
  {
    IndexOfFromSpec(s, pat, 0);
  }

  /** When the first occurrence is at i, exactly that occurrence is replaced. */
  lemma ReplaceFirstAt(s: string, pat: string, rep: string, i: nat)
    requires OccursAt(s, pat, i)
    requires forall j :: 0 <= j < i ==> !OccursAt(s, pat, j)
    ensures ReplaceFirst(s, pat, rep) == s[..i] + rep + s[i + |pat|..]
  {
    IndexOfFromSpec(s, pat, 0);
    // neither occurrence can come before the other
    assert IndexOfFrom(s, pat, 0).Some?;
    assert !(IndexOfFrom(s, pat, 0).value < i);
    assert !(i < IndexOfFrom(s, pat, 0).value);
  }

  /** The annotation path paired with an image file name. */
  function JsonPath(imageName: string): string {
    JsonDir + ReplaceFirst(imageName, JpgExt, JsonExt)
  }

  /**
   * The annotation path lies in the annotations folder, and a name without
   * ".jpg" is kept verbatim.
   */
  lemma JsonPathShape(imageName: string)
    ensures var p := JsonPath(imageName);
            |p| >= |JsonDir| && p[..|JsonDir|] == JsonDir &&
            ((forall j :: !OccursAt(imageName, JpgExt, j)) ==> p == JsonDir + imageName)
  {
    if forall j :: !OccursAt(imageName, JpgExt, j) {
      ReplaceFirstWithout(imageName, JpgExt, JsonExt);
    }
  }

  /**
   * A file name that is a stem plus ".jpg", with ".jpg" nowhere in the stem,
   * is paired with the stem plus ".json".
   */
  lemma JsonPathOfJpg(stem: string)
    requires forall j :: !OccursAt(stem, JpgExt, j)
    ensures JsonPath(stem + JpgExt) == JsonDir + stem + JsonExt
  {
    var s := stem + JpgExt;
    assert OccursAt(s, JpgExt, |stem|) by { assert s[|stem|..|stem| + 4] == JpgExt; }
    forall j | 0 <= j < |stem|
      ensures !OccursAt(s, JpgExt, j)
    {
      if j + 4 <= |stem| {
        assert s[j..j + 4] == stem[j..j + 4];
        assert !OccursAt(stem, JpgExt, j);
      } else {
        // the window would put the extension's leading '.' on one of its letters
        assert s[j..j + 4][|stem| - j] == s[|stem|] == '.';
        assert JpgExt[|stem| - j] != '.';
      }
    }
    assert s[..|stem|] == stem;
    assert s[|stem| + 4..] == [];
    ReplaceFirstAt(s, JpgExt, JsonExt, |stem|);
  }

  /** The name taken from a path that ends in '/' and then a file name is that file name. */
  lemma ImageNameAfterSlash(dir: string, file: string)
    requires '/' !in file
    ensures ImageName(dir + "/" + file) == file
  {
    var path := dir + "/" + file;
    LastSlashSpec(path, |path|);
    assert path[|dir|] == '/';
    assert forall j :: |dir| < j < |path| ==> path[j] == file[j - |dir| - 1];
    assert path[|dir| + 1..] == file;
  }

  /** An image `<stem>.jpg` in the images folder is paired with `<stem>.json` in the annotations folder. */
  lemma PairedJsonPath(stem: string)
    requires '/' !in stem
    requires forall j :: !OccursAt(stem, JpgExt, j)
    ensures ImageName(ImagesDir + stem + JpgExt) == stem + JpgExt
    ensures JsonPath(ImageName(ImagesDir + stem + JpgExt)) == JsonDir + stem + JsonExt
  {
    var file := stem + JpgExt;
    assert '/' !in file by {
      forall k | 0 <= k < |file| ensures file[k] != '/' {
        if k >= |stem| { assert file[k] == JpgExt[k - |stem|]; }
      }
    }
    assert ImagesDir == "../data/images" + "/";
    assert ImagesDir + stem + JpgExt == "../data/images" + "/" + file;
    ImageNameAfterSlash("../data/images", file);
    JsonPathOfJpg(stem);
  }

  // ---------------------------------------------------------------------
  // Normalising one image
  // ---------------------------------------------------------------------

  /** `value || 0` on a number that may be absent (0 itself is also falsy, and stays 0). */
  function OrZero(v: Option<real>): (r: real)
    ensures v.None? ==> r == 0.0
    ensures v.Some? ==> r == v.value
    // JavaScript's `v || 0`: a truthy number is kept, anything falsy gives 0
    ensures r == (if v.Some? && v.value != 0.0 then v.value else 0.0)
  {
    v.GetOr(0.0)
  }

  /** The loader's record `b` carries exactly the fields of prediction `p`. */
  predicate Copies(b: BBox, p: Prediction) {
    p.bbox.Some? &&
    b.confidence == p.confidence && b.labelText == p.labelText &&
    b.x == p.bbox.value.x && b.y == p.bbox.value.y &&
    b.width == p.bbox.value.width && b.height == p.bbox.value.height
  }

  /** `predictions.map(...)`: one record per prediction, in order; None if a prediction has no bbox. */
  function ToBBoxes(preds: seq<Prediction>): (r: Option<seq<BBox>>)
    ensures r.Some? <==> forall i :: 0 <= i < |preds| ==> preds[i].bbox.Some?
    ensures r.Some? ==> |r.value| == |preds|
    ensures r.Some? ==> forall i :: 0 <= i < |preds| ==> Copies(r.value[i], preds[i])
    decreases |preds|
  {
    if preds == [] then Some([])
    else
      var p := preds[0];
      match p.bbox
      case None => None
      case Some(c) =>
        match ToBBoxes(preds[1..])
        case None => None
        case Some(rest) =>
          Some([BBox(p.confidence, p.labelText, c.x, c.y, c.width, c.height)] + rest)
  }

  /**
   * The record pushed for the image named `name` whose annotation path is
   * `jsonPath`, given the annotation document found there, if any: without
   * a document no boxes and zero size; with one, a failure exactly when the
   * document has the wrong shape, and otherwise its size (0 when absent) and
   * its predictions copied in order.
   */
  function BuildRecord(name: string, jsonPath: string, src: string, json: Option<JsonDoc>)
    : (r: Result<ImageRecord, LoadError>)
    ensures r.Success? ==> r.value.src == src && r.value.alt == AltPrefix + name
    ensures json.None? ==> r.Success? && r.value.bboxes == [] &&
                           r.value.width == 0.0 && r.value.height == 0.0
    ensures json.Some? ==>
              var doc := json.value;
              (r.Failure? <==> doc.inputData.None? || doc.predictions.None? ||
                               exists i :: 0 <= i < |doc.predictions.value| &&
                                           doc.predictions.value[i].bbox.None?) &&
              (r.Failure? ==> r.error == MalformedJson(jsonPath)) &&
              (r.Success? ==>
                 r.value.width == OrZero(doc.inputData.value.width) &&
                 r.value.height == OrZero(doc.inputData.value.height) &&
                 |r.value.bboxes| == |doc.predictions.value| &&
                 forall i :: 0 <= i < |r.value.bboxes| ==>
                   Copies(r.value.bboxes[i], doc.predictions.value[i]))
  {
    var alt := AltPrefix + name;
    match json
    case None => Success(ImageRecord(src, alt, [], 0.0, 0.0))
    case Some(doc) =>
      match doc.inputData
      case None => Failure(MalformedJson(jsonPath))
      case Some(dims) =>
        match doc.predictions
        case None => Failure(MalformedJson(jsonPath))
        case Some(preds) =>
          match ToBBoxes(preds)
          case None => Failure(MalformedJson(jsonPath))
          case Some(boxes) =>
            Success(ImageRecord(src, alt, boxes, OrZero(dims.width), OrZero(dims.height)))
  }

  /** The annotation document is read only when its path is a key of the table. */
  function LookupJson(jsonModules: map<string, JsonDoc>, jsonPath: string): (r: Option<JsonDoc>)
    ensures r.Some? <==> jsonPath in jsonModules
    ensures r.Some? ==> r.value == jsonModules[jsonPath]
  {
    if jsonPath in jsonModules then Some(jsonModules[jsonPath]) else None
  }

  /** The record the loader pushes for the image module at `path`. */
  function NormalizeEntry(path: string, src: string, jsonModules: map<string, JsonDoc>)
    : Result<ImageRecord, LoadError>
  {
    var name := ImageName(path);
    var jsonPath := JsonPath(name);
    BuildRecord(name, jsonPath, src, LookupJson(jsonModules, jsonPath))
  }

  /**
   * The loader: one record per image module, in iteration order, or the
   * error of the first module whose annotation document is malformed.
   */
  method LoadData(imageModules: seq<(string, string)>, jsonModules: map<string, JsonDoc>)
    returns (r: Result<seq<ImageRecord>, LoadError>)
    ensures r.Success? <==>
            forall k :: 0 <= k < |imageModules| ==>
              NormalizeEntry(imageModules[k].0, imageModules[k].1, jsonModules).Success?
    ensures r.Success? ==>
            |r.value| == |imageModules| &&
            forall k :: 0 <= k < |imageModules| ==>
              r.value[k] == NormalizeEntry(imageModules[k].0, imageModules[k].1, jsonModules).value
    ensures r.Failure? ==>
            exists k :: 0 <= k < |imageModules| &&
              NormalizeEntry(imageModules[k].0, imageModules[k].1, jsonModules) == Failure(r.error) &&
              forall j :: 0 <= j < k ==>
                NormalizeEntry(imageModules[j].0, imageModules[j].1, jsonModules).Success?
  {
    var images: seq<ImageRecord> := [];
    var i := 0;
    while i < |imageModules|
      invariant 0 <= i <= |imageModules| && |images| == i
      invariant forall k :: 0 <= k < i ==>
                  NormalizeEntry(imageModules[k].0, imageModules[k].1, jsonModules).Success? &&
                  images[k] == NormalizeEntry(imageModules[k].0, imageModules[k].1, jsonModules).value
    {
      var entry := NormalizeEntry(imageModules[i].0, imageModules[i].1, jsonModules);
      if entry.Failure? {
        return Failure(entry.error);
      }
      images := images + [entry.value];
      i := i + 1;
    }
    return Success(images);
  }

  // ---------------------------------------------------------------------
  // The page
  // ---------------------------------------------------------------------

  /** The page's state: the loaded list and the error message, if any. */
  datatype AppState = AppState(images: seq<ImageRecord>, error: Option<string>)

  const InitialState: AppState := AppState([], None)

  /** The state after the loader settles: its list on success, the fixed message on failure. */
  function FetchData(st: AppState, loaded: Result<seq<ImageRecord>, LoadError>): (s: AppState)
    ensures loaded.Success? ==> s.images == loaded.value && s.error == st.error
    ensures loaded.Failure? ==> s.images == st.images && s.error == Some(LoadErrorMessage)
  {
    match loaded
    case Success(data) => st.(images := data)
    case Failure(_) => st.(error := Some(LoadErrorMessage))
  }

  /** What the page shows. */
  datatype Screen = ErrorScreen(message: string) | NoImagesFound | ViewerScreen(images: seq<ImageRecord>)

  /** A message is shown when it is a non-empty string (a truthy value). */
  predicate HasError(st: AppState) {
    st.error.Some? && st.error.value != ""
  }

  function Render(st: AppState): (v: Screen)
    ensures v.ErrorScreen? <==> HasError(st)
    ensures v.ViewerScreen? <==> !HasError(st) && |st.images| > 0
    ensures v.ViewerScreen? ==> v.images == st.images && |v.images| > 0
  {
    if HasError(st) then ErrorScreen(st.error.value)
    else if |st.images| > 0 then ViewerScreen(st.images)
    else NoImagesFound
  }

  /**
   * After loading from the initial state, the viewer is shown exactly when
   * the loader succeeded with at least one image, and an error screen
   * exactly when it failed.
   */
  lemma ScreenAfterLoad(loaded: Result<seq<ImageRecord>, LoadError>)
    ensures Render(InitialState) == NoImagesFound
    ensures Render(FetchData(InitialState, loaded)).ViewerScreen?
            <==> loaded.Success? && |loaded.value| > 0
    ensures Render(FetchData(InitialState, loaded)).ErrorScreen? <==> loaded.Failure?
  {
  }

  /**
   * Mounting the viewer for whatever the page renders: it is created only
   * for a non-empty list, which is what its first image lookup needs.
   */
  method MountViewer(st: AppState) returns (viewer: ImgView.ImageViewer?)
    ensures viewer != null <==> Render(st).ViewerScreen?
    ensures viewer != null ==> fresh(viewer) && viewer.Valid() &&
                               viewer.images == st.images && viewer.currentIndex == 0
  {
    match Render(st)
    case ViewerScreen(images) =>
      viewer := new ImgView.ImageViewer(images);
    case _ =>
      viewer := null;
  }
}
