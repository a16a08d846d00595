/*
 * The upload checks of the Flask service: `allowed_file`, the order of the
 * early returns of `predict` before any image is read, and the message of
 * the handler for request bodies over the size limit.
 *
 * The file system (does a JSON `image_path` exist?) and Python's set
 * iteration order (which orders the list of formats in an error message)
 * are parameters chosen by the caller.
 */
module Upload {
  import opened Wrappers
  import opened Text

  /** `ALLOWED_EXTENSIONS` */
  const AllowedExtensions: set<string> := {"png", "jpg", "jpeg", "gif", "bmp"}

  /** `MAX_FILE_SIZE`: 10 MB. */
  const MaxFileSize: nat := 10 * 1024 * 1024

  // ---------------------------------------------------------------------------
  // allowed_file
  // ---------------------------------------------------------------------------

  /** `filename.rsplit('.', 1)[1]`: the text after the last dot. */
  function LastExtension(filename: string): (ext: string)
    requires '.' in filename
    ensures '.' !in ext
    ensures |ext| < |filename| && filename[|filename| - |ext| - 1] == '.'
    ensures filename[|filename| - |ext|..] == ext
  {
    var n := |filename|;
    if filename[n - 1] == '.' then []
    else
      assert filename == filename[..n - 1] + [filename[n - 1]];
      LastExtension(filename[..n - 1]) + [filename[n - 1]]
  }

  /** `allowed_file`: the name has a dot and its last extension, lower-cased, is allowed. */
  function AllowedFile(filename: string): (ok: bool)
    ensures ok ==> '.' in filename && filename[|filename| - 1] != '.'
  {
    '.' in filename && Lower(LastExtension(filename)) in AllowedExtensions
  }

  /** The extension of base + "." + ext is ext, whatever the base holds. */
  lemma {:induction false} ExtensionOfJoin(base: string, ext: string)
    requires '.' !in ext
    ensures '.' in base + "." + ext
    ensures LastExtension(base + "." + ext) == ext
    decreases |ext|
  {
    var f := base + "." + ext;
    assert f[|base|] == '.';
    if ext != [] {
      var n := |f|;
      var shorter := ext[..|ext| - 1];
      assert f[..n - 1] == base + "." + shorter;
      assert '.' !in shorter by {
        assert forall i | 0 <= i < |shorter| :: shorter[i] == ext[i];
      }
      ExtensionOfJoin(base, shorter);
      assert ext == shorter + [ext[|ext| - 1]];
    }
  }

  /**
   * A name is accepted exactly when it splits at a dot into a base and an
   * extension without dots whose lower-case form is an allowed extension.
   */
  lemma AllowedFileSplit(base: string, ext: string)
    requires '.' !in ext
    ensures AllowedFile(base + "." + ext) <==> Lower(ext) in AllowedExtensions
  {
    ExtensionOfJoin(base, ext);
  }

  /** The iff of `allowed_file`, with the split point named. */
  lemma AllowedFileIff(filename: string)
    ensures AllowedFile(filename) <==>
      exists i | 0 <= i < |filename| ::
        filename[i] == '.' && '.' !in filename[i + 1..] && Lower(filename[i + 1..]) in AllowedExtensions
  {
    if AllowedFile(filename) {
      var ext := LastExtension(filename);
      var i := |filename| - |ext| - 1;
      assert filename[i + 1..] == ext;
    }
    forall i | 0 <= i < |filename| && filename[i] == '.' && '.' !in filename[i + 1..]
      ensures AllowedFile(filename) == (Lower(filename[i + 1..]) in AllowedExtensions)
    {
      assert filename == filename[..i] + "." + filename[i + 1..];
      AllowedFileSplit(filename[..i], filename[i + 1..]);
    }
  }

  /** The comparison ignores the case of the extension. */
  lemma AllowedFileIgnoresCase(base: string, ext: string)
    requires '.' !in ext
    ensures AllowedFile(base + "." + ext) == AllowedFile(base + "." + Lower(ext))
  {
    AllowedFileSplit(base, ext);
    LowerIdempotent(ext);
    LowerSpec(ext);
    assert '.' !in Lower(ext) by {
      forall i | 0 <= i < |ext| ensures Lower(ext)[i] != '.' {
        assert ext[i] != '.';
      }
    }
    AllowedFileSplit(base, Lower(ext));
  }

  /** A name without a dot is refused. */
  lemma NoDotRefused(filename: string)
    requires '.' !in filename
    ensures !AllowedFile(filename)
  {
  }

  /** Only the last extension counts: `a.png.exe` is refused ... */
  lemma InnerExtensionIgnored()
    ensures !AllowedFile("a.png.exe")
  {
    assert "a.png.exe" == "a.png" + "." + "exe";
    AllowedFileSplit("a.png", "exe");
    LowerSpec("exe");
    assert Lower("exe") == "exe";
  }

  /**
   * A png extension, in lower or upper case, is accepted after any base,
   * the empty one included (".png").
   */
  lemma PngAccepted(base: string, ext: string)
    requires ext == "png" || ext == "PNG"
    ensures AllowedFile(base + "." + ext)
  {
    LowerSpec(ext);
    assert Lower(ext) == "png";
    AllowedFileSplit(base, ext);
  }

  /** ... and `a.tar.png` accepted. */
  lemma LastExtensionCounts()
    ensures AllowedFile("a.tar.png")
  {
    PngAccepted("a.tar", "png");
    assert "a.tar.png" == "a.tar" + "." + "png";
  }

  /** An empty extension is refused. */
  lemma EmptyExtension()
    ensures !AllowedFile("a.")
  {
  }

  // ---------------------------------------------------------------------------
  // The early returns of predict
  // ---------------------------------------------------------------------------

  /**
   * What `predict` inspects of a request: the `image_path` of a JSON body,
   * whether that path exists, and the name of the uploaded `file` part.
   */
  datatype PredictRequest = PredictRequest(imagePath: Option<string>, imagePathExists: bool, upload: Option<string>)

  /** The early returns of `predict` that answer with an error. */
  datatype Failure = ModelNotLoaded | InvalidImagePath | NoFileProvided | NoFileSelected | InvalidFormat

  /** The outcome of the checks: an error response, or the image to analyse. */
  datatype Checked =
    | Rejected(failure: Failure)
    | UsePath(path: string)        // a stored image named by the JSON body
    | SaveUpload(filename: string) // an uploaded image, to be saved first

  /** The HTTP status of each error response. */
  function Status(failure: Failure): nat
  {
    if failure == ModelNotLoaded then 503 else 400
  }

  /** The allowed extensions listed once each, in the order the set iterates. */
  predicate ListsAllowed(order: seq<string>)
  {
    (forall i, j | 0 <= i < j < |order| :: order[i] != order[j]) &&
    (forall e | e in order :: e in AllowedExtensions) &&
    (forall e | e in AllowedExtensions :: e in order)
  }

  /** `", ".join(items)` */
  function Join(items: seq<string>): string
  {
    if items == [] then [] else if |items| == 1 then items[0] else items[0] + ", " + Join(items[1..])
  }

  lemma {:induction false} JoinContains(items: seq<string>, i: nat)
    requires i < |items|
    ensures Contains(Join(items), items[i])
    decreases |items|
  {
    if |items| == 1 {
      assert Join(items) == items[0] + [];
      ContainsStart(items[0], []);
    } else if i == 0 {
      ContainsStart(items[0], ", " + Join(items[1..]));
      assert Join(items) == items[0] + (", " + Join(items[1..]));
    } else {
      JoinContains(items[1..], i - 1);
      ContainsRight(items[0] + ", ", Join(items[1..]), items[i]);
    }
  }

  const InvalidFormatPrefix := "Invalid file format. Allowed formats: "

  /** The `error` text of each error response; `order` is the iteration order of `ALLOWED_EXTENSIONS`. */
  function ErrorMessage(failure: Failure, order: seq<string>): string
  {
    match failure
    case ModelNotLoaded => "Model is not loaded. Please ensure the model file exists."
    case InvalidImagePath => "Invalid image path. File does not exist."
    case NoFileProvided => "No file provided. Please select an image to upload."
    case NoFileSelected => "No file selected. Please choose an image."
    case InvalidFormat => InvalidFormatPrefix + Join(order)
  }

  /** Whatever order the set iterates in, the format error names every allowed extension. */
  lemma InvalidFormatNamesAll(order: seq<string>, e: string)
    requires ListsAllowed(order) && e in AllowedExtensions
    ensures Contains(ErrorMessage(InvalidFormat, order), e)
  {
    var i :| 0 <= i < |order| && order[i] == e;
    JoinContains(order, i);
    ContainsRight(InvalidFormatPrefix, Join(order), e);
  }

  /** The checks of `predict`, in source order, up to the point where an image is read. */
  function CheckPredict(modelLoaded: bool, req: PredictRequest): (c: Checked)
    ensures c.Rejected? ==> (c.failure == ModelNotLoaded <==> !modelLoaded)
    ensures c.UsePath? ==> modelLoaded && req.imagePath == Some(c.path) && req.imagePathExists
    ensures c.SaveUpload? ==>
      modelLoaded && req.imagePath.None? && req.upload == Some(c.filename) && AllowedFile(c.filename)
  {
    if !modelLoaded then Rejected(ModelNotLoaded)
    else if req.imagePath.Some? then
      if req.imagePathExists then UsePath(req.imagePath.value) else Rejected(InvalidImagePath)
    else if req.upload.None? then Rejected(NoFileProvided)
    else if req.upload.value == "" then Rejected(NoFileSelected)
    else if !AllowedFile(req.upload.value) then Rejected(InvalidFormat)
    else SaveUpload(req.upload.value)
  }

  /** Without a model every request gets 503, whatever it carries. */
  lemma NotLoadedComesFirst(req: PredictRequest)
    ensures CheckPredict(false, req) == Rejected(ModelNotLoaded)
    ensures Status(CheckPredict(false, req).failure) == 503
  {
  }

  /**
   * On the upload path the three 400 answers come in order: a missing part,
   * then an empty name, then a refused extension; a name passing all three
   * is saved.
   */
  lemma UploadChecksInOrder(req: PredictRequest)
    requires req.imagePath.None?
    ensures var c := CheckPredict(true, req);
      (c == Rejected(NoFileProvided) <==> req.upload.None?) &&
      (c == Rejected(NoFileSelected) <==> req.upload == Some("")) &&
      (c == Rejected(InvalidFormat) <==> req.upload.Some? && req.upload.value != "" && !AllowedFile(req.upload.value)) &&
      (c.SaveUpload? <==> req.upload.Some? && AllowedFile(req.upload.value)) &&
      (c.Rejected? ==> Status(c.failure) == 400)
  {
    if req.upload == Some("") {
      assert !AllowedFile("");
    }
  }

  /** A JSON `image_path` takes precedence: the upload part is not looked at. */
  lemma ImagePathIgnoresUpload(req: PredictRequest)
    requires req.imagePath.Some?
    ensures CheckPredict(true, req) ==
      (if req.imagePathExists then UsePath(req.imagePath.value) else Rejected(InvalidImagePath))
    ensures forall u :: CheckPredict(true, req.(upload := u)) == CheckPredict(true, req)
  {
  }

  // ---------------------------------------------------------------------------
  // The 413 handler
  // ---------------------------------------------------------------------------

  /** `request_entity_too_large`: the limit is reported in whole megabytes (`//`). */
  function TooLargeError(): string
  {
    "File too large. Maximum size is " + Decimal(MaxFileSize / (1024 * 1024)) + "MB."
  }

  /** The message reports 10 MB. */
  lemma TooLargeSaysTenMegabytes()
    ensures TooLargeError() == "File too large. Maximum size is 10MB."
  {
    assert MaxFileSize / (1024 * 1024) == 10;
    assert Decimal(10) == Decimal(1) + [DigitChar(0)];
    assert Decimal(10) == "10";
  }
}
