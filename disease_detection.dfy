/**
 * The plant-disease detection service: the upload whitelist, the class table
 * of the ResNet-50 classifier, the healthy/diseased decision and the
 * `/detect-disease` handler. The network itself, the file system and the
 * rounding of the confidence are inputs.
 */
module DiseaseDetection {
  import opened Wrappers
  import opened Strings

  const AllowedExtensions: set<string> := {"png", "jpg", "jpeg", "webp"}

  /** `filename.rsplit('.', 1)[1]`: the text after the last dot. */
  function Extension(filename: string): (r: Option<string>)
    ensures r.None? <==> '.' !in filename
    ensures r.Some? ==> '.' !in r.value && |r.value| < |filename| && filename[|filename| - |r.value|..] == r.value
    ensures r.Some? ==> filename[|filename| - |r.value| - 1] == '.'
  {
    match LastIndex(filename, '.')
    case None => None
    case Some(i) => Some(filename[i + 1..])
  }

  /** `allowed_file`. */
  function AllowedFile(filename: string): bool {
    '.' in filename && Lower(Extension(filename).value) in AllowedExtensions
  }

  /** A name followed by a dot and a dot-free extension is allowed exactly when the lower-cased extension is whitelisted. */
  lemma AllowedFileExtension(name: string, ext: string)
    requires '.' !in ext
    ensures AllowedFile(name + "." + ext) <==> Lower(ext) in AllowedExtensions
  {
    LastIndexAfter(name, '.', ext);
    assert name + "." + ext == name + ['.'] + ext;
    assert (name + ['.'] + ext)[|name| + 1..] == ext;
  }

  /** A name without a dot is never allowed. */
  lemma NoDotRejected(filename: string)
    requires '.' !in filename
    ensures !AllowedFile(filename)
  {
  }

  lemma UpperCaseAccepted()
    ensures AllowedFile("leaf.JPG")
  {
    AllowedFileExtension("leaf", "JPG");
    assert "leaf" + "." + "JPG" == "leaf.JPG";
    assert Lower("JPG") == "jpg";
  }

  lemma LastDotDecides()
    ensures AllowedFile("scan.tar.webp")
  {
    AllowedFileExtension("scan.tar", "webp");
    assert "scan.tar" + "." + "webp" == "scan.tar.webp";
    assert Lower("webp") == "webp";
  }

  lemma OtherTypesRejected()
    ensures !AllowedFile("photo.gif") && !AllowedFile("png.")
  {
    GifRejected();
    BareDotRejected();
  }

  lemma GifRejected()
    ensures !AllowedFile("photo.gif")
  {
    AllowedFileExtension("photo", "gif");
    assert "photo" + "." + "gif" == "photo.gif";
    assert Lower("gif") == "gif";
    GifNotListed();
  }

  lemma GifNotListed()
    ensures "gif" !in AllowedExtensions
  {
    assert forall e | e in AllowedExtensions :: e[0] != 'g';
  }

  lemma BareDotRejected()
    ensures !AllowedFile("png.")
  {
    AllowedFileExtension("png", "");
    assert "png" + "." + "" == "png.";
  }

  // ---- CLASS_NAMES ----

  /** `CLASS_NAMES[class_id]`, `None` where the lookup raises `KeyError`. */
  function ClassName(classId: int): Option<string> {
    if classId == 0 then Some("Black_Pitting_or_Banana_Rust")
    else if classId == 1 then Some("Crown_Rot")
    else if classId == 2 then Some("Healthy")
    else if classId == 3 then Some("fungal_disease")
    else if classId == 4 then Some("leaf_Banana_Scab_Moth")
    else if classId == 5 then Some("leaf_Black_Sigatoka")
    else if classId == 6 then Some("leaf_Healthy")
    else if classId == 7 then Some("Black_Leaf_Streak")
    else if classId == 8 then Some("Panama_Disease")
    else if classId == 9 then Some("Bacterial_spot_rot")
    else if classId == 10 then Some("Black_Rot")
    else if classId == 11 then Some("Downy_Mildew")
    else if classId == 12 then Some("Healthy")
    else if classId == 13 then Some("Blight")
    else if classId == 14 then Some("Common_Rust")
    else if classId == 15 then Some("Gray_Leaf_Spot")
    else if classId == 16 then Some("Healthy")
    else if classId == 17 then Some("Aphids")
    else if classId == 18 then Some("Army worm")
    else if classId == 19 then Some("Bacterial blight")
    else if classId == 20 then Some("Healthy")
    else if classId == 21 then Some("fruit_Anthracnose")
    else if classId == 22 then Some("fruit_Healthy")
    else if classId == 23 then Some("fruit_Scab")
    else if classId == 24 then Some("fruit_Styler_end_root")
    else if classId == 25 then Some("leaf_Anthracnose")
    else if classId == 26 then Some("leaf_Canker")
    else if classId == 27 then Some("leaf_Dot")
    else if classId == 28 then Some("leaf_Healthy")
    else if classId == 29 then Some("leaf_Rust")
    else if classId == 30 then Some("Cescospora Leaf Spot")
    else if classId == 31 then Some("Golden Mosaic")
    else if classId == 32 then Some("Healthy Leaf")
    else if classId == 33 then Some("Anthracnose")
    else if classId == 34 then Some("Bacterial_Canker")
    else if classId == 35 then Some("Cutting_Weevil")
    else if classId == 36 then Some("Gall_Midge")
    else if classId == 37 then Some("Healthy")
    else if classId == 38 then Some("Powdery_Mildew")
    else if classId == 39 then Some("Sooty_Mould")
    else if classId == 40 then Some("die_back")
    else if classId == 41 then Some("Anthracnose")
    else if classId == 42 then Some("BacterialSpot")
    else if classId == 43 then Some("Curl")
    else if classId == 44 then Some("Healthy")
    else if classId == 45 then Some("Mealybug")
    else if classId == 46 then Some("Mite_disease")
    else if classId == 47 then Some("Mosaic")
    else if classId == 48 then Some("Ringspot")
    else if classId == 49 then Some("Black_Scurf")
    else if classId == 50 then Some("Blackleg")
    else if classId == 51 then Some("Blackspot_Bruising")
    else if classId == 52 then Some("Brown_Rot")
    else if classId == 53 then Some("Common_Scab")
    else if classId == 54 then Some("Dry_Rot")
    else if classId == 55 then Some("Healthy_Potatoes")
    else if classId == 56 then Some("Miscellaneous")
    else if classId == 57 then Some("Pink_Rot")
    else if classId == 58 then Some("Soft_Rot")
    else if classId == 59 then Some("Blast")
    else if classId == 60 then Some("Brownspot")
    else if classId == 61 then Some("Tungro")
    else if classId == 62 then Some("bacterial_leaf_blight")
    else if classId == 63 then Some("bacterial_leaf_streak")
    else if classId == 64 then Some("bacterial_panicle_blight")
    else if classId == 65 then Some("dead_heart")
    else if classId == 66 then Some("downy_mildew")
    else if classId == 67 then Some("hispa")
    else if classId == 68 then Some("normal")
    else if classId == 69 then Some("Healthy")
    else if classId == 70 then Some("Mosaic")
    else if classId == 71 then Some("RedRot")
    else if classId == 72 then Some("Rust")
    else if classId == 73 then Some("Yellow")
    else if classId == 74 then Some("Anthracnose")
    else if classId == 75 then Some("algal_leaf")
    else if classId == 76 then Some("bird_eye_spot")
    else if classId == 77 then Some("brown_blight")
    else if classId == 78 then Some("gray_light")
    else if classId == 79 then Some("healthy")
    else if classId == 80 then Some("red_leaf_spot")
    else if classId == 81 then Some("white_spot")
    else if classId == 82 then Some("Bacterial_Spot")
    else if classId == 83 then Some("Early_Blight")
    else if classId == 84 then Some("Late_Blight")
    else if classId == 85 then Some("Leaf_Mold")
    else if classId == 86 then Some("Septoria_Leaf_Spot")
    else if classId == 87 then Some("Spider_Mites_Two-spotted_Spider_Mite")
    else if classId == 88 then Some("Target_Spot")
    else if classId == 89 then Some("Yellow_Leaf_Curl_Virus")
    else if classId == 90 then Some("healthy")
    else if classId == 91 then Some("Healthy")
    else if classId == 92 then Some("septoria")
    else if classId == 93 then Some("stripe_rust")
    else None
  }

  /** `NUM_CLASSES = len(CLASS_NAMES)`: the width of the classifier's output layer. */
  const NumClasses: nat := 94

  /** The keys of the table are exactly 0 to 93, so every index the 94 outputs can yield has a name. */
  lemma ClassTable(classId: int)
    ensures ClassName(classId).Some? <==> 0 <= classId < NumClasses
  {
  }

  // ---- the healthy/diseased decision ----

  /** `any(term in disease_name.lower() for term in ['healthy', 'normal'])`. */
  predicate IsHealthy(name: string) {
    Contains(Lower(name), "healthy") || Contains(Lower(name), "normal")
  }

  lemma LowerConcat(a: string, b: string)
    ensures Lower(a + b) == Lower(a) + Lower(b)
  {
  }

  /** Any name with `Healthy`, in any letter case, inside it counts as healthy. */
  lemma HealthyAnywhere(before: string, word: string, after: string)
    requires Lower(word) == "healthy"
    ensures IsHealthy(before + word + after)
  {
    LowerConcat(before + word, after);
    LowerConcat(before, word);
    ContainsInfix(Lower(before), "healthy", Lower(after));
  }

  lemma ShortNotContained(s: string, sub: string)
    requires |s| < |sub|
    ensures !Contains(s, sub)
    decreases |s|
  {
    if s != [] {
      ShortNotContained(s[1..], sub);
    }
  }

  /** Table entries whose name carries `Healthy` count as healthy. */
  lemma HealthyEntries()
    ensures IsHealthy(ClassName(2).value) && IsHealthy(ClassName(32).value)
  {
    assert ClassName(2) == Some("Healthy") by { HealthyNames(); }
    assert ClassName(32) == Some("Healthy Leaf") by { HealthyNames(); }
    HealthyWords();
  }

  lemma HealthyNames()
    ensures ClassName(2) == Some("Healthy") && ClassName(32) == Some("Healthy Leaf")
  {
  }

  lemma HealthyWords()
    ensures IsHealthy("Healthy") && IsHealthy("Healthy Leaf")
  {
    HealthyAnywhere([], "Healthy", []);
    assert [] + "Healthy" + [] == "Healthy";
    HealthyAnywhere([], "Healthy", " Leaf");
    assert [] + "Healthy" + " Leaf" == "Healthy Leaf";
  }

  /** The rice class `normal` counts as healthy too. */
  lemma NormalEntry()
    ensures IsHealthy(ClassName(68).value)
  {
    assert ClassName(68) == Some("normal");
    assert Lower("normal") == "normal";
    assert StartsWith("normal", "normal");
  }

  /** Disease classes are reported as detected. */
  lemma DiseasedEntries()
    ensures !IsHealthy(ClassName(72).value) && !IsHealthy(ClassName(13).value)
  {
    DiseasedNames();
    DiseasedWords();
  }

  lemma DiseasedNames()
    ensures ClassName(72) == Some("Rust") && ClassName(13) == Some("Blight")
  {
  }

  lemma DiseasedWords()
    ensures !IsHealthy("Rust") && !IsHealthy("Blight")
  {
    assert Lower("Rust") == "rust";
    ShortNotContained("rust", "healthy");
    ShortNotContained("rust", "normal");
    assert Lower("Blight") == "blight";
    ShortNotContained("blight", "healthy");
    ShortNotContained("light", "normal");
  }

  // ---- /detect-disease ----

  /** The JSON bodies the handler answers with; `detected` is false on both error bodies. */
  datatype Body =
    | Rejected(error: string)
    | Failed(error: string, message: string)
    | Detection(detected: bool, disease: string, confidence: real, message: string)

  datatype Response = Response(status: nat, body: Body)

  function DetectedField(b: Body): bool {
    b.Detection? && b.detected
  }

  /** The classifier's arg-max index and its probability, already rounded to four places. */
  datatype Prediction = Prediction(classId: int, confidence: real)

  /** The response, whether the upload was written to the temporary folder, and whether it was deleted again. */
  datatype Handled = Handled(response: Response, saved: bool, removed: bool)

  const InvalidTypePrefix: string := "Invalid file type. Allowed: "

  /** `order` visits every allowed extension exactly once, as iterating a set does. */
  predicate ListsExtensions(order: seq<string>) {
    |order| == |AllowedExtensions| && (forall e | e in order :: e in AllowedExtensions) && (forall e | e in AllowedExtensions :: e in order)
  }

  /**
   * `detect_disease`. `image` is the filename of the `image` part, `None`
   * when the request has none; `order` is the iteration order of the
   * extension set in this process; `save`, `predicted` and `remove` are the
   * outcomes of `file.save`, `predict_disease` and `os.remove`, an exception
   * being its message. An unknown class index raises `KeyError`, whose
   * message is the index.
   */
  function DetectDisease(image: Option<string>, order: seq<string>, save: Option<string>,
                         predicted: Result<Prediction, string>, remove: Option<string>): (h: Handled)
    requires ListsExtensions(order)
    ensures image.None? ==> h == Handled(Response(400, Rejected("No image file provided")), false, false)
    ensures image == Some("") ==> h == Handled(Response(400, Rejected("No file selected")), false, false)
    ensures image.Some? && image.value != "" && !AllowedFile(image.value) ==>
      !h.saved && h.response.status == 400 && h.response.body.Rejected? &&
      StartsWith(h.response.body.error, InvalidTypePrefix)
    ensures h.response.status == 400 <==> image.None? || !AllowedFile(image.value)
    ensures h.response.status == 200 <==> h.response.body.Detection?
    ensures DetectedField(h.response.body) <==> h.response.body.Detection? && !IsHealthy(h.response.body.disease)
    ensures h.response.status == 200 <==>
      image.Some? && AllowedFile(image.value) && save.None? && predicted.Success? &&
      ClassName(predicted.value.classId).Some? && remove.None?
    ensures h.response.status == 200 ==>
      h.response.body.Detection? && h.response.body.disease == ClassName(predicted.value.classId).value &&
      h.response.body.confidence == predicted.value.confidence &&
      h.response.body.message == (if IsHealthy(h.response.body.disease) then "Plant appears healthy" else "Disease detected successfully")
    ensures h.response.status == 500 ==> h.response.body.Failed? && h.response.body.message == "Failed to process image"
    ensures h.removed <==> h.saved && remove.None?
    ensures h.saved <==> image.Some? && AllowedFile(image.value) && save.None?
  {
    if image.None? then
      Handled(Response(400, Rejected("No image file provided")), false, false)
    else if image.value == "" then
      Handled(Response(400, Rejected("No file selected")), false, false)
    else if !AllowedFile(image.value) then
      assert (InvalidTypePrefix + Join(", ", order))[..|InvalidTypePrefix|] == InvalidTypePrefix;
      Handled(Response(400, Rejected(InvalidTypePrefix + Join(", ", order))), false, false)
    else if save.Some? then
      Handled(Response(500, Failed(save.value, "Failed to process image")), false, false)
    else
      var outcome :=
        match predicted
        case Failure(e) => Failure(e)
        case Success(p) =>
          match ClassName(p.classId)
          case None => Failure(IntToString(p.classId))
          case Some(name) =>
            var healthy := IsHealthy(name);
            Success(Detection(!healthy, name, p.confidence,
                              if healthy then "Plant appears healthy" else "Disease detected successfully"));
      if remove.Some? then
        Handled(Response(500, Failed(remove.value, "Failed to process image")), true, false)
      else if outcome.Failure? then
        Handled(Response(500, Failed(outcome.error, "Failed to process image")), true, true)
      else
        Handled(Response(200, outcome.value), true, true)
  }
}
