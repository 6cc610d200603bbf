/**
 * The media-store service: the upload folder, the upload and delete results,
 * the public-id extraction from a delivery URL, and the transformation options
 * of the optimized and thumbnail URLs. The store itself is an input: its upload
 * result or failure and its destroy result or failure.
 */
module R2Service {
  import opened Wrappers
  import opened Strings
  import opened JsValues

  const DefaultFolder: string := "agroshakti"

  /** `${process.env.CLOUDINARY_FOLDER || 'agroshakti'}/${folder}`, `folder` defaulting to `agroshakti`. */
  function UploadFolder(env: Option<string>, folder: Option<string>): (path: string)
    ensures env.Some? && env.value != "" ==> StartsWith(path, env.value + "/")
    ensures env.None? || env == Some("") ==> StartsWith(path, DefaultFolder + "/")
    ensures var last := "/" + folder.GetOr(DefaultFolder); |last| <= |path| && path[|path| - |last|..] == last
  {
    var base := if env.Some? && env.value != "" then env.value else DefaultFolder;
    base + "/" + folder.GetOr(DefaultFolder)
  }

  /** Without configuration and folder argument, images go to `agroshakti/agroshakti`. */
  lemma DefaultUploadFolder(env: Option<string>)
    requires env.None? || env == Some("")
    ensures UploadFolder(env, None) == "agroshakti/agroshakti"
    ensures UploadFolder(env, Some("disease-detection")) == "agroshakti/disease-detection"
  {
    DefaultPaths();
  }

  lemma DefaultPaths()
    ensures DefaultFolder + "/" + DefaultFolder == "agroshakti/agroshakti"
    ensures DefaultFolder + "/" + "disease-detection" == "agroshakti/disease-detection"
  {
  }

  /**
   * The object uploadImage resolves with, from the store's result; `None` from
   * the store is the upload error, rethrown with a fixed message.
   */
  function UploadImage(stored: Option<JsValue>): (r: Result<JsValue, string>)
    ensures stored.None? <==> r == Failure("Failed to upload image to Cloudinary")
    ensures stored.Some? ==> r.Success? && r.value.Obj? && Get(r.value, "url") == Get(stored.value, "secure_url")
  {
    match stored
    case None => Failure("Failed to upload image to Cloudinary")
    case Some(result) =>
      var fs := [Field("url", Get(result, "secure_url")), Field("public_id", Get(result, "public_id")),
                 Field("width", Get(result, "width")), Field("height", Get(result, "height")),
                 Field("format", Get(result, "format")), Field("size", Get(result, "bytes"))];
      LookupAt(fs, 0, "url");
      Success(Obj(fs))
  }

  /** `result.result === 'ok'`, with every failure, reading a missing result included, rethrown with a fixed message. */
  function DeleteImage(destroyed: Result<JsValue, string>): (r: Result<bool, string>)
    ensures r.Success? <==> destroyed.Success? && !IsNullish(destroyed.value)
    ensures r.Success? ==> (r.value <==> Get(destroyed.value, "result") == Str("ok"))
    ensures r.Failure? ==> r.error == "Failed to delete image from Cloudinary"
  {
    match destroyed
    case Failure(_) => Failure("Failed to delete image from Cloudinary")
    case Success(result) =>
      match Member(result, "result")
      case Failure(_) => Failure("Failed to delete image from Cloudinary")
      case Success(status) => Success(StrictEquals(status, Str("ok")))
  }

  // ---- extractPublicId, as its regular expression `\/([^\/]+\/[^\/]+\/[^\/\.]+)` matches ----

  /** The longest prefix of s free of '/' and '.'. */
  function SegmentPrefix(s: string): (r: string)
    ensures |r| <= |s| && r == s[..|r|] && '/' !in r && '.' !in r
    ensures |r| < |s| ==> s[|r|] == '/' || s[|r|] == '.'
  {
    if s == [] || s[0] == '/' || s[0] == '.' then [] else [s[0]] + SegmentPrefix(s[1..])
  }

  /** The three segments a match captures; the capture is them joined by '/'. */
  datatype Capture = Capture(first: string, second: string, third: string) {
    function Text(): string {
      first + "/" + second + "/" + third
    }
  }

  /**
   * The capture of a match that starts at the first character of s, if the
   * pattern matches there. Each of the first two `[^\/]+` must be followed by a
   * '/', so it is the whole run up to the next '/'; the greedy last class takes
   * its whole run.
   */
  function MatchHere(s: string): (m: Option<Capture>)
    ensures m.Some? ==> m.value.first != [] && m.value.second != [] && m.value.third != []
    ensures m.Some? ==> '/' !in m.value.first && '/' !in m.value.second && '/' !in m.value.third && '.' !in m.value.third
  {
    if s == [] || s[0] != '/' then None
    else
      var t := s[1..];
      var a := Before(t, '/');
      if a == [] || |a| == |t| then None
      else
        var t2 := t[|a| + 1..];
        var b := Before(t2, '/');
        if b == [] || |b| == |t2| then None
        else
          var c := SegmentPrefix(t2[|b| + 1..]);
          if c == [] then None else Some(Capture(a, b, c))
  }

  /** The leftmost match in s. */
  function FirstMatch(s: string): (m: Option<Capture>)
    decreases |s|
  {
    if MatchHere(s).Some? then MatchHere(s)
    else if s == [] then None
    else FirstMatch(s[1..])
  }

  /** The search finds nothing exactly when the pattern matches at no position. */
  lemma {:induction false} NoMatchAnywhere(s: string)
    ensures FirstMatch(s).None? <==> forall k :: 0 <= k <= |s| ==> MatchHere(s[k..]).None?
    decreases |s|
  {
    assert s[0..] == s;
    if MatchHere(s).None? && s != [] {
      NoMatchAnywhere(s[1..]);
      forall k | 1 <= k <= |s| ensures s[k..] == s[1..][k - 1..] { }
    }
  }

  /** `extractPublicId(url)`: the capture of the leftmost match, `None` (null) when the pattern does not match. */
  function ExtractPublicId(url: string): (r: Option<string>)
    ensures r.None? <==> FirstMatch(url).None?
    ensures r.Some? ==> r.value == FirstMatch(url).value.Text()
  {
    match FirstMatch(url)
    case None => None
    case Some(c) => Some(c.Text())
  }

  /**
   * A non-null result is the capture of the leftmost position where the
   * pattern matches; a null result means it matches nowhere.
   */
  lemma Leftmost(s: string)
    ensures ExtractPublicId(s).None? <==> forall k :: 0 <= k <= |s| ==> MatchHere(s[k..]).None?
    ensures ExtractPublicId(s).Some? ==>
      exists k :: (0 <= k <= |s| && MatchHere(s[k..]).Some? && ExtractPublicId(s) == Some(MatchHere(s[k..]).value.Text()) &&
                   forall j :: 0 <= j < k ==> MatchHere(s[j..]).None?)
  {
    NoMatchAnywhere(s);
    if ExtractPublicId(s).Some? {
      var k := FirstMatchIndex(s);
    }
  }

  /** The position of the leftmost match, when there is one. */
  lemma {:induction false} FirstMatchIndex(s: string) returns (k: nat)
    requires FirstMatch(s).Some?
    ensures k <= |s| && MatchHere(s[k..]) == FirstMatch(s)
    ensures forall j :: 0 <= j < k ==> MatchHere(s[j..]).None?
    decreases |s|
  {
    if MatchHere(s).Some? {
      k := 0;
      assert s[0..] == s;
    } else {
      var k' := FirstMatchIndex(s[1..]);
      k := k' + 1;
      assert s[1..][k'..] == s[k..];
      forall j | 0 <= j < k ensures MatchHere(s[j..]).None? {
        if j == 0 {
          assert s[0..] == s;
        } else {
          assert s[j..] == s[1..][j - 1..];
        }
      }
    }
  }

  /** A prefix without '/' cannot start a match, so the search moves past it. */
  lemma {:induction false} SkipWithoutSlash(p: string, t: string)
    requires '/' !in p
    ensures FirstMatch(p + t) == FirstMatch(t)
  {
    if p != [] {
      assert (p + t)[0] == p[0];
      assert (p + t)[1..] == p[1..] + t;
      SkipWithoutSlash(p[1..], t);
    } else {
      assert p + t == t;
    }
  }

  /** The field before a separator, and what follows it. */
  lemma FieldThen(a: string, c: char, rest: string)
    requires c !in a
    ensures Before(a + [c] + rest, c) == a
    ensures (a + [c] + rest)[|a| + 1..] == rest
  {
    BeforeConcat(a, c, [c] + rest);
    assert a + [c] + rest == a + ([c] + rest);
  }

  /** A match at `/seg1/seg2/seg3rest` captures the three segments. */
  lemma MatchOnSegments(first: string, second: string, third: string, rest: string)
    requires first != [] && second != [] && third != []
    requires '/' !in first && '/' !in second && '/' !in third && '.' !in third
    requires rest == [] || rest[0] == '/' || rest[0] == '.'
    ensures MatchHere("/" + (first + "/" + (second + "/" + (third + rest)))) == Some(Capture(first, second, third))
  {
    var t2 := second + "/" + (third + rest);
    var t := first + "/" + t2;
    assert ("/" + t)[1..] == t;
    FieldThen(first, '/', t2);
    assert Before(t, '/') == first && t[|first| + 1..] == t2;
    FieldThen(second, '/', third + rest);
    assert Before(t2, '/') == second && t2[|second| + 1..] == third + rest;
    SegmentPrefixOf(third, rest);
  }

  lemma {:induction false} SegmentPrefixOf(seg: string, rest: string)
    requires '/' !in seg && '.' !in seg
    requires rest == [] || rest[0] == '/' || rest[0] == '.'
    ensures SegmentPrefix(seg + rest) == seg
  {
    if seg != [] {
      assert (seg + rest)[0] == seg[0];
      assert (seg + rest)[1..] == seg[1..] + rest;
      assert seg[0] in seg;
      SegmentPrefixOf(seg[1..], rest);
    } else {
      assert seg + rest == rest;
    }
  }

  /**
   * For every `https://` URL with a host and at least two path segments, the
   * extracted id starts with the host: the pattern matches at the slash that
   * ends the scheme, never at the delivery path's public id.
   */
  lemma HostIsExtracted(host: string, first: string, second: string, rest: string)
    requires host != [] && first != [] && second != []
    requires '/' !in host && '/' !in first && '/' !in second && '.' !in second
    requires rest == [] || rest[0] == '/' || rest[0] == '.'
    ensures ExtractPublicId("https://" + (host + "/" + (first + "/" + (second + rest)))) == Some(host + "/" + first + "/" + second)
  {
    var m := "/" + (host + "/" + (first + "/" + (second + rest)));
    assert "https://" + (host + "/" + (first + "/" + (second + rest))) == "https:" + ("/" + m);
    SkipWithoutSlash("https:", "/" + m);
    MatchOnSegments(host, first, second, rest);
    assert ("/" + m)[1..] == m;
    assert MatchHere("/" + m).None? by {
      assert Before(m, '/') == [];
    }
  }

  /** The URL of the source's own doc comment yields the host triple, not `agroshakti/surveys/image`. */
  lemma DocExampleMismatch()
    ensures ExtractPublicId("https://" + ("res.cloudinary.com" + "/" + ("demo" + "/" + ("image" +
      ("/upload/v1234567890/" + "agroshakti/surveys/image.jpg"))))) == Some("res.cloudinary.com/demo/image")
  {
    assert '/' !in "res.cloudinary.com" && '.' !in "image";
    HostIsExtracted("res.cloudinary.com", "demo", "image", "/upload/v1234567890/" + "agroshakti/surveys/image.jpg");
    assert "res.cloudinary.com" + "/" + "demo" + "/" + "image" == "res.cloudinary.com/demo/image";
  }

  // ---- the public id the doc comment describes ----

  /** A version segment of a delivery URL: `v` followed by one or more digits. */
  predicate IsVersion(segment: string) {
    |segment| >= 2 && segment[0] == 'v' && forall i :: 1 <= i < |segment| ==> '0' <= segment[i] <= '9'
  }

  /** The position of the first occurrence of x in xs, if any. */
  function IndexOf(xs: seq<string>, x: string): (r: Option<nat>)
    ensures r.Some? ==> r.value < |xs| && xs[r.value] == x && x !in xs[..r.value]
    ensures r.None? ==> x !in xs
  {
    if xs == [] then None
    else if xs[0] == x then Some(0)
    else match IndexOf(xs[1..], x)
      case None => None
      case Some(k) =>
        assert xs[..k + 1] == [xs[0]] + xs[1..][..k];
        Some(k + 1)
  }

  /** The text before the last '.' of a segment, the whole segment when it has none. */
  function StripExtension(s: string): (r: string)
    ensures |r| <= |s| && r == s[..|r|]
  {
    if '.' !in s then s
    else if s[|s| - 1] == '.' then s[..|s| - 1]
    else StripExtension(s[..|s| - 1])
  }

  lemma {:induction false} StripKnownExtension(name: string, ext: string)
    requires '.' !in ext
    ensures StripExtension(name + "." + ext) == name
    decreases |ext|
  {
    var s := name + "." + ext;
    assert '.' in s by { assert s[|name|] == '.'; }
    if ext == [] {
      assert s[..|s| - 1] == name;
    } else {
      assert ext[|ext| - 1] in ext;
      assert s[..|s| - 1] == name + "." + ext[..|ext| - 1];
      StripKnownExtension(name, ext[..|ext| - 1]);
    }
  }

  /**
   * The public id of a delivery URL: the path after the `upload` segment,
   * without a leading version segment and without the file extension.
   */
  function PublicIdOf(url: string): Option<string> {
    PublicIdOfSegments(Split(url, '/'))
  }

  function PublicIdOfSegments(segments: seq<string>): Option<string> {
    match IndexOf(segments, "upload")
    case None => None
    case Some(k) =>
      var path := segments[k + 1..];
      var path := if |path| > 0 && IsVersion(path[0]) then path[1..] else path;
      if path == [] then None
      else Some(Join("/", path[..|path| - 1] + [StripExtension(path[|path| - 1])]))
  }

  /**
   * Every delivery URL whose path before `upload` does not itself contain an
   * `upload` segment gives back its public id: the folders and the file name
   * without its extension.
   */
  lemma PublicIdRoundTrip(before: seq<string>, version: string, folders: seq<string>, name: string, ext: string)
    requires "upload" !in before && IsVersion(version)
    requires NoneContain(before + folders + [name, ext], '/') && '.' !in ext
    ensures PublicIdOf(Join("/", before + ["upload", version] + folders + [name + "." + ext])) ==
      Some(Join("/", folders + [name]))
  {
    var file := name + "." + ext;
    var all := before + ["upload", version] + folders + [file];
    SegmentsWithoutSlash(before, version, folders, name, ext);
    SplitJoin(all, '/');
    SegmentsAfterUpload(before, version, folders, file);
    StripKnownExtension(name, ext);
  }

  lemma SegmentsWithoutSlash(before: seq<string>, version: string, folders: seq<string>, name: string, ext: string)
    requires IsVersion(version) && NoneContain(before + folders + [name, ext], '/')
    ensures NoneContain(before + ["upload", version] + folders + [name + "." + ext], '/')
  {
    var file := name + "." + ext;
    var all := before + ["upload", version] + folders + [file];
    var given := before + folders + [name, ext];
    assert '/' !in file by {
      assert given[|given| - 2] == name && given[|given| - 1] == ext;
      assert forall i :: 0 <= i < |file| ==> file[i] == (if i < |name| then name[i] else if i == |name| then '.' else ext[i - |name| - 1]);
    }
    forall i | 0 <= i < |all| ensures '/' !in all[i] {
      if i < |before| { assert all[i] == given[i]; }
      else if i == |before| { assert all[i] == "upload"; }
      else if i == |before| + 1 { assert all[i] == version; assert '/' !in version; }
      else if i < |all| - 1 { assert all[i] == given[i - 2]; }
      else { assert all[i] == file; }
    }
  }

  lemma SegmentsAfterUpload(before: seq<string>, version: string, folders: seq<string>, file: string)
    requires "upload" !in before && IsVersion(version)
    ensures PublicIdOfSegments(before + ["upload", version] + folders + [file]) ==
      Some(Join("/", folders + [StripExtension(file)]))
  {
    var all := before + ["upload", version] + folders + [file];
    var rest := folders + [file];
    UploadSlices(before, version, folders, file);
    IndexAfter(before, ["upload", version] + rest);
    var path := all[|before| + 1..];
    assert path[0] == version && path[1..] == rest;
  }

  /** How the segments of a delivery URL split around `upload` and the version. */
  lemma UploadSlices(before: seq<string>, version: string, folders: seq<string>, file: string)
    ensures var all := before + ["upload", version] + folders + [file];
      var rest := folders + [file];
      all == before + (["upload", version] + rest) &&
      all[|before| + 1..] == [version] + rest && ([version] + rest)[0] == version && ([version] + rest)[1..] == rest &&
      rest[..|rest| - 1] == folders && rest[|rest| - 1] == file
  {
    var all := before + ["upload", version] + folders + [file];
    var rest := folders + [file];
    assert all == before + (["upload", version] + rest);
    assert all[|before| + 1..] == [version] + rest;
  }

  lemma {:induction false} IndexAfter(before: seq<string>, after: seq<string>)
    requires "upload" !in before && after != [] && after[0] == "upload"
    ensures IndexOf(before + after, "upload") == Some(|before|)
  {
    if before == [] {
      assert before + after == after;
    } else {
      assert (before + after)[1..] == before[1..] + after;
      assert before[0] in before;
      IndexAfter(before[1..], after);
    }
  }

  /** For the doc comment's URL the intended id is `agroshakti/surveys/image`. */
  lemma DocExampleIntended()
    ensures PublicIdOf(Join("/", ["https:", "", "res.cloudinary.com", "demo", "image"] + ["upload", "v1234567890"] +
      ["agroshakti", "surveys"] + ["image" + "." + "jpg"])) == Some("agroshakti" + "/" + ("surveys" + "/" + "image"))
  {
    var before := ["https:", "", "res.cloudinary.com", "demo", "image"];
    assert "upload" !in before by {
      assert "upload"[0] == 'u';
      forall i | 0 <= i < |before| ensures before[i] != "upload" {
        if i == 0 { assert before[i][0] != 'u'; }
        else if i == 1 { assert |before[i]| == 0; }
        else if i == 2 { assert before[i][0] != 'u'; }
        else if i == 3 { assert before[i][0] != 'u'; }
        else { assert before[i][0] != 'u'; }
      }
    }
    var version := "v1234567890";
    assert IsVersion(version);
    var given := before + ["agroshakti", "surveys"] + ["image", "jpg"];
    assert NoneContain(given, '/') by {
      forall i | 0 <= i < |given| ensures '/' !in given[i] {
        assert given == ["https:", "", "res.cloudinary.com", "demo", "image", "agroshakti", "surveys", "image", "jpg"];
      }
    }
    PublicIdRoundTrip(before, version, ["agroshakti", "surveys"], "image", "jpg");
    assert PublicIdOf(Join("/", before + ["upload", version] + ["agroshakti", "surveys"] + ["image" + "." + "jpg"])) ==
      Some(Join("/", ["agroshakti", "surveys"] + ["image"]));
    assert ["agroshakti", "surveys"] + ["image"] == ["agroshakti", "surveys", "image"];
    assert Join("/", ["image"]) == "image";
    assert Join("/", ["surveys", "image"]) == "surveys" + "/" + "image";
    assert Join("/", ["agroshakti", "surveys", "image"]) == "agroshakti" + "/" + ("surveys" + "/" + "image");
  }

  // ---- getOptimizedUrl and getThumbnailUrl ----

  /** The transformation options of a derived URL: size and crop, then quality and format. */
  datatype Transformation = Transformation(width: JsValue, height: JsValue, crop: string, gravity: Option<string>,
                                           quality: JsValue, fetchFormat: JsValue)

  /** `getOptimizedUrl(publicId, options = {})`; destructuring a `null` options object throws. */
  function OptimizedTransformation(options: JsValue): Result<Transformation, string> {
    if options == Null then Failure("Cannot destructure property 'width' of 'options' as it is null.")
    else
      Success(Transformation(DefaultTo(Get(options, "width"), Num(800)), DefaultTo(Get(options, "height"), Num(800)),
        "limit", None, DefaultTo(Get(options, "quality"), Str("auto")), DefaultTo(Get(options, "format"), Str("auto"))))
  }

  /** `getThumbnailUrl(publicId, size = 150)`: a square, filled and auto-gravity crop. */
  function ThumbnailTransformation(size: JsValue): Transformation {
    var side := DefaultTo(size, Num(150));
    Transformation(side, side, "fill", Some("auto"), Str("auto"), Str("auto"))
  }

  /** Without options the optimized URL is 800x800 `limit`, with automatic quality and format; a thumbnail is 150 square. */
  lemma TransformationDefaults(options: JsValue)
    requires options == Undefined || options == Obj([])
    ensures OptimizedTransformation(options) == Success(Transformation(Num(800), Num(800), "limit", None, Str("auto"), Str("auto")))
    ensures ThumbnailTransformation(Undefined) == Transformation(Num(150), Num(150), "fill", Some("auto"), Str("auto"), Str("auto"))
  {
  }

  /** A given option replaces exactly its own default. */
  lemma OptionOverrides(options: JsValue, width: int)
    requires options == Obj([Field("width", Num(width))])
    ensures OptimizedTransformation(options) == Success(Transformation(Num(width), Num(800), "limit", None, Str("auto"), Str("auto")))
  {
  }
}
