/**
 * The local tools of the gemini package: image analysis and generation
 * around the remote API, the file finder's answer, and emptying the trash.
 * Everything the tools get from outside (file contents, API replies, the
 * clock, command output, directory listings) is an input.
 */
module GeminiTools {
  import opened Wrappers
  import opened Genai
  import opened GoStrings

  /** The chat model of the gemini package; analyzeImage uses it too. */
  const ModelName: string := "gemini-2.5-flash"

  // ----- MIME types and file extensions -----

  /** The image types that have an extension of their own; every other type is saved as ".jpg". */
  const KnownImageTypes: set<string> := {"image/png", "image/gif", "image/webp"}

  /** analyzeImage's switch on the lower-cased extension; anything unknown is JPEG. */
  function MimeTypeForExt(ext: string): (mimeType: string)
    ensures mimeType in KnownImageTypes || mimeType == "image/jpeg"
    ensures mimeType in KnownImageTypes <==> ToLower(ext) in {".png", ".gif", ".webp"}
  {
    var e := ToLower(ext);
    if e == ".png" then "image/png"
    else if e == ".gif" then "image/gif"
    else if e == ".webp" then "image/webp"
    else "image/jpeg"
  }

  function MimeTypeForPath(path: string): string {
    MimeTypeForExt(Ext(path))
  }

  /** generateImage's chain from the reply's MIME type to the saved file's extension. */
  function ExtForMimeType(mimeType: string): (ext: string)
    ensures IsExtension(ext)
    ensures ext == ".jpg" <==> mimeType !in KnownImageTypes
  {
    if mimeType == "image/png" then ".png"
    else if mimeType == "image/gif" then ".gif"
    else if mimeType == "image/webp" then ".webp"
    else ".jpg"
  }

  /** The extension table of analyzeImage, upper-case spellings included. */
  lemma MimeTypeTable(ext: string)
    ensures MimeTypeForExt(".png") == "image/png" && MimeTypeForExt(".PNG") == "image/png"
    ensures MimeTypeForExt(".gif") == "image/gif" && MimeTypeForExt(".webp") == "image/webp"
    ensures MimeTypeForExt(".G\U{0130}F") == "image/gif"
    ensures ToLower(ext) !in {".png", ".gif", ".webp"} ==> MimeTypeForExt(ext) == "image/jpeg"
  {
    assert ToLower(".G\U{0130}F") == ".gif";
    assert ToLower(".png") == ".png";
    assert ToLower(".PNG") == ".png";
    assert ToLower(".gif") == ".gif";
    assert ToLower(".webp") == ".webp";
  }

  /** Upper and lower case do not matter: two paths equal up to case get the same MIME type. */
  lemma MimeTypeForPathCaseInsensitive(p: string, q: string)
    requires ToLower(p) == ToLower(q)
    ensures MimeTypeForPath(p) == MimeTypeForPath(q)
  {
    ExtOfLower(p);
    ExtOfLower(q);
  }

  /**
   * A known image type taken to its extension and back is unchanged; any
   * other type becomes ".jpg", which reads back as "image/jpeg".
   */
  lemma MimeTypeRoundTrip(mimeType: string)
    ensures mimeType in KnownImageTypes ==> MimeTypeForExt(ExtForMimeType(mimeType)) == mimeType
    ensures mimeType !in KnownImageTypes ==>
      ExtForMimeType(mimeType) == ".jpg" && MimeTypeForExt(ExtForMimeType(mimeType)) == "image/jpeg"
  {
    if mimeType == "image/png" {
      assert ToLower(".png") == ".png";
    } else if mimeType == "image/gif" {
      assert ToLower(".gif") == ".gif";
    } else if mimeType == "image/webp" {
      assert ToLower(".webp") == ".webp";
    } else {
      assert ToLower(".jpg") == ".jpg";
    }
  }

  /** An extension taken to its MIME type and back gives its lower-case form, or ".jpg" when unknown. */
  lemma ExtRoundTrip(ext: string)
    ensures ExtForMimeType(MimeTypeForExt(ext)) ==
      if ToLower(ext) in {".png", ".gif", ".webp"} then ToLower(ext) else ".jpg"
  {
  }

  // ----- generated file names -----

  const OutputDir: string := "generated_images"

  /** "generated_" + the Unix seconds in decimal + the extension. */
  function GeneratedFileName(unixSeconds: int, ext: string): string {
    "generated_" + FormatInt(unixSeconds) + ext
  }

  function GeneratedImagePath(unixSeconds: int, ext: string): (path: string)
    ensures path == "generated_images/generated_" + FormatInt(unixSeconds) + ext
  {
    var digits := FormatInt(unixSeconds);
    assert GeneratedFileName(unixSeconds, ext)[0] == 'g';
    AppendAssoc(OutputDir + "/", "generated_" + digits, ext);
    AppendAssoc(OutputDir + "/", "generated_", digits);
    assert OutputDir + "/" + "generated_" == "generated_images/generated_";
    Join(OutputDir, GeneratedFileName(unixSeconds, ext))
  }

  /** The extension of a generated path is the one it was generated with. */
  lemma GeneratedImagePathExt(unixSeconds: int, mimeType: string)
    ensures Ext(GeneratedImagePath(unixSeconds, ExtForMimeType(mimeType))) == ExtForMimeType(mimeType)
  {
    var e := ExtForMimeType(mimeType);
    ExtOfAppend("generated_images/generated_" + FormatInt(unixSeconds), e);
    assert "generated_images/generated_" + FormatInt(unixSeconds) + e
        == ("generated_images/generated_" + FormatInt(unixSeconds)) + e;
  }

  /**
   * A generated image, read back by analyzeImage, gets the MIME type the
   * API reported for it (JPEG for a type without an extension of its own).
   */
  lemma GeneratedImageMimeRoundTrip(unixSeconds: int, mimeType: string)
    ensures MimeTypeForPath(GeneratedImagePath(unixSeconds, ExtForMimeType(mimeType))) ==
      if mimeType in KnownImageTypes then mimeType else "image/jpeg"
  {
    GeneratedImagePathExt(unixSeconds, mimeType);
    MimeTypeRoundTrip(mimeType);
  }

  /** Images generated at different seconds, or with different types of extension, get different paths. */
  lemma GeneratedImagePathInjective(t1: int, m1: string, t2: int, m2: string)
    requires GeneratedImagePath(t1, ExtForMimeType(m1)) == GeneratedImagePath(t2, ExtForMimeType(m2))
    ensures t1 == t2 && ExtForMimeType(m1) == ExtForMimeType(m2)
  {
    var e1, e2 := ExtForMimeType(m1), ExtForMimeType(m2);
    var p := GeneratedImagePath(t1, e1);
    GeneratedImagePathExt(t1, m1);
    GeneratedImagePathExt(t2, m2);
    assert e1 == e2;
    var prefix := "generated_images/generated_";
    var d1, d2 := FormatInt(t1), FormatInt(t2);
    assert p == prefix + d1 + e1;
    assert p == prefix + d2 + e1;
    assert |d1| == |d2|;
    assert d1 == p[|prefix|..|prefix| + |d1|];
    assert d2 == p[|prefix|..|prefix| + |d2|];
    FormatIntInjective(t1, t2);
  }

  // ----- analyzeImage -----

  /** What a tool did: the string it returns, the API request it sent and the file it wrote, if any. */
  datatype ToolRun = ToolRun(result: string, request: Option<Request>, saved: Option<SavedFile>)

  datatype SavedFile = SavedFile(path: string, data: seq<byte>)

  /** The outside world as analyzeImage meets it: the file, the client, the reply. */
  datatype AnalyzeEnv = AnalyzeEnv(file: Result<seq<byte>>, clientError: Option<string>, reply: Reply)

  const AnalysisPrompt: string :=
    "Analyze this image in detail. Describe what you see, including objects, colors, composition, and any notable features."

  /** The request analyzeImage sends: the image with its MIME type, then the fixed prompt. */
  function AnalysisRequest(path: string, data: seq<byte>): Request {
    Request(ModelName,
      [Content(UserRole, [InlinePart(Blob(MimeTypeForPath(path), data)), TextPart(AnalysisPrompt)])],
      None)
  }

  function AnalyzeImage(path: string, env: AnalyzeEnv): ToolRun {
    match env.file
    case Err(e) => ToolRun("Error reading image file: " + e, None, None)
    case Ok(data) =>
      match env.clientError
      case Some(e) => ToolRun("Error creating Gemini client: " + e, None, None)
      case None =>
        var request := Some(AnalysisRequest(path, data));
        match env.reply
        case Failed(e) => ToolRun("Error analyzing image: " + e, request, None)
        case Response(cands) =>
          if |cands| == 0 || |cands[0].content.parts| == 0 then
            ToolRun("No analysis returned from Gemini", request, None)
          else
            ToolRun(cands[0].content.parts[0].text, request, None)
  }

  /**
   * analyzeImage sends a request only when the file was read and the
   * client was made, and that request carries the file's bytes under the
   * MIME type of the path's extension; a reply with a text part gives its
   * first part's text back.
   */
  lemma AnalyzeImageOutcome(path: string, env: AnalyzeEnv)
    ensures AnalyzeImage(path, env).saved.None?
    ensures AnalyzeImage(path, env).request.Some? <==> env.file.Ok? && env.clientError.None?
    ensures AnalyzeImage(path, env).request.Some? ==>
      && AnalyzeImage(path, env).request.value.contents[0].parts[0].inlineData
         == Some(Blob(MimeTypeForPath(path), env.file.value))
    ensures env.file.Err? ==> AnalyzeImage(path, env).result == "Error reading image file: " + env.file.error
    ensures (env.file.Ok? && env.clientError.None? && env.reply.Response?
             && |env.reply.candidates| > 0 && |env.reply.candidates[0].content.parts| > 0) ==>
      AnalyzeImage(path, env).result == env.reply.candidates[0].content.parts[0].text
  {
  }

  // ----- generateImage -----

  /** The outside world as generateImage meets it. */
  datatype GenerateEnv = GenerateEnv(
    clientError: Option<string>,
    reply: Reply,
    mkdirError: Option<string>,
    unixSeconds: int,
    writeError: Option<string>)

  const ImageModelName: string := "gemini-2.5-flash-image"

  const NoImageDataMessage: string :=
    "Image generation returned no image data. Please check that the model supports image generation and your API key has the necessary permissions."

  function ImageRequest(prompt: string): Request {
    Request(ImageModelName, [UserText(prompt)],
      Some(Config([], None, ["IMAGE"], Some(ImageConfig("1:1")))))
  }

  /** The first part that carries inline data. */
  function FirstInlineBlob(parts: seq<Part>): Option<Blob> {
    if parts == [] then None
    else if parts[0].inlineData.Some? then parts[0].inlineData
    else FirstInlineBlob(parts[1..])
  }

  lemma {:induction false} FirstInlineBlobIsFirst(parts: seq<Part>, k: nat)
    requires k < |parts| && parts[k].inlineData.Some?
    requires forall j :: 0 <= j < k ==> parts[j].inlineData.None?
    ensures FirstInlineBlob(parts) == parts[k].inlineData
  {
    if k > 0 {
      FirstInlineBlobIsFirst(parts[1..], k - 1);
    }
  }

  lemma {:induction false} FirstInlineBlobNone(parts: seq<Part>)
    ensures FirstInlineBlob(parts).None? <==> forall j :: 0 <= j < |parts| ==> parts[j].inlineData.None?
  {
    if parts != [] {
      FirstInlineBlobNone(parts[1..]);
      assert forall j :: 1 <= j < |parts| ==> parts[j] == parts[1..][j - 1];
    }
  }

  /**
   * generateImage's loop: the data and MIME type of the first part whose
   * InlineData is set; none and "" when no part has any.
   */
  method FirstInlineData(parts: seq<Part>) returns (imageData: seq<byte>, mimeType: string)
    ensures FirstInlineBlob(parts).Some? ==>
      imageData == FirstInlineBlob(parts).value.data && mimeType == FirstInlineBlob(parts).value.mimeType
    ensures FirstInlineBlob(parts).None? ==> imageData == [] && mimeType == ""
  {
    imageData, mimeType := [], "";
    var i := 0;
    while i < |parts|
      invariant 0 <= i <= |parts|
      invariant forall j :: 0 <= j < i ==> parts[j].inlineData.None?
      invariant FirstInlineBlob(parts) == FirstInlineBlob(parts[i..])
    {
      if parts[i].inlineData.Some? {
        imageData, mimeType := parts[i].inlineData.value.data, parts[i].inlineData.value.mimeType;
        break;
      }
      assert parts[i..][1..] == parts[i + 1..];
      i := i + 1;
    }
  }

  /** The image a reply carries: the first inline data of the first candidate. */
  function ReplyImage(cands: seq<Candidate>): Option<Blob> {
    if |cands| > 0 && |cands[0].content.parts| > 0 then FirstInlineBlob(cands[0].content.parts) else None
  }

  /** What generateImage does, step by step. */
  function GenerateImageRun(prompt: string, env: GenerateEnv): ToolRun {
    match env.clientError
    case Some(e) => ToolRun("Error creating Gemini client: " + e, None, None)
    case None =>
      var request := Some(ImageRequest(prompt));
      match env.reply
      case Failed(e) =>
        ToolRun("Error generating image with model " + ImageModelName + ": " + e, request, None)
      case Response(cands) =>
        var image := ReplyImage(cands);
        if image.None? || |image.value.data| == 0 then ToolRun(NoImageDataMessage, request, None)
        else if env.mkdirError.Some? then
          ToolRun("Error creating output directory: " + env.mkdirError.value, request, None)
        else
          var path := GeneratedImagePath(env.unixSeconds, ExtForMimeType(image.value.mimeType));
          var saved := Some(SavedFile(path, image.value.data));
          if env.writeError.Some? then ToolRun("Error saving image: " + env.writeError.value, request, saved)
          else ToolRun(path, request, saved)
  }

  method GenerateImage(prompt: string, env: GenerateEnv) returns (run: ToolRun)
    ensures run == GenerateImageRun(prompt, env)
  {
    if env.clientError.Some? {
      return ToolRun("Error creating Gemini client: " + env.clientError.value, None, None);
    }
    var request := Some(ImageRequest(prompt));
    if env.reply.Failed? {
      return ToolRun("Error generating image with model " + ImageModelName + ": " + env.reply.error, request, None);
    }
    var imageData: seq<byte>, mimeType := [], "";
    var cands := env.reply.candidates;
    if |cands| > 0 && |cands[0].content.parts| > 0 {
      imageData, mimeType := FirstInlineData(cands[0].content.parts);
    }
    if |imageData| == 0 {
      return ToolRun(NoImageDataMessage, request, None);
    }
    if env.mkdirError.Some? {
      return ToolRun("Error creating output directory: " + env.mkdirError.value, request, None);
    }
    var ext := ExtForMimeType(mimeType);
    var filePath := Join(OutputDir, GeneratedFileName(env.unixSeconds, ext));
    var saved := Some(SavedFile(filePath, imageData));
    if env.writeError.Some? {
      return ToolRun("Error saving image: " + env.writeError.value, request, saved);
    }
    return ToolRun(filePath, request, saved);
  }

  /**
   * When the reply's first inline part, found at index k of the first
   * candidate, carries data, generateImage writes exactly that data to
   * "generated_images/generated_<seconds><ext>" and returns that path
   * unless the directory or the write fails; without such data it returns
   * the fixed no-image message and writes nothing.
   */
  lemma GenerateImageSavesFirstInlineData(prompt: string, env: GenerateEnv, k: nat)
    requires env.clientError.None? && env.reply.Response? && |env.reply.candidates| > 0
    requires k < |env.reply.candidates[0].content.parts|
    requires env.reply.candidates[0].content.parts[k].inlineData.Some?
    requires forall j :: 0 <= j < k ==> env.reply.candidates[0].content.parts[j].inlineData.None?
    ensures var b := env.reply.candidates[0].content.parts[k].inlineData.value;
      var run := GenerateImageRun(prompt, env);
      var path := "generated_images/generated_" + FormatInt(env.unixSeconds) + ExtForMimeType(b.mimeType);
      && (|b.data| == 0 ==> run.result == NoImageDataMessage && run.saved.None?)
      && (|b.data| > 0 && env.mkdirError.Some? ==>
            run.result == "Error creating output directory: " + env.mkdirError.value && run.saved.None?)
      && (|b.data| > 0 && env.mkdirError.None? ==>
            run.saved == Some(SavedFile(path, b.data))
            && (run.result == path <==> env.writeError.None?))
  {
    FirstInlineBlobIsFirst(env.reply.candidates[0].content.parts, k);
    var run := GenerateImageRun(prompt, env);
    if env.writeError.Some? && run.saved.Some? {
      assert run.result[0] == 'E' && run.saved.value.path[0] == 'g';
    }
  }

  /**
   * A reply without candidates, or whose first candidate has no inline
   * part, gives the no-image message; nothing is written.
   */
  lemma GenerateImageWithoutInlineData(prompt: string, env: GenerateEnv)
    requires env.clientError.None? && env.reply.Response?
    requires |env.reply.candidates| > 0 ==>
      forall j :: 0 <= j < |env.reply.candidates[0].content.parts| ==>
        env.reply.candidates[0].content.parts[j].inlineData.None?
    ensures GenerateImageRun(prompt, env).result == NoImageDataMessage
    ensures GenerateImageRun(prompt, env).saved.None?
    ensures GenerateImageRun(prompt, env).request == Some(ImageRequest(prompt))
  {
    var cands := env.reply.candidates;
    if |cands| > 0 {
      FirstInlineBlobNone(cands[0].content.parts);
    }
  }

  // ----- findFile -----

  const FindErrorMessage: string := "Error while finding while"
  const NoMatchMessage: string := "No match found."
  const FoundPrefix: string := "Found: "

  /** findFile's answer for the captured output of its search pipeline; None when the command failed. */
  function FindFile(stdout: Option<string>): string {
    match stdout
    case None => FindErrorMessage
    case Some(out) =>
      var filePath := TrimSpace(out);
      if filePath == "" then NoMatchMessage else FoundPrefix + filePath
  }

  /**
   * The three answers of findFile are told apart: the error message exactly
   * when the command failed, "No match found." exactly when the output is
   * all white space, and otherwise "Found: " and the output without its
   * surrounding white space, which is not empty and neither starts nor
   * ends with white space.
   */
  lemma FindFileAnswers(stdout: Option<string>)
    ensures FindFile(stdout) == FindErrorMessage <==> stdout.None?
    ensures FindFile(stdout) == NoMatchMessage <==> stdout.Some? && AllSpace(stdout.value)
    ensures stdout.Some? && !AllSpace(stdout.value) ==>
      var path := TrimSpace(stdout.value);
      && FindFile(stdout) == FoundPrefix + path
      && path != "" && !IsSpace(path[0]) && !IsSpace(path[|path| - 1])
  {
    if stdout.Some? {
      var out := stdout.value;
      TrimSpaceEmpty(out);
      var i, j := TrimSpaceSlice(out);
      if !AllSpace(out) {
        var r := FindFile(stdout);
        assert r[0] == 'F';
        assert TrimSpace(out) == out[i..j];
        assert out[i..j][0] == out[i] && out[i..j][j - i - 1] == out[j - 1];
      }
    }
  }

  // ----- emptyTrash -----

  /** The outside world as emptyTrash meets it: the home directory, the trash listing, the entries that cannot be removed. */
  datatype TrashEnv = TrashEnv(
    home: Result<string>,
    entries: Result<seq<string>>,
    removeErrors: map<string, string>)

  const HomeErrorPrefix: string := "could not find home directory: "
  const TrashReadErrorPrefix: string := "could not read Trash direcotry: "
  const DeleteFailurePrefix: string := "Failed to delete "

  /** The error emptyTrash returns: only a missing home directory or an unreadable trash directory. */
  function TrashError(env: TrashEnv): Option<string> {
    if env.home.Err? then Some(HomeErrorPrefix + env.home.error)
    else if env.entries.Err? then Some(TrashReadErrorPrefix + env.entries.error)
    else None
  }

  function TrashItemPaths(trashPath: string, names: seq<string>): (paths: seq<string>)
    ensures |paths| == |names|
    ensures forall k :: 0 <= k < |names| ==> paths[k] == Join(trashPath, names[k])
  {
    if names == [] then []
    else TrashItemPaths(trashPath, names[..|names| - 1]) + [Join(trashPath, names[|names| - 1])]
  }

  /** The lines printed for the entries that could not be removed, in order. */
  function FailureReport(paths: seq<string>, removeErrors: map<string, string>): seq<string> {
    if paths == [] then []
    else
      var last := paths[|paths| - 1];
      FailureReport(paths[..|paths| - 1], removeErrors)
      + (if last in removeErrors then [DeleteFailurePrefix + last + ": " + removeErrors[last] + "\n"] else [])
  }

  lemma TrashItemPathsSnoc(trashPath: string, names: seq<string>, name: string)
    ensures TrashItemPaths(trashPath, names + [name]) == TrashItemPaths(trashPath, names) + [Join(trashPath, name)]
  {
    assert (names + [name])[..|names|] == names;
  }

  lemma FailureReportSnoc(paths: seq<string>, path: string, removeErrors: map<string, string>)
    ensures FailureReport(paths + [path], removeErrors) == FailureReport(paths, removeErrors)
      + (if path in removeErrors then [DeleteFailurePrefix + path + ": " + removeErrors[path] + "\n"] else [])
  {
    assert (paths + [path])[..|paths|] == paths;
  }

  /**
   * Removes every entry of the trash directory, in listing order. A failed
   * removal is reported and the loop goes on; the only errors returned are
   * the two that stop emptyTrash before it removes anything.
   */
  method EmptyTrash(env: TrashEnv) returns (err: Option<string>, removed: seq<string>, report: seq<string>)
    ensures err == TrashError(env)
    ensures err.Some? <==> env.home.Err? || env.entries.Err?
    ensures err.Some? ==> removed == [] && report == []
    ensures err.None? ==>
      && removed == TrashItemPaths(Join(env.home.value, ".Trash"), env.entries.value)
      && report == FailureReport(removed, env.removeErrors)
  {
    removed, report := [], [];
    if env.home.Err? {
      return Some(HomeErrorPrefix + env.home.error), removed, report;
    }
    var trashPath := Join(env.home.value, ".Trash");
    if env.entries.Err? {
      return Some(TrashReadErrorPrefix + env.entries.error), removed, report;
    }
    var entries := env.entries.value;
    var i := 0;
    while i < |entries|
      invariant 0 <= i <= |entries|
      invariant removed == TrashItemPaths(trashPath, entries[..i])
      invariant report == FailureReport(removed, env.removeErrors)
    {
      var itemPath := Join(trashPath, entries[i]);
      assert entries[..i + 1] == entries[..i] + [entries[i]];
      TrashItemPathsSnoc(trashPath, entries[..i], entries[i]);
      FailureReportSnoc(removed, itemPath, env.removeErrors);
      removed := removed + [itemPath];
      if itemPath in env.removeErrors {
        report := report + [DeleteFailurePrefix + itemPath + ": " + env.removeErrors[itemPath] + "\n"];
      }
      i := i + 1;
    }
    assert entries[..i] == entries;
    err := None;
  }
}
