/** The seven tool declarations the gemini package offers the model with every prompt. */
module GeminiSchemas {
  import opened Wrappers
  import opened Genai

  // The descriptions the model is shown, one constant each.
  const GetCurrentTimeDescription: string := "Gets the current time in EST"
  const AnalyzeImageDescription: string := "Analyzes an image from a local file path and returns a detailed description"
  const ImagePathDescription: string := "The local file path to the image to analyze"
  const GenerateImageDescription: string := "Generates an image from a text prompt"
  const ImagePromptDescription: string := "The text description of the image to generate"
  const OpenYoutubeMusicDescription: string := "Opens YouTube Music in the Safari web browser"
  const OpenGithubDescription: string := "Opens GitHub in the Safari web browser"
  const FindFileDescription: string := "Executes a fuzzy search to find its file path"
  const SearchPromptDescription: string := "The string that will be used in the fuzzy search for the file path."
  const EmptyTrashDescription: string := "Deletes all of the files in the recycle bin."

  function GetFunctionSchemas(): seq<Tool> {
    [Tool([
      FunctionDeclaration("get_current_time", GetCurrentTimeDescription, None),
      FunctionDeclaration(
        "analyze_image",
        AnalyzeImageDescription,
        Some(Schema(TypeObject, "",
          map["path" := Schema(TypeString, ImagePathDescription, map[], [])],
          ["path"]))),
      FunctionDeclaration(
        "generate_image",
        GenerateImageDescription,
        Some(Schema(TypeObject, "",
          map["prompt" := Schema(TypeString, ImagePromptDescription, map[], [])],
          ["prompt"]))),
      FunctionDeclaration("open_youtube_music", OpenYoutubeMusicDescription, None),
      FunctionDeclaration("open_github", OpenGithubDescription, None),
      FunctionDeclaration(
        "find_file",
        FindFileDescription,
        Some(Schema(TypeObject, "",
          map["searchPrompt" := Schema(TypeString,
            SearchPromptDescription, map[], [])],
          ["searchPrompt"]))),
      FunctionDeclaration("empty_trash", EmptyTrashDescription, None)
    ])]
  }

  /** The declarations of the single tool. */
  function Declarations(): seq<FunctionDeclaration> {
    GetFunctionSchemas()[0].functionDeclarations
  }

  /** The tool names the model may call. */
  const ToolNames: set<string> := {
    "get_current_time", "analyze_image", "generate_image", "open_youtube_music",
    "open_github", "find_file", "empty_trash"
  }

  /** There is exactly one tool, and it declares seven functions with pairwise distinct names. */
  lemma OneToolSevenDistinctDeclarations()
    ensures |GetFunctionSchemas()| == 1
    ensures |Declarations()| == 7
    ensures forall i, j :: 0 <= i < j < |Declarations()| ==> Declarations()[i].name != Declarations()[j].name
  {
  }

  /** The declared names are exactly the seven tool names. */
  lemma DeclaredNamesAreToolNames()
    ensures DeclaredNames(GetFunctionSchemas()) == ToolNames
  {
    var tools := GetFunctionSchemas();
    var ds := Declarations();
    var names := [ds[0].name, ds[1].name, ds[2].name, ds[3].name, ds[4].name, ds[5].name, ds[6].name];
    assert names == ["get_current_time", "analyze_image", "generate_image", "open_youtube_music",
                     "open_github", "find_file", "empty_trash"];
    forall n | n in ToolNames ensures n in DeclaredNames(tools) {
      assert n in names;
      var j :| 0 <= j < 7 && names[j] == n;
      assert tools[0].functionDeclarations[j].name == n;
    }
    forall n | n in DeclaredNames(tools) ensures n in ToolNames {
      var i, j :| 0 <= i < |tools| && 0 <= j < |tools[i].functionDeclarations| && tools[i].functionDeclarations[j].name == n;
      assert n == names[j];
    }
  }

  /**
   * The one required parameter a declaration names, when it has
   * parameters: an object schema whose Required list is a single key,
   * present among its Properties as a string.
   */
  function RequiredParameter(d: FunctionDeclaration): Option<string> {
    match d.parameters
    case None => None
    case Some(p) =>
      if p.typ == TypeObject && |p.required| == 1 && p.required[0] in p.properties
         && p.properties[p.required[0]].typ == TypeString
      then Some(p.required[0])
      else None
  }

  /**
   * Every declaration with parameters has an object schema whose Required
   * list is a singleton naming its only Property, a string.
   */
  lemma ParameterisedDeclarationsRequireOneKey()
    ensures forall k :: 0 <= k < |Declarations()| && Declarations()[k].parameters.Some? ==>
      var p := Declarations()[k].parameters.value;
      RequiredParameter(Declarations()[k]) == Some(p.required[0])
      && |p.required| == 1 && p.properties.Keys == {p.required[0]}
  {
    var ds := Declarations();
    forall k | 0 <= k < |ds| && ds[k].parameters.Some?
      ensures var p := ds[k].parameters.value;
        RequiredParameter(ds[k]) == Some(p.required[0]) && |p.required| == 1 && p.properties.Keys == {p.required[0]}
    {
      assert k == 1 || k == 2 || k == 5;
    }
  }

  /** The three required keys: "path" for analyze_image, "prompt" for generate_image, "searchPrompt" for find_file. */
  lemma RequiredKeys()
    ensures Declarations()[1].name == "analyze_image" && RequiredParameter(Declarations()[1]) == Some("path")
    ensures Declarations()[2].name == "generate_image" && RequiredParameter(Declarations()[2]) == Some("prompt")
    ensures Declarations()[5].name == "find_file" && RequiredParameter(Declarations()[5]) == Some("searchPrompt")
  {
  }

  /** get_current_time, open_youtube_music, open_github and empty_trash declare no parameters. */
  lemma ParameterlessDeclarations()
    ensures forall k :: 0 <= k < |Declarations()| ==>
      (Declarations()[k].parameters.None? <==> k in {0, 3, 4, 6})
    ensures Declarations()[0].name == "get_current_time" && Declarations()[3].name == "open_youtube_music"
    ensures Declarations()[4].name == "open_github" && Declarations()[6].name == "empty_trash"
  {
  }
}
