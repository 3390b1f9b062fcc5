/** The single tool declaration the root package offers the model. */
module MainSchemas {
  import opened Wrappers
  import opened Genai

  const GetCurrentTimeDescription: string := "Gets the current time in EST"

  function GetFunctionSchemas(): seq<Tool> {
    [Tool([FunctionDeclaration("get_current_time", GetCurrentTimeDescription, None)])]
  }

  /** Exactly one tool with exactly one declaration: get_current_time, without parameters. */
  lemma SingleDeclaration()
    ensures |GetFunctionSchemas()| == 1
    ensures GetFunctionSchemas()[0].functionDeclarations
         == [FunctionDeclaration("get_current_time", GetCurrentTimeDescription, None)]
    ensures DeclaredNames(GetFunctionSchemas()) == {"get_current_time"}
  {
    var tools := GetFunctionSchemas();
    assert tools[0].functionDeclarations[0].name == "get_current_time";
  }
}
