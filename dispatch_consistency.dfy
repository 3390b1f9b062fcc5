/**
 * What the tool declarations offered to the model and the dispatchers that
 * answer its calls agree on, in both packages.
 */
module DispatchConsistency {
  import opened Wrappers
  import opened Genai
  import opened GeminiSchemas
  import opened GeminiServiceModel
  import MainSchemas
  import MainProgram

  /** HandleFunctionCall answers exactly the declared names: every declared name is dispatched, no other name is. */
  lemma DispatchedNamesAreDeclared(fc: FunctionCall, env: Environment)
    ensures ToolPayload(fc, env).Some? <==> fc.name in DeclaredNames(GetFunctionSchemas())
  {
    DeclaredNamesAreToolNames();
  }

  /**
   * For each declaration with a required parameter, the dispatcher reads
   * that very key: the result payload records the argument's string value
   * under the key, and two calls whose arguments agree on the key get the
   * same payload.
   */
  lemma DispatchReadsRequiredParameter(k: nat, args1: map<string, ArgValue>, args2: map<string, ArgValue>, env: Environment)
    requires k < |Declarations()| && Declarations()[k].parameters.Some?
    ensures RequiredParameter(Declarations()[k]).Some?
    ensures var name, key := Declarations()[k].name, RequiredParameter(Declarations()[k]).value;
      && ToolPayload(FunctionCall(name, args1), env).Some?
      && key in ToolPayload(FunctionCall(name, args1), env).value
      && ToolPayload(FunctionCall(name, args1), env).value[key] == Str(ArgString(args1, key))
      && (ArgString(args1, key) == ArgString(args2, key) ==>
            ToolPayload(FunctionCall(name, args1), env) == ToolPayload(FunctionCall(name, args2), env))
  {
    ParameterisedDeclarationsRequireOneKey();
    RequiredKeys();
    assert k == 1 || k == 2 || k == 5;
  }

  /** The four declarations without parameters are dispatched without reading any argument. */
  lemma ParameterlessDispatchIgnoresArguments(k: nat, args1: map<string, ArgValue>, args2: map<string, ArgValue>, env: Environment)
    requires k < |Declarations()| && Declarations()[k].parameters.None?
    ensures var name := Declarations()[k].name;
      && ToolPayload(FunctionCall(name, args1), env).Some?
      && ToolPayload(FunctionCall(name, args1), env) == ToolPayload(FunctionCall(name, args2), env)
  {
    ParameterlessDeclarations();
    assert k in {0, 3, 4, 6};
  }

  /** The root package's dispatcher answers exactly its one declared name. */
  lemma MainDispatchedNamesAreDeclared(fc: FunctionCall, estTime: string)
    ensures MainProgram.MainToolPayload(fc, estTime).Some? <==> fc.name in DeclaredNames(MainSchemas.GetFunctionSchemas())
  {
    MainSchemas.SingleDeclaration();
  }

  /**
   * The root package's only declaration is also a declaration of the gemini
   * package, and the two dispatchers give it the same payload.
   */
  lemma MainDeclarationsAreGeminiDeclarations(fc: FunctionCall, env: Environment)
    ensures forall d :: d in MainSchemas.GetFunctionSchemas()[0].functionDeclarations ==> d in Declarations()
    ensures DeclaredNames(MainSchemas.GetFunctionSchemas()) <= DeclaredNames(GetFunctionSchemas())
    ensures MainProgram.MainToolPayload(fc, env.estTime).Some? ==>
      MainProgram.MainToolPayload(fc, env.estTime) == ToolPayload(fc, env)
  {
    MainSchemas.SingleDeclaration();
    DeclaredNamesAreToolNames();
    assert Declarations()[0] == MainSchemas.GetFunctionSchemas()[0].functionDeclarations[0];
  }
}
