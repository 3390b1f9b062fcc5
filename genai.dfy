/**
 * The values the chat client exchanges with the generative-language client
 * library: conversation turns, their parts, function calls and responses,
 * tool declarations, requests and replies. Only the fields the core reads or
 * writes are kept.
 */
module Genai {
  import opened Wrappers

  /** One byte of file or image data. */
  newtype byte = x: int | 0 <= x < 256

  /** A value found in FunctionCall.Args (a Go `map[string]any`): only strings are told apart. */
  datatype ArgValue = StringArg(s: string) | OtherArg

  /** What `args[key].(string)` yields: the string, or "" when the key is missing or not a string. */
  function ArgString(args: map<string, ArgValue>, key: string): string {
    if key in args && args[key].StringArg? then args[key].s else ""
  }

  datatype FunctionCall = FunctionCall(name: string, args: map<string, ArgValue>)

  /** A value in a tool's result payload (`map[string]any`): the core only stores strings and booleans. */
  datatype Value = Str(s: string) | Bool(b: bool)

  type Payload = map<string, Value>

  datatype FunctionResponse = FunctionResponse(name: string, response: Payload)

  datatype Blob = Blob(mimeType: string, data: seq<byte>)

  /** A part of a turn; the three optional fields are nil unless set, Text is "" unless set. */
  datatype Part = Part(
    text: string,
    functionCall: Option<FunctionCall>,
    functionResponse: Option<FunctionResponse>,
    inlineData: Option<Blob>)

  function TextPart(text: string): Part { Part(text, None, None, None) }
  function CallPart(fc: FunctionCall): Part { Part("", Some(fc), None, None) }
  function ResponsePart(r: FunctionResponse): Part { Part("", None, Some(r), None) }
  function InlinePart(b: Blob): Part { Part("", None, None, Some(b)) }

  /** One turn of a conversation; the system instruction is a Content with an empty role. */
  datatype Content = Content(role: string, parts: seq<Part>)

  const UserRole: string := "user"
  const ModelRole: string := "model"

  /** The turn appended for a line the user typed. */
  function UserText(text: string): Content { Content(UserRole, [TextPart(text)]) }
  /** The turn appended for a text answer of the model. */
  function ModelText(text: string): Content { Content(ModelRole, [TextPart(text)]) }
  /** The turn recording that the model asked for a function call. */
  function CallTurn(fc: FunctionCall): Content { Content(ModelRole, [CallPart(fc)]) }
  /** The turn carrying a tool's result back to the model, named after the call. */
  function ResponseTurn(fc: FunctionCall, result: Payload): Content {
    Content(UserRole, [ResponsePart(FunctionResponse(fc.name, result))])
  }

  datatype SchemaType = TypeObject | TypeString

  /** A parameter schema; Properties is Go's `map[string]*Schema`. */
  datatype Schema = Schema(
    typ: SchemaType,
    description: string,
    properties: map<string, Schema>,
    required: seq<string>)

  datatype FunctionDeclaration = FunctionDeclaration(
    name: string,
    description: string,
    parameters: Option<Schema>)

  datatype Tool = Tool(functionDeclarations: seq<FunctionDeclaration>)

  /** The names of all function declarations of a tool list. */
  function DeclaredNames(tools: seq<Tool>): (names: set<string>)
    ensures forall i, j :: 0 <= i < |tools| && 0 <= j < |tools[i].functionDeclarations| ==>
      tools[i].functionDeclarations[j].name in names
  {
    set i, j | 0 <= i < |tools| && 0 <= j < |tools[i].functionDeclarations| :: tools[i].functionDeclarations[j].name
  }

  datatype ImageConfig = ImageConfig(aspectRatio: string)

  /** GenerateContentConfig, with the fields the core sets. */
  datatype Config = Config(
    tools: seq<Tool>,
    systemInstruction: Option<Content>,
    responseModalities: seq<string>,
    imageConfig: Option<ImageConfig>)

  /** One call of `Models.GenerateContent(ctx, model, contents, config)`; a nil config is None. */
  datatype Request = Request(model: string, contents: seq<Content>, config: Option<Config>)

  datatype Candidate = Candidate(content: Content)

  /** What a GenerateContent call gives back: an error, or a response with its candidates. */
  datatype Reply = Failed(error: string) | Response(candidates: seq<Candidate>)

  /** How both chat loops read a reply: Candidates[0], then the first of its parts. */
  datatype Reading = NoCandidates | NoParts | CallAnswer(call: FunctionCall) | TextAnswer(text: string)

  /**
   * A function call when the first part carries one; otherwise the first
   * part's text. The source indexes Candidates[0] and Parts[0] without a
   * check, so the two empty cases are the ones on which it panics.
   */
  function ReadFirstCandidate(cands: seq<Candidate>): Reading {
    if |cands| == 0 then NoCandidates
    else
      var parts := cands[0].content.parts;
      if |parts| > 0 && parts[0].functionCall.Some? then CallAnswer(parts[0].functionCall.value)
      else if |parts| == 0 then NoParts
      else TextAnswer(parts[0].text)
  }
}
