/**
 * The chat service of the gemini package: a transcript that only grows, an
 * optional system instruction, and the request/response round trip with
 * the model, including the dispatch of the model's function calls to the
 * local tools. Every reply of the model and everything the tools meet
 * outside is an input.
 */
module GeminiServiceModel {
  import opened Wrappers
  import opened Genai
  import opened Transcript
  import opened Session
  import opened GeminiTools
  import GeminiSchemas

  /** Everything the tools of one function call meet outside the program. */
  datatype Environment = Environment(
    estTime: string,
    findStdout: Option<string>,
    trash: TrashEnv,
    analyze: AnalyzeEnv,
    generate: GenerateEnv)

  /** One line of the console session: the model's reply, the tools' world, and the reply to a tool result. */
  datatype Turn = Turn(reply: Reply, env: Environment, followUp: Reply)

  /** What Ask gives back: (reply, nil), ("", err), or no answer because the process ended. */
  datatype AskOutcome = Answer(reply: string) | AskError(error: string) | Crashed(crash: Crash)

  const SuccessPayload: Payload := map["successful" := Bool(true)]

  /**
   * The result payload HandleFunctionCall hands to SendFunctionResult for
   * each of the seven tool names, reading its argument, if any, with a
   * string type assertion; None for any other name.
   */
  function ToolPayload(fc: FunctionCall, env: Environment): Option<Payload> {
    if fc.name == "get_current_time" then
      Some(map["time" := Str(env.estTime)])
    else if fc.name == "open_youtube_music" then
      Some(SuccessPayload)
    else if fc.name == "open_github" then
      Some(SuccessPayload)
    else if fc.name == "find_file" then
      var searchPrompt := ArgString(fc.args, "searchPrompt");
      Some(map["searchPrompt" := Str(searchPrompt), "path" := Str(FindFile(env.findStdout))])
    else if fc.name == "empty_trash" then
      var err := TrashError(env.trash);
      Some(map["successful" := Bool(err.None?), "errorMessage" := Str(if err.Some? then err.value else "")])
    else if fc.name == "analyze_image" then
      var imagePath := ArgString(fc.args, "path");
      Some(map["path" := Str(imagePath), "analysis" := Str(AnalyzeImage(imagePath, env.analyze).result)])
    else if fc.name == "generate_image" then
      var prompt := ArgString(fc.args, "prompt");
      Some(map["prompt" := Str(prompt), "filePath" := Str(GenerateImageRun(prompt, env.generate).result)])
    else
      None
  }

  /** The first part with non-empty text, or "" when there is none. */
  function FirstNonEmptyText(parts: seq<Part>): string {
    if parts == [] then ""
    else if parts[0].text != "" then parts[0].text
    else FirstNonEmptyText(parts[1..])
  }

  lemma {:induction false} FirstNonEmptyTextIsFirst(parts: seq<Part>, k: nat)
    requires k < |parts| && parts[k].text != ""
    requires forall j :: 0 <= j < k ==> parts[j].text == ""
    ensures FirstNonEmptyText(parts) == parts[k].text
  {
    if k > 0 {
      FirstNonEmptyTextIsFirst(parts[1..], k - 1);
    }
  }

  lemma {:induction false} FirstNonEmptyTextEmpty(parts: seq<Part>)
    ensures FirstNonEmptyText(parts) == "" <==> forall j :: 0 <= j < |parts| ==> parts[j].text == ""
  {
    if parts != [] {
      FirstNonEmptyTextEmpty(parts[1..]);
      assert forall j :: 1 <= j < |parts| ==> parts[j] == parts[1..][j - 1];
    }
  }

  /** SendFunctionResult's loop: the text of the first part whose text is not empty. */
  method FirstText(parts: seq<Part>) returns (text: string)
    ensures text == FirstNonEmptyText(parts)
    ensures text == "" <==> forall j :: 0 <= j < |parts| ==> parts[j].text == ""
  {
    FirstNonEmptyTextEmpty(parts);
    text := "";
    var i := 0;
    while i < |parts|
      invariant 0 <= i <= |parts|
      invariant forall j :: 0 <= j < i ==> parts[j].text == ""
      invariant FirstNonEmptyText(parts) == FirstNonEmptyText(parts[i..])
    {
      if parts[i].text != "" {
        text := parts[i].text;
        break;
      }
      assert parts[i..][1..] == parts[i + 1..];
      i := i + 1;
    }
  }

  /** The text SendFunctionResult keeps from the model's reply to a tool result. */
  function FollowUpText(cands: seq<Candidate>): string {
    if |cands| > 0 && |cands[0].content.parts| > 0 then FirstNonEmptyText(cands[0].content.parts) else ""
  }

  /** The model turn appended after a tool result: one, only when there is text to keep. */
  function FollowUpTurns(followUp: Reply): seq<Content> {
    if followUp.Failed? || FollowUpText(followUp.candidates) == "" then []
    else [ModelText(FollowUpText(followUp.candidates))]
  }

  /** What SendFunctionResult prints: the kept text, when there is some. */
  function FollowUpSaid(followUp: Reply): seq<string> {
    if followUp.Failed? || FollowUpText(followUp.candidates) == "" then []
    else [FollowUpText(followUp.candidates)]
  }

  /** The configuration of Ask's request: the seven tools and the system instruction, if set. */
  function ChatConfig(systemInstruction: Option<Content>): Config {
    Config(GeminiSchemas.GetFunctionSchemas(), systemInstruction, [], None)
  }

  /** The configuration of SendFunctionResult's request: nil unless a system instruction is set. */
  function ResultConfig(systemInstruction: Option<Content>): Option<Config> {
    if systemInstruction.Some? then Some(Config([], systemInstruction, [], None)) else None
  }

  class GeminiService {
    var conversation: seq<Content>
    var systemInstruction: Option<Content>

    ghost predicate Valid()
      reads this
    {
      WellFormed(conversation)
    }

    /** A service whose client was made: empty transcript, no system instruction. */
    constructor ()
      ensures Valid()
      ensures conversation == [] && systemInstruction == None
    {
      conversation := [];
      systemInstruction := None;
    }

    method SetSystemInstruction(instruction: string)
      modifies this`systemInstruction
      ensures systemInstruction == Some(Content("", [TextPart(instruction)]))
      ensures GetSystemInstruction() == instruction
    {
      systemInstruction := Some(Content("", [TextPart(instruction)]));
    }

    /** The first part's text of the system instruction; "" while none is set. */
    function GetSystemInstruction(): (text: string)
      reads this
      ensures systemInstruction.None? ==> text == ""
    {
      if systemInstruction.Some? && |systemInstruction.value.parts| > 0 then systemInstruction.value.parts[0].text
      else ""
    }

    /**
     * Appends the function call and its response, asks the model again, and
     * appends the first non-empty text of its reply, when there is one. A
     * failed request ends the process (log.Fatal).
     */
    method SendFunctionResult(fc: FunctionCall, result: Payload, followUp: Reply)
      returns (fatal: Option<string>, requests: seq<Request>, said: seq<string>)
      requires Valid()
      modifies this`conversation
      ensures Valid()
      ensures conversation == old(conversation) + [CallTurn(fc), ResponseTurn(fc, result)] + FollowUpTurns(followUp)
      ensures requests == [Request(ModelName, old(conversation) + [CallTurn(fc), ResponseTurn(fc, result)],
                                   ResultConfig(systemInstruction))]
      ensures fatal == if followUp.Failed? then Some(followUp.error) else None
      ensures said == FollowUpSaid(followUp)
    {
      AppendExchange(conversation, fc, result);
      conversation := conversation + [CallTurn(fc)];
      conversation := conversation + [ResponseTurn(fc, result)];
      var config := if systemInstruction.Some? then Some(Config([], systemInstruction, [], None)) else None;
      assert config == ResultConfig(systemInstruction);
      assert conversation == old(conversation) + [CallTurn(fc), ResponseTurn(fc, result)];
      requests := [Request(ModelName, conversation, config)];
      said := [];
      if followUp.Failed? {
        return Some(followUp.error), requests, said;
      }
      fatal := None;
      ghost var exchanged := conversation;
      var cands := followUp.candidates;
      ghost var kept := FollowUpText(cands);
      if |cands| > 0 && |cands[0].content.parts| > 0 {
        var textResponse := FirstText(cands[0].content.parts);
        assert textResponse == kept;
        if textResponse != "" {
          TextTurnsArePlain(textResponse);
          AppendPlain(conversation, ModelText(textResponse));
          conversation := conversation + [ModelText(textResponse)];
          said := [textResponse];
        }
      }
      assert FollowUpTurns(followUp) == (if kept == "" then [] else [ModelText(kept)]);
      assert conversation == exchanged + FollowUpTurns(followUp);
    }

    /**
     * Runs the tool the model asked for and sends its result back; an
     * unknown name changes nothing.
     */
    method HandleFunctionCall(fc: FunctionCall, env: Environment, followUp: Reply)
      returns (fatal: Option<string>, requests: seq<Request>, said: seq<string>)
      requires Valid()
      modifies this`conversation
      ensures Valid()
      ensures ToolPayload(fc, env).None? ==>
        conversation == old(conversation) && fatal.None? && requests == [] && said == []
      ensures ToolPayload(fc, env).Some? ==>
        var result := ToolPayload(fc, env).value;
        && conversation == old(conversation) + [CallTurn(fc), ResponseTurn(fc, result)] + FollowUpTurns(followUp)
        && requests == [Request(ModelName, old(conversation) + [CallTurn(fc), ResponseTurn(fc, result)],
                                ResultConfig(systemInstruction))]
        && fatal == (if followUp.Failed? then Some(followUp.error) else None)
        && said == FollowUpSaid(followUp)
    {
      fatal, requests, said := None, [], [];
      if fc.name == "get_current_time" {
        var result := map["time" := Str(env.estTime)];
        fatal, requests, said := SendFunctionResult(fc, result, followUp);
      } else if fc.name == "open_youtube_music" {
        var result := map["successful" := Bool(true)];
        fatal, requests, said := SendFunctionResult(fc, result, followUp);
      } else if fc.name == "open_github" {
        var result := map["successful" := Bool(true)];
        fatal, requests, said := SendFunctionResult(fc, result, followUp);
      } else if fc.name == "find_file" {
        var searchPrompt := ArgString(fc.args, "searchPrompt");
        var path := FindFile(env.findStdout);
        var result := map["searchPrompt" := Str(searchPrompt), "path" := Str(path)];
        fatal, requests, said := SendFunctionResult(fc, result, followUp);
      } else if fc.name == "empty_trash" {
        var err, _, _ := EmptyTrash(env.trash);
        var successful, errorMessage := true, "";
        if err.Some? {
          successful, errorMessage := false, err.value;
        }
        var result := map["successful" := Bool(successful), "errorMessage" := Str(errorMessage)];
        fatal, requests, said := SendFunctionResult(fc, result, followUp);
      } else if fc.name == "analyze_image" {
        var imagePath := ArgString(fc.args, "path");
        var analysis := AnalyzeImage(imagePath, env.analyze).result;
        var result := map["path" := Str(imagePath), "analysis" := Str(analysis)];
        fatal, requests, said := SendFunctionResult(fc, result, followUp);
      } else if fc.name == "generate_image" {
        var prompt := ArgString(fc.args, "prompt");
        var run := GenerateImage(prompt, env.generate);
        var result := map["prompt" := Str(prompt), "filePath" := Str(run.result)];
        fatal, requests, said := SendFunctionResult(fc, result, followUp);
      }
    }

    /**
     * The second half of Ask: reads the first candidate of a successful
     * reply. A function call is handed to HandleFunctionCall and "" is
     * returned; otherwise the first part's text is appended as a model turn
     * and returned. An absent candidate or part panics.
     */
    method ReadReply(cands: seq<Candidate>, env: Environment, followUp: Reply)
      returns (outcome: AskOutcome, requests: seq<Request>, said: seq<string>)
      requires Valid()
      modifies this`conversation
      ensures Valid() && old(conversation) <= conversation
      ensures
        match ReadFirstCandidate(cands)
        case NoCandidates =>
          outcome == Crashed(IndexOutOfRange) && conversation == old(conversation) && requests == [] && said == []
        case NoParts =>
          outcome == Crashed(IndexOutOfRange) && conversation == old(conversation) && requests == [] && said == []
        case TextAnswer(text) =>
          outcome == Answer(text) && conversation == old(conversation) + [ModelText(text)]
          && requests == [] && said == []
        case CallAnswer(fc) =>
          match ToolPayload(fc, env)
          case None =>
            outcome == Answer("") && conversation == old(conversation) && requests == [] && said == []
          case Some(result) =>
            && outcome == (if followUp.Failed? then Crashed(Fatal(followUp.error)) else Answer(""))
            && conversation == old(conversation) + [CallTurn(fc), ResponseTurn(fc, result)] + FollowUpTurns(followUp)
            && requests == [Request(ModelName, old(conversation) + [CallTurn(fc), ResponseTurn(fc, result)],
                                    ResultConfig(systemInstruction))]
            && said == FollowUpSaid(followUp)
    {
      requests, said := [], [];
      if |cands| == 0 {
        return Crashed(IndexOutOfRange), requests, said;
      }
      var candidate := cands[0];
      if |candidate.content.parts| > 0 && candidate.content.parts[0].functionCall.Some? {
        var fc := candidate.content.parts[0].functionCall.value;
        assert ReadFirstCandidate(cands) == CallAnswer(fc);
        var fatal;
        fatal, requests, said := HandleFunctionCall(fc, env, followUp);
        if fatal.Some? {
          return Crashed(Fatal(fatal.value)), requests, said;
        }
        outcome := Answer("");
      } else {
        if |candidate.content.parts| == 0 {
          return Crashed(IndexOutOfRange), requests, said;
        }
        var text := candidate.content.parts[0].text;
        TextTurnsArePlain(text);
        AppendPlain(conversation, ModelText(text));
        conversation := conversation + [ModelText(text)];
        outcome := Answer(text);
      }
    }

    /**
     * Appends the prompt as a user turn, then asks the model with the seven
     * tools and the system instruction, if set. An API error is returned;
     * a successful reply is read by ReadReply.
     */
    method Ask(prompt: string, reply: Reply, env: Environment, followUp: Reply)
      returns (outcome: AskOutcome, requests: seq<Request>, said: seq<string>)
      requires Valid()
      modifies this`conversation
      ensures Valid() && old(conversation) <= conversation
      ensures |requests| >= 1
      ensures requests[0] == Request(ModelName, old(conversation) + [UserText(prompt)], Some(ChatConfig(systemInstruction)))
      ensures reply.Failed? ==>
        outcome == AskError(reply.error) && conversation == old(conversation) + [UserText(prompt)]
        && |requests| == 1 && said == []
      ensures reply.Response? ==>
        match ReadFirstCandidate(reply.candidates)
        case NoCandidates =>
          outcome == Crashed(IndexOutOfRange) && conversation == old(conversation) + [UserText(prompt)]
          && |requests| == 1 && said == []
        case NoParts =>
          outcome == Crashed(IndexOutOfRange) && conversation == old(conversation) + [UserText(prompt)]
          && |requests| == 1 && said == []
        case TextAnswer(text) =>
          outcome == Answer(text) && conversation == old(conversation) + [UserText(prompt)] + [ModelText(text)]
          && |requests| == 1 && said == []
        case CallAnswer(fc) =>
          match ToolPayload(fc, env)
          case None =>
            outcome == Answer("") && conversation == old(conversation) + [UserText(prompt)]
            && |requests| == 1 && said == []
          case Some(result) =>
            && outcome == (if followUp.Failed? then Crashed(Fatal(followUp.error)) else Answer(""))
            && conversation == old(conversation) + [UserText(prompt)] + [CallTurn(fc), ResponseTurn(fc, result)]
                               + FollowUpTurns(followUp)
            && requests[1..] == [Request(ModelName, old(conversation) + [UserText(prompt)] + [CallTurn(fc), ResponseTurn(fc, result)],
                                         ResultConfig(systemInstruction))]
            && said == FollowUpSaid(followUp)
    {
      TextTurnsArePlain(prompt);
      AppendPlain(conversation, UserText(prompt));
      conversation := conversation + [UserText(prompt)];
      var config := Config(GeminiSchemas.GetFunctionSchemas(), None, [], None);
      if systemInstruction.Some? {
        config := config.(systemInstruction := systemInstruction);
      }
      var first := Request(ModelName, conversation, Some(config));
      if reply.Failed? {
        return AskError(reply.error), [first], [];
      }
      var more;
      outcome, more, said := ReadReply(reply.candidates, env, followUp);
      requests := [first] + more;
      assert requests[1..] == more;
    }

    /**
     * The console loop: every line before the first "quit" is asked; an
     * error is logged and the loop goes on; a non-empty answer is printed;
     * "quit" prints "Goodbye!" and ends the loop. A crash ends the process.
     */
    method Run(lines: seq<string>, turns: seq<Turn>)
      returns (prompted: seq<string>, said: seq<string>, crash: Option<Crash>)
      requires Valid() && |turns| == |lines|
      modifies this`conversation
      ensures Valid() && old(conversation) <= conversation
      ensures |prompted| <= |BeforeQuit(lines)| && prompted == BeforeQuit(lines)[..|prompted|]
      ensures crash.None? ==> prompted == BeforeQuit(lines)
      ensures crash.None? && QuitCommand in lines ==> |said| > 0 && said[|said| - 1] == "Goodbye!"
    {
      prompted, said, crash := [], [], None;
      var i := 0;
      while i < |lines|
        invariant 0 <= i <= |lines|
        invariant prompted == lines[..i]
        invariant forall k :: 0 <= k < i ==> lines[k] != QuitCommand
        invariant Valid() && old(conversation) <= conversation
      {
        var prompt := lines[i];
        if prompt == QuitCommand {
          said := said + ["Goodbye!"];
          BeforeQuitAt(lines, i);
          return;
        }
        BeforeQuitKeeps(lines, i + 1);
        prompted := prompted + [prompt];
        assert prompted == lines[..i + 1];
        var outcome, _, s := Ask(prompt, turns[i].reply, turns[i].env, turns[i].followUp);
        said := said + s;
        if outcome.Crashed? {
          crash := Some(outcome.crash);
          return;
        }
        if outcome.Answer? && outcome.reply != "" {
          said := said + [outcome.reply];
        }
        i := i + 1;
      }
      BeforeQuitAt(lines, i);
      assert lines[..i] == lines;
    }
  }
}
