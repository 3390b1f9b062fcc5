/**
 * The root package's chat loop: a package-level transcript, a client made
 * anew for every prompt, and one tool, get_current_time. Unlike the gemini
 * package, every failure of the remote calls ends the process, and the
 * model's reply to a tool result is always appended.
 */
module MainProgram {
  import opened Wrappers
  import opened Genai
  import opened Transcript
  import opened Session
  import MainSchemas

  const MainModelName: string := "gemini-2.5-flash"
  const Greeting: string := "Hello good sir! How can I be of assistance today?"
  const Farewell: string := "Goodbye!"
  const SpeakerPrefix: string := "Chap GPT: "

  /** The line printGeminiMessage writes; the message can be read back after the fixed prefix. */
  function PrintGeminiMessage(msg: string): (line: string)
    ensures |line| == |SpeakerPrefix| + |msg|
    ensures line[..|SpeakerPrefix|] == SpeakerPrefix && line[|SpeakerPrefix|..] == msg
  {
    SpeakerPrefix + msg
  }

  /** What one prompt meets outside: client creation, the reply, the clock, the reply to a tool result. */
  datatype MainTurn = MainTurn(clientError: Option<string>, reply: Reply, estTime: string, followUp: Reply)

  /** handleFunctionCall: only get_current_time is answered; its payload is the time. */
  function MainToolPayload(fc: FunctionCall, estTime: string): Option<Payload> {
    if fc.name == "get_current_time" then Some(map["time" := Str(estTime)]) else None
  }

  /** How sendFunctionResult reads the model's reply to a tool result: Candidates[0].Content.Parts[0].Text, unchecked. */
  datatype FollowUp = FollowUpFatal(error: string) | FollowUpMissing | FollowUpText(text: string)

  function ReadFollowUp(followUp: Reply): FollowUp {
    match followUp
    case Failed(e) => FollowUpFatal(e)
    case Response(cands) =>
      if |cands| == 0 || |cands[0].content.parts| == 0 then FollowUpMissing
      else FollowUpText(cands[0].content.parts[0].text)
  }

  function FollowUpCrash(f: FollowUp): Option<Crash> {
    match f
    case FollowUpFatal(e) => Some(Fatal(e))
    case FollowUpMissing => Some(IndexOutOfRange)
    case FollowUpText(_) => None
  }

  class Chat {
    /** The package-level `conversation` slice. */
    var conversation: seq<Content>

    ghost predicate Valid()
      reads this
    {
      WellFormed(conversation)
    }

    constructor ()
      ensures Valid() && conversation == []
    {
      conversation := [];
    }

    /**
     * Appends the call and its response, asks the model again and appends
     * its text as a model turn, whatever it is, printing it too.
     */
    method SendFunctionResult(fc: FunctionCall, result: Payload, followUp: Reply)
      returns (crash: Option<Crash>, requests: seq<Request>, said: seq<string>)
      requires Valid()
      modifies this
      ensures Valid()
      ensures requests == [Request(MainModelName, old(conversation) + [CallTurn(fc), ResponseTurn(fc, result)], None)]
      ensures crash == FollowUpCrash(ReadFollowUp(followUp))
      ensures crash.Some? ==> conversation == old(conversation) + [CallTurn(fc), ResponseTurn(fc, result)] && said == []
      ensures crash.None? ==>
        var text := ReadFollowUp(followUp).text;
        conversation == old(conversation) + [CallTurn(fc), ResponseTurn(fc, result), ModelText(text)]
        && said == [PrintGeminiMessage(text)]
    {
      AppendExchange(conversation, fc, result);
      conversation := conversation + [CallTurn(fc)];
      conversation := conversation + [ResponseTurn(fc, result)];
      assert conversation == old(conversation) + [CallTurn(fc), ResponseTurn(fc, result)];
      requests := [Request(MainModelName, conversation, None)];
      said := [];
      if followUp.Failed? {
        return Some(Fatal(followUp.error)), requests, said;
      }
      var cands := followUp.candidates;
      if |cands| == 0 || |cands[0].content.parts| == 0 {
        return Some(IndexOutOfRange), requests, said;
      }
      var text := cands[0].content.parts[0].text;
      TextTurnsArePlain(text);
      AppendPlain(conversation, ModelText(text));
      conversation := conversation + [ModelText(text)];
      said := [PrintGeminiMessage(text)];
      crash := None;
    }

    /** Answers get_current_time; any other name is reported on the console and changes nothing. */
    method HandleFunctionCall(fc: FunctionCall, estTime: string, followUp: Reply)
      returns (crash: Option<Crash>, requests: seq<Request>, said: seq<string>)
      requires Valid()
      modifies this
      ensures Valid()
      ensures MainToolPayload(fc, estTime).None? ==>
        conversation == old(conversation) && crash.None? && requests == [] && said == []
      ensures MainToolPayload(fc, estTime).Some? ==>
        var result := MainToolPayload(fc, estTime).value;
        && requests == [Request(MainModelName, old(conversation) + [CallTurn(fc), ResponseTurn(fc, result)], None)]
        && crash == FollowUpCrash(ReadFollowUp(followUp))
        && (crash.Some? ==> conversation == old(conversation) + [CallTurn(fc), ResponseTurn(fc, result)] && said == [])
        && (crash.None? ==>
              conversation == old(conversation)
                + [CallTurn(fc), ResponseTurn(fc, result), ModelText(ReadFollowUp(followUp).text)]
              && said == [PrintGeminiMessage(ReadFollowUp(followUp).text)])
    {
      if fc.name == "get_current_time" {
        var result := map["time" := Str(estTime)];
        crash, requests, said := SendFunctionResult(fc, result, followUp);
      } else {
        crash, requests, said := None, [], [];
      }
    }

    /**
     * Makes a client (log.Fatal when that fails), appends the prompt as a
     * user turn, asks the model, and either prints and appends its text or
     * hands its function call to HandleFunctionCall.
     */
    method PromptGemini(prompt: string, turn: MainTurn)
      returns (crash: Option<Crash>, requests: seq<Request>, said: seq<string>)
      requires Valid()
      modifies this
      ensures Valid() && old(conversation) <= conversation
      ensures turn.clientError.Some? ==>
        crash == Some(Fatal(turn.clientError.value)) && conversation == old(conversation) && requests == [] && said == []
      ensures turn.clientError.None? ==>
        |requests| >= 1
        && requests[0] == Request(MainModelName, old(conversation) + [UserText(prompt)],
                                  Some(Config(MainSchemas.GetFunctionSchemas(), None, [], None)))
        && |conversation| > |old(conversation)|
        && conversation[..|old(conversation)| + 1] == old(conversation) + [UserText(prompt)]
      ensures turn.clientError.None? && turn.reply.Failed? ==>
        crash == Some(Fatal(turn.reply.error)) && conversation == old(conversation) + [UserText(prompt)]
        && |requests| == 1 && said == []
      ensures turn.clientError.None? && turn.reply.Response? ==>
        match ReadFirstCandidate(turn.reply.candidates)
        case NoCandidates =>
          crash == Some(IndexOutOfRange) && conversation == old(conversation) + [UserText(prompt)] && said == []
        case NoParts =>
          crash == Some(IndexOutOfRange) && conversation == old(conversation) + [UserText(prompt)] && said == []
        case TextAnswer(text) =>
          crash.None? && conversation == old(conversation) + [UserText(prompt), ModelText(text)]
          && said == [PrintGeminiMessage(text)] && |requests| == 1
        case CallAnswer(fc) =>
          match MainToolPayload(fc, turn.estTime)
          case None =>
            crash.None? && conversation == old(conversation) + [UserText(prompt)] && said == [] && |requests| == 1
          case Some(result) =>
            && crash == FollowUpCrash(ReadFollowUp(turn.followUp))
            && |requests| == 2
            && requests[1] == Request(MainModelName,
                 old(conversation) + [UserText(prompt), CallTurn(fc), ResponseTurn(fc, result)], None)
            && (crash.Some? ==>
                  conversation == old(conversation) + [UserText(prompt), CallTurn(fc), ResponseTurn(fc, result)]
                  && said == [])
            && (crash.None? ==>
                  conversation == old(conversation) + [UserText(prompt), CallTurn(fc), ResponseTurn(fc, result),
                                                       ModelText(ReadFollowUp(turn.followUp).text)]
                  && |conversation| == |old(conversation)| + 4
                  && said == [PrintGeminiMessage(ReadFollowUp(turn.followUp).text)])
    {
      requests, said := [], [];
      if turn.clientError.Some? {
        return Some(Fatal(turn.clientError.value)), requests, said;
      }
      var config := Config(MainSchemas.GetFunctionSchemas(), None, [], None);
      TextTurnsArePlain(prompt);
      AppendPlain(conversation, UserText(prompt));
      conversation := conversation + [UserText(prompt)];
      ghost var asked := conversation;
      requests := [Request(MainModelName, conversation, Some(config))];
      if turn.reply.Failed? {
        return Some(Fatal(turn.reply.error)), requests, said;
      }
      var cands := turn.reply.candidates;
      if |cands| == 0 {
        return Some(IndexOutOfRange), requests, said;
      }
      var candidate := cands[0];
      if |candidate.content.parts| > 0 && candidate.content.parts[0].functionCall.Some? {
        var fc := candidate.content.parts[0].functionCall.value;
        assert ReadFirstCandidate(cands) == CallAnswer(fc);
        var more;
        crash, more, said := HandleFunctionCall(fc, turn.estTime, turn.followUp);
        if MainToolPayload(fc, turn.estTime).Some? {
          var result := MainToolPayload(fc, turn.estTime).value;
          assert asked + [CallTurn(fc), ResponseTurn(fc, result)]
              == old(conversation) + [UserText(prompt), CallTurn(fc), ResponseTurn(fc, result)];
          if ReadFollowUp(turn.followUp).FollowUpText? {
            var text := ReadFollowUp(turn.followUp).text;
            assert asked + [CallTurn(fc), ResponseTurn(fc, result), ModelText(text)]
                == old(conversation) + [UserText(prompt), CallTurn(fc), ResponseTurn(fc, result), ModelText(text)];
          }
        }
        requests := requests + more;
      } else {
        if |candidate.content.parts| == 0 {
          return Some(IndexOutOfRange), requests, said;
        }
        var reply := candidate.content.parts[0].text;
        said := [PrintGeminiMessage(reply)];
        TextTurnsArePlain(reply);
        AppendPlain(conversation, ModelText(reply));
        conversation := conversation + [ModelText(reply)];
        crash := None;
      }
    }

    /**
     * main: greets, then prompts the model with every line before the
     * first "quit"; "quit" prints the farewell and ends the loop without
     * prompting. A crash ends the process.
     */
    method Run(lines: seq<string>, turns: seq<MainTurn>)
      returns (prompted: seq<string>, said: seq<string>, crash: Option<Crash>)
      requires Valid() && |turns| == |lines|
      modifies this
      ensures Valid() && old(conversation) <= conversation
      ensures |said| > 0 && said[0] == PrintGeminiMessage(Greeting)
      ensures |prompted| <= |BeforeQuit(lines)| && prompted == BeforeQuit(lines)[..|prompted|]
      ensures crash.None? ==> prompted == BeforeQuit(lines)
      ensures crash.None? && QuitCommand in lines ==> said[|said| - 1] == PrintGeminiMessage(Farewell)
    {
      prompted, said, crash := [], [PrintGeminiMessage(Greeting)], None;
      var i := 0;
      while i < |lines|
        invariant 0 <= i <= |lines|
        invariant prompted == lines[..i]
        invariant forall k :: 0 <= k < i ==> lines[k] != QuitCommand
        invariant Valid() && old(conversation) <= conversation
        invariant |said| > 0 && said[0] == PrintGeminiMessage(Greeting)
      {
        var prompt := lines[i];
        if prompt == QuitCommand {
          said := said + [PrintGeminiMessage(Farewell)];
          BeforeQuitAt(lines, i);
          return;
        }
        BeforeQuitKeeps(lines, i + 1);
        prompted := prompted + [prompt];
        assert prompted == lines[..i + 1];
        var c, _, s := PromptGemini(prompt, turns[i]);
        said := said + s;
        if c.Some? {
          crash := c;
          return;
        }
        i := i + 1;
      }
      BeforeQuitAt(lines, i);
      assert lines[..i] == lines;
    }
  }
}
