# go-llm-chatbot in Dafny

A model of the core of a command-line chat client written in Go. The client sends what the user types to a remote generative-language API, keeps a linear transcript of the conversation, and runs local tools when the model asks for them. It then sends each tool's result back to the model.

The model covers:

- **The transcript state machine of both packages.** `GeminiServiceModel.GeminiService` models the `gemini` package's service object: its transcript, its optional system instruction, `Ask`, `HandleFunctionCall`, `SendFunctionResult` and the console loop `Run`. `MainProgram.Chat` models the root package's package-level `conversation` together with `promptGemini`, `handleFunctionCall`, `sendFunctionResult` and `main`'s loop.
- **Replies are inputs.** Each reply of the remote model is an input (`Reply = Failed(error) | Response(candidates)`), so every operation is a deterministic transition. The prompting methods (`Ask`, `ReadReply`, `HandleFunctionCall`, `SendFunctionResult`, `PromptGemini`) return the chat requests they send. That is how "the user turn is appended before the model is called" is stated, about the request's contents. The requests the image tools make themselves, and the file `generateImage` writes, are fields of that tool's `ToolRun` record (`GeminiTools.AnalyzeImage`, `GeminiTools.GenerateImageRun`). They are not passed up through `HandleFunctionCall`. The two `Run` loops return the lines they prompted with and what they printed, not the requests.
- **Crashes are outcomes.** The unchecked `Candidates[0]` / `Parts[0]` indexing and `log.Fatal` appear as a `Crash` outcome: the process ends. The model invents no recovery.
- **Tool declarations and dispatch.** The declarations are constant data: seven tools in `gemini/schemas.go`, one in `schemas.go`. Lemmas show that each dispatcher answers exactly the declared names and reads exactly the declared required arguments.
- **The tools' own logic.** This covers the extension-to-MIME switch and its inverse, the generated-file naming scheme, the selection of the first inline image part, `findFile`'s answer formatting and `emptyTrash`'s error policy. Everything the tools meet outside the program is an input: file contents, API replies, the clock, command output and the directory listing.
- **The Go library pieces they rest on**, in `GoStrings`: `strings.ToLower`, `strings.TrimSpace`, `filepath.Ext`, `filepath.Join` and `%d`.
- **A transcript invariant**, `Transcript.WellFormed`. Every turn has one part. Function-call turns and function-response turns come in adjacent pairs with the same name. Every state-changing method preserves it, and the transcript is only ever appended to.

Files: `wrappers.dfy`, `genai.dfy` (client-library values), `go_strings.dfy`, `transcript.dfy`, `session.dfy`, `gemini_schemas.dfy`, `main_schemas.dfy`, `gemini_tools.dfy`, `gemini_service.dfy`, `main_chat.dfy`, `dispatch_consistency.dfy`.

## Model

| member | source | states |
|---|---|---|
| `GeminiServiceModel.GeminiService.constructor` | gemini/gemini_service.go:22-32 | a new service has an empty transcript and no system instruction |
| `GeminiServiceModel.GeminiService.SetSystemInstruction` | gemini/gemini_service.go:115-119 | the instruction becomes a content with one text part; afterwards GetSystemInstruction returns exactly the text set; the transcript is untouched |
| `GeminiServiceModel.GeminiService.GetSystemInstruction` | gemini/gemini_service.go:122-127 | "" while no instruction is set |
| `GeminiServiceModel.GeminiService.Ask` | gemini/gemini_service.go:66-112 | the prompt is appended as one user text turn and that transcript is what the first request carries, with the seven tools and the system instruction; on an API error ("" , err) and only the user turn is added; with no candidate or no part the process crashes after the user turn; a text reply is appended as one model turn and returned; a function call returns "" and grows the transcript only through HandleFunctionCall; the transcript stays well formed and only grows |
| `GeminiServiceModel.GeminiService.ReadReply` | gemini/gemini_service.go:90-111 | a first part holding a function call goes to HandleFunctionCall and "" is returned; a reply without a candidate, or whose candidate has no part, panics; otherwise the first part's text is appended as one model turn and returned |
| `GeminiServiceModel.GeminiService.HandleFunctionCall` | gemini/gemini_service.go:129-215 | an unknown name changes nothing and sends nothing; each of the seven names sends its tool payload through SendFunctionResult |
| `GeminiServiceModel.GeminiService.SendFunctionResult` | gemini/gemini_service.go:217-272 | appends a model function-call turn, then a user function-response turn named fc.Name holding the result, sends that transcript (with a config only when a system instruction is set), ends the process when the request fails, and appends a model text turn only when some part of the first candidate has non-empty text, carrying the first such text |
| `GeminiServiceModel.GeminiService.Run` | gemini/gemini_service.go:36-64 | the lines asked are a prefix of those before the first "quit", all of them unless the process crashed; "quit" prints "Goodbye!" without asking; the transcript only grows |
| `GeminiServiceModel.ToolPayload` | gemini/gemini_service.go:130-214 | the payload of each of the seven tools; its contract is `DispatchConsistency.DispatchedNamesAreDeclared`, `DispatchConsistency.DispatchReadsRequiredParameter` and `DispatchConsistency.ParameterlessDispatchIgnoresArguments` |
| `GeminiServiceModel.FollowUpTurns` | gemini/gemini_service.go:252-268 | the model turn kept from the reply to a tool result: one turn with the first non-empty text, or none; its contract is `GeminiServiceModel.FirstNonEmptyTextIsFirst` and `GeminiServiceModel.FirstNonEmptyTextEmpty` |
| `Genai.ReadFirstCandidate` | gemini/gemini_service.go:95-103 | how Ask and promptGemini read Candidates[0].Content.Parts[0]: a call, a text, or one of the two panics; stated through `GeminiServiceModel.GeminiService.ReadReply` and `MainProgram.Chat.PromptGemini` |
| `GeminiServiceModel.FirstText` | gemini/gemini_service.go:254-260 | the loop returns the text of the first part with non-empty text, and "" exactly when every part's text is empty |
| `GeminiServiceModel.FirstNonEmptyTextIsFirst` | gemini/gemini_service.go:255-260 | if part k is the first with non-empty text, the kept text is part k's |
| `GeminiServiceModel.FirstNonEmptyTextEmpty` | gemini/gemini_service.go:263 | no text is kept exactly when every part's text is empty |
| `Transcript.AppendExchange` | gemini/gemini_service.go:219-235 | appending a call turn and its response turn keeps the call/response pairing of the transcript |
| `Transcript.AppendPlain` | gemini/gemini_service.go:70-73 | appending a user or model text turn keeps the transcript well formed |
| `DispatchConsistency.DispatchedNamesAreDeclared` | gemini/gemini_service.go:130-214 | HandleFunctionCall answers a name if and only if gemini/schemas.go declares it |
| `DispatchConsistency.DispatchReadsRequiredParameter` | gemini/gemini_service.go:155-210 | for find_file, analyze_image and generate_image the argument read is the declared required key: its string value is echoed under that key, and arguments that agree on it give the same payload |
| `DispatchConsistency.ParameterlessDispatchIgnoresArguments` | gemini/gemini_service.go:131-184 | get_current_time, open_youtube_music, open_github and empty_trash are dispatched without reading any argument |
| `DispatchConsistency.MainDispatchedNamesAreDeclared` | main.go:95-104 | the root dispatcher answers a name if and only if schemas.go declares it |
| `DispatchConsistency.MainDeclarationsAreGeminiDeclarations` | schemas.go:9-12 | the root package's declaration is one of the gemini package's declarations, and both dispatchers give get_current_time the same payload |
| `GeminiSchemas.GetFunctionSchemas` | gemini/schemas.go:5-70 | the seven declarations with their descriptions and parameter schemas; its contract is the `GeminiSchemas` lemmas below |
| `GeminiSchemas.OneToolSevenDistinctDeclarations` | gemini/schemas.go:5-70 | one tool holding seven declarations with pairwise distinct names |
| `GeminiSchemas.DeclaredNamesAreToolNames` | gemini/schemas.go:10-64 | the declared names are exactly the seven tool names |
| `GeminiSchemas.ParameterisedDeclarationsRequireOneKey` | gemini/schemas.go:16-60 | each declaration with parameters has an object schema whose Required list is a singleton naming its only property, a string |
| `GeminiSchemas.RequiredKeys` | gemini/schemas.go:14-60 | the required keys are "path" (analyze_image), "prompt" (generate_image) and "searchPrompt" (find_file) |
| `GeminiSchemas.ParameterlessDeclarations` | gemini/schemas.go:9-66 | exactly get_current_time, open_youtube_music, open_github and empty_trash declare no parameters |
| `MainSchemas.GetFunctionSchemas` | schemas.go:5-16 | the one get_current_time declaration; its contract is `MainSchemas.SingleDeclaration` |
| `MainSchemas.SingleDeclaration` | schemas.go:5-16 | one tool with one declaration, get_current_time, without parameters |
| `MainProgram.PrintGeminiMessage` | main.go:91-93 | the printed line is "Chap GPT: " followed by the message, which can be read back after the prefix |
| `MainProgram.MainToolPayload` | main.go:96-103 | only get_current_time is answered, with the time; its contract is `DispatchConsistency.MainDispatchedNamesAreDeclared` |
| `MainProgram.ReadFollowUp` | main.go:136-143 | sendFunctionResult's unchecked read of the follow-up's first part text: the fatal error, a missing candidate or part, or the text; stated through `MainProgram.Chat.SendFunctionResult` |
| `MainProgram.Chat.constructor` | main.go:14 | the package-level transcript starts empty |
| `MainProgram.Chat.PromptGemini` | main.go:42-89 | a client failure ends the process before anything is appended; otherwise the prompt is appended as a user turn first and is what the request carries; an API failure ends the process; a text reply is printed and appended with exactly the printed text; a handled call appends the call and response turns and sends them; a follow-up that fails or has no part ends the process with exactly those three turns added and nothing printed; otherwise the follow-up's first part text is appended and printed, 4 turns in all |
| `MainProgram.Chat.HandleFunctionCall` | main.go:95-104 | only get_current_time is dispatched, with the time as payload; any other name leaves the transcript unchanged |
| `MainProgram.Chat.SendFunctionResult` | main.go:111-144 | appends the call turn and a response turn named fc.Name, sends that transcript with no config, and then appends the first part's text unconditionally (crashing when there is none), printing it |
| `MainProgram.Chat.Run` | main.go:16-40 | greets first; the lines prompted are those before the first "quit" (a prefix of them after a crash); "quit" prints "Goodbye!" and prompts nothing |
| `Session.BeforeQuitAt` | main.go:24-32 | when no earlier line is "quit" and line i is (or input ends), exactly the first i lines are handed on |
| `Session.BeforeQuitKeeps` | gemini/gemini_service.go:44-54 | every line read before a "quit" is handed on |
| `Session.BeforeQuitIsPrefix` | gemini/gemini_service.go:48-52 | the lines handed on are a prefix of the input without "quit", cut just before the first "quit" |
| `GeminiTools.MimeTypeForExt` | gemini/tools.go:31-40 | the type is one of the three known image types or "image/jpeg", and a known type exactly when the lower-cased extension is ".png", ".gif" or ".webp" |
| `GeminiTools.ExtForMimeType` | gemini/tools.go:148-156 | the saved extension is a proper extension (a dot, then no '.' or '/'), and it is ".jpg" exactly when the type is not one of the three known image types |
| `GeminiTools.MimeTypeTable` | gemini/tools.go:31-40 | ".png", ".gif", ".webp" map to their image types (".PNG" and ".G\u0130F" too); any other extension maps to "image/jpeg" |
| `GeminiTools.MimeTypeForPathCaseInsensitive` | gemini/tools.go:32 | two paths equal up to case get the same MIME type |
| `GeminiTools.MimeTypeRoundTrip` | gemini/tools.go:149-156 | for png, gif and webp, extension-to-MIME after MIME-to-extension gives the type back; any other type becomes ".jpg", read back as "image/jpeg" |
| `GeminiTools.ExtRoundTrip` | gemini/tools.go:31-40 | MIME-to-extension after extension-to-MIME gives the lower-cased extension, or ".jpg" for an unknown one |
| `GeminiTools.GeneratedImagePath` | gemini/tools.go:159-160 | the output path is "generated_images/generated_" + the decimal Unix seconds + the extension |
| `GeminiTools.GeneratedImagePathExt` | gemini/tools.go:149-160 | filepath.Ext of a generated path is the extension it was generated with |
| `GeminiTools.GeneratedImageMimeRoundTrip` | gemini/tools.go:149-160 | a generated image read back by analyzeImage's switch gets the MIME type the API reported (JPEG when it has no extension of its own) |
| `GeminiTools.GeneratedImagePathInjective` | gemini/tools.go:159-160 | different seconds or different extensions give different paths |
| `GeminiTools.AnalyzeImage` | gemini/tools.go:23-78 | analyzeImage's steps and error messages in order; its contract is `GeminiTools.AnalyzeImageOutcome` |
| `GeminiTools.AnalyzeImageOutcome` | gemini/tools.go:23-78 | a request is sent exactly when the file was read and the client made, and it carries the file's bytes under the MIME type of the path's extension; a read failure gives the read-error message; a reply with a part gives its first part's text; nothing is written |
| `GeminiTools.FirstInlineData` | gemini/tools.go:125-134 | the loop takes the data and MIME type of the first part whose InlineData is set, and none and "" when no part has any |
| `GeminiTools.FirstInlineBlobIsFirst` | gemini/tools.go:126-133 | if part k is the first with inline data, its blob is the one taken |
| `GeminiTools.FirstInlineBlobNone` | gemini/tools.go:126-133 | no blob is taken exactly when no part has inline data |
| `GeminiTools.GenerateImageRun` | gemini/tools.go:82-169 | generateImage as a function of its inputs; the loop is `GeminiTools.GenerateImage`, and its contract is `GeminiTools.GenerateImageSavesFirstInlineData` and `GeminiTools.GenerateImageWithoutInlineData` |
| `GeminiTools.GenerateImage` | gemini/tools.go:82-169 | the method follows generateImage's steps and error messages in order: client, request, reply, first inline data, directory, file name, write |
| `GeminiTools.GenerateImageSavesFirstInlineData` | gemini/tools.go:121-168 | with first inline data at part k of the first candidate: empty data gives the no-image message and no write; a directory failure gives "Error creating output directory: " with its error and no write; otherwise exactly that data is written to the generated path, which is returned exactly when the write succeeds |
| `GeminiTools.GenerateImageWithoutInlineData` | gemini/tools.go:136-139 | a reply with no candidate, or whose first candidate has no inline part, gives the fixed no-image message and writes nothing |
| `GeminiTools.FindFile` | gemini/tools.go:186-195 | findFile's answer for the captured output; its contract is `GeminiTools.FindFileAnswers` |
| `GeminiTools.FindFileAnswers` | gemini/tools.go:186-195 | the error message exactly when the command failed; "No match found." exactly when the output is all white space; otherwise "Found: " + the trimmed output, which is non-empty and has no surrounding white space |
| `GeminiTools.TrashError` | gemini/tools.go:199-208 | the only two errors emptyTrash returns, with their messages; stated through `GeminiTools.EmptyTrash` |
| `GeminiTools.EmptyTrash` | gemini/tools.go:198-220 | an error is returned if and only if the home directory or the trash listing fails, with their messages; otherwise every entry's path under home/.Trash is removed in listing order, and the failures are only reported |
| `GoStrings.ToLower` | gemini/tools.go:32 | strings.ToLower, one character at a time; stated through `GoStrings.ExtOfLower` and `GeminiTools.MimeTypeTable` |
| `GoStrings.Ext` | gemini/tools.go:32 | filepath.Ext: the result is a suffix of the path, no longer than it; see also `GoStrings.ExtOfAppend` |
| `GoStrings.ExtOfLower` | gemini/tools.go:32 | filepath.Ext commutes with ToLower |
| `GoStrings.ExtOfAppend` | gemini/tools.go:159-160 | a path ending in a dot followed by no dot or slash has that suffix as its extension |
| `GoStrings.TrimSpace` | gemini/tools.go:190 | strings.TrimSpace; its contract is `GoStrings.TrimSpaceSlice` and `GoStrings.TrimSpaceEmpty` |
| `GoStrings.Join` | gemini/tools.go:160 | filepath.Join of two non-empty elements is them separated by '/' |
| `GoStrings.TrimSpaceSlice` | gemini/tools.go:190 | TrimSpace keeps the stretch between leading and trailing white space: what is cut is all white space, and what is kept neither starts nor ends with it |
| `GoStrings.TrimSpaceEmpty` | gemini/tools.go:190-191 | TrimSpace gives "" exactly when the text is all white space |
| `GoStrings.FormatInt` | gemini/tools.go:159 | the `%d` form of an integer; its contract is `GoStrings.DecimalRoundTrip` and `GoStrings.FormatIntInjective` |
| `GoStrings.DecimalRoundTrip` | gemini/tools.go:159 | reading back the printed digits of a number gives the number |
| `GoStrings.FormatIntInjective` | gemini/tools.go:159 | distinct integers print differently under `%d` |

## Left out

- The `genai` client itself: the remote model's behaviour is not modelled. Every reply, and every failure to create a client, is an input to the operation that receives it.
- `GeminiServiceModel.GeminiService.constructor`: models `NewService` only when the client was created. The `nil, err` return when `genai.NewClient` fails is not modelled, because the service then does not exist.
- Console I/O: the "User: " prompts, the scanner, `fmt.Println("Unknown function:", ...)` and `log.Println`/`log.Printf` are not recorded. The `said` results record only what is passed to `printGeminiMessage`. A scanner that stops early is the end of the input lines.
- Functions that the shown files call but do not define are opaque and have no effect in the model: `greetUser`, `openGithub` and the gemini package's `printGeminiMessage`. So `GeminiService.Run` does not model the greeting.
- Processes: the `open -a Safari` launch of `openYoutubeMusic` and the `find | grep | head` pipeline of `findFile` are not modelled. Only `findFile`'s formatting of the captured output is modelled. A failed `cmd.Run` is `None`.
- Filesystem effects: `ReadFile`, `MkdirAll`, `WriteFile`, `ReadDir`, `RemoveAll` and `UserHomeDir` are modelled only through their outcomes, which are inputs. `emptyTrash`'s removals are the list of paths it removes.
- Time: `getCurrentEST`'s America/New_York formatting is an input string, and `time.Now().Unix()` is an input integer. Its int64 range is not enforced.
- `GoStrings.ToLower`: lower-cases the ASCII capitals and the two other characters that `unicode.ToLower` maps into ASCII: U+0130 becomes 'i', and the Kelvin sign U+212A becomes 'k'. So ".G\u0130F" gets "image/gif", as in Go. Every other non-ASCII character is kept as it is, where Go maps a capital to another non-ASCII letter. The lower-cased string can therefore differ from Go's, but no comparison in the switch can tell.
- `GoStrings.Join`: does not apply filepath.Clean. Paths whose elements end or begin with '/' or hold ".." are not normalised. The generated-image path is unaffected.
- `filepath.Ext` and `TrimSpace` work on Dafny characters where Go works on UTF-8 bytes and runes. The characters they test ('.', '/', White_Space) read the same either way.
- Payloads: the values of `map[string]any` are only strings and booleans. Function-call argument values are either a string or anything else. Image bytes are carried, not interpreted.
- A candidate whose `Content` is nil is not represented: every candidate has a content.
- The process ends on a crash. The transcript stated after a crash is the one at the moment of the crash.
- `GeminiServiceModel.GeminiService.HandleFunctionCall`: does not return the tools' own GenerateContent requests or the image file `generateImage` writes. Their contents are stated about `GeminiTools.AnalyzeImage` and `GeminiTools.GenerateImageRun` instead (`GeminiTools.AnalyzeImageOutcome`, `GeminiTools.GenerateImageSavesFirstInlineData`).

