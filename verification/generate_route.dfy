/**
  The generation route (`POST /api/generate`). It reads the form, checks that
  a file and options were sent, extracts the PDF's text, uploads it to the
  model provider, creates an assistant, posts the prompt on a new thread,
  runs it, reads the assistant's reply, strips its code fences and parses it
  as JSON. Any failure becomes a 500 response with the error's message; an
  assistant that was created is deleted on the way out, whatever happened.

  The provider's client is outside the model: each remote call's settled
  result is given in a `Service` value, and the calls the handler makes are
  recorded, in order, as `Call`s.
 */
module GenerateRoute {
  import opened JsValues
  import opened QuestionOptions
  import opened Prompt
  import opened PdfText
  import opened Fences

  /** The uploaded file: its name and what the PDF reader reports on its bytes. */
  datatype UploadedFile = UploadedFile(name: string, reading: seq<ReaderEvent>)

  /** The fields of the multipart form: `file`, `options` and `focusArea`. */
  datatype FormFields = FormFields(file: Option<UploadedFile>, options: Option<string>, focusArea: Option<string>)

  datatype Content = TextContent(value: string) | OtherContent
  datatype Message = Message(role: string, content: seq<Content>)

  /** How each remote call settles, for one request. */
  datatype Service = Service(
    uploadFile: Outcome<string>,          // the uploaded file's id
    createAssistant: Outcome<string>,     // the assistant's id
    createThread: Outcome<string>,        // the thread's id
    postMessage: Outcome<()>,
    runAndPoll: Outcome<string>,          // the run's final status
    listMessages: Outcome<seq<Message>>,  // the thread's messages, newest first
    // How the deletion settles; the handler swallows it (`.catch`), so no
    // part of the reply or of the trace ever reads this outcome.
    deleteAssistant: Outcome<()>)

  /** A remote call, with the arguments the handler passes to it. */
  datatype Call =
    | UploadFile(fileName: string, text: string)
    | CreateAssistant
    | CreateThread
    | PostMessage(threadId: string, prompt: string, fileId: string)
    | RunAndPoll(threadId: string, assistantId: string)
    | ListMessages(threadId: string)
    | DeleteAssistant(assistantId: string)

  datatype Body = Failure(error: string) | Payload(json: Json)
  datatype Response = Response(status: int, body: Body)

  /** A request either gets a response or, when the PDF reader never settles, waits for ever. */
  datatype Reply = Sent(response: Response) | NeverSent

  /** How the `try` block ends: with a response, with a thrown value, or never. */
  datatype Step = Done(response: Response) | Raised(thrown: Thrown) | Stuck

  /** The `try` block's ending, the calls it made and the value `assistantId` holds after it. */
  datatype Attempted = Attempted(step: Step, calls: seq<Call>, assistantId: Option<string>)

  const MissingInput := "Missing file or options"
  const NoValidResponse := "No valid response from assistant."
  const RunEndedPrefix := "Run ended with status: "
  /** What reading `.type` of the first element of an empty `content` array throws. */
  const NoContentTypeError := "Cannot read properties of undefined (reading 'type')"

  /** Builds the prompt from the options, the file name and the focus area. */
  type PromptBuilder = (Config, string, string) -> string

  /** The name the extracted text is uploaded under. */
  function UploadName(fileName: string): string
  {
    "source-for-" + fileName + ".txt"
  }

  /** `focusArea || ''` */
  function FocusOrEmpty(focusArea: Option<string>): string
  {
    if Truthy(focusArea) then focusArea.value else ""
  }

  /** `messages.data.find(m => m.role === 'assistant')` */
  function FindAssistant(messages: seq<Message>): Option<Message>
  {
    if |messages| == 0 then None
    else if messages[0].role == "assistant" then Some(messages[0])
    else FindAssistant(messages[1..])
  }

  /** The reply read from the listed messages: the assistant's first text, fences stripped, parsed. */
  function ReadReply(messages: seq<Message>, parseJson: string -> Outcome<Json>): Step
  {
    match FindAssistant(messages)
    case None => Raised(ErrorInstance(NoValidResponse))
    case Some(m) =>
      if |m.content| == 0 then Raised(ErrorInstance(NoContentTypeError))
      else match m.content[0]
        case OtherContent => Raised(ErrorInstance(NoValidResponse))
        case TextContent(raw) =>
          match parseJson(StripFences(raw))
          case Returns(json) => Done(Response(200, Payload(json)))
          case Throws(t) => Raised(t)
  }

  /** From the thread's creation to the reply, once the file is uploaded and the assistant exists. */
  function Conversation(service: Service, fileId: string, assistantId: string, prompt: string,
                        parseJson: string -> Outcome<Json>): (Step, seq<Call>)
  {
    match service.createThread
    case Throws(t) => (Raised(t), [CreateThread])
    case Returns(threadId) =>
      var posted := [CreateThread, PostMessage(threadId, prompt, fileId)];
      match service.postMessage
      case Throws(t) => (Raised(t), posted)
      case Returns(_) =>
        var ran := posted + [RunAndPoll(threadId, assistantId)];
        match service.runAndPoll
        case Throws(t) => (Raised(t), ran)
        case Returns(status) =>
          if status != "completed" then (Raised(ErrorInstance(RunEndedPrefix + status)), ran)
          else
            var listed := ran + [ListMessages(threadId)];
            match service.listMessages
            case Throws(t) => (Raised(t), listed)
            case Returns(messages) => (ReadReply(messages, parseJson), listed)
  }

  /** The remote part of the `try` block, once the PDF's text is known. */
  function Remote(service: Service, options: Config, file: UploadedFile, focusArea: string, text: string,
                  buildPrompt: PromptBuilder, parseJson: string -> Outcome<Json>): Attempted
  {
    var uploaded := [UploadFile(UploadName(file.name), text)];
    match service.uploadFile
    case Throws(t) => Attempted(Raised(t), uploaded, None)
    case Returns(fileId) =>
      var created := uploaded + [CreateAssistant];
      match service.createAssistant
      case Throws(t) => Attempted(Raised(t), created, None)
      case Returns(assistantId) =>
        var prompt := buildPrompt(options, file.name, focusArea);
        var rest := Conversation(service, fileId, assistantId, prompt, parseJson);
        Attempted(rest.0, created + rest.1, Some(assistantId))
  }

  /** The `try` block. */
  function Attempt(form: Outcome<FormFields>, service: Service, parseOptions: string -> Outcome<Config>,
                   buildPrompt: PromptBuilder, parseJson: string -> Outcome<Json>): Attempted
  {
    match form
    case Throws(t) => Attempted(Raised(t), [], None)
    case Returns(fields) =>
      if fields.file.None? || !Truthy(fields.options) then
        Attempted(Done(Response(400, Failure(MissingInput))), [], None)
      else match parseOptions(fields.options.value)
        case Throws(t) => Attempted(Raised(t), [], None)
        case Returns(options) =>
          match Settle(fields.file.value.reading)
          case Pending => Attempted(Stuck, [], None)
          case Rejected(t) => Attempted(Raised(t), [], None)
          case Resolved(text) =>
            Remote(service, options, fields.file.value, FocusOrEmpty(fields.focusArea), text, buildPrompt, parseJson)
  }

  /** The `catch` turning a thrown value into a 500 response, then the `finally` cleanup. */
  function Finish(attempt: Attempted): (Reply, seq<Call>)
  {
    match attempt.step
    case Stuck => (NeverSent, attempt.calls)
    case Done(response) => (Sent(response), attempt.calls + Cleanup(attempt.assistantId))
    case Raised(t) => (Sent(Response(500, Failure(CaughtMessage(t)))), attempt.calls + Cleanup(attempt.assistantId))
  }

  /**
    The whole handler: what it replies and the remote calls it makes. The
    route builds its prompt with `ConstructPrompt`; the properties below hold
    for any prompt builder.
   */
  function Handle(form: Outcome<FormFields>, service: Service, parseOptions: string -> Outcome<Config>,
                  buildPrompt: PromptBuilder, parseJson: string -> Outcome<Json>): (Reply, seq<Call>)
  {
    Finish(Attempt(form, service, parseOptions, buildPrompt, parseJson))
  }

  /** `if (assistantId) await openai.beta.assistants.delete(assistantId).catch(...)` */
  function Cleanup(assistantId: Option<string>): seq<Call>
  {
    if Truthy(assistantId) then [DeleteAssistant(assistantId.value)] else []
  }

  // ----- The handler, step by step -----

  /** From the thread's creation on; `calls` records each remote call as it is made. */
  method Converse(service: Service, fileId: string, assistantId: string, prompt: string,
                  parseJson: string -> Outcome<Json>)
    returns (step: Step, calls: seq<Call>)
    ensures (step, calls) == Conversation(service, fileId, assistantId, prompt, parseJson)
  {
    calls := [CreateThread];
    if service.createThread.Throws? {
      return Raised(service.createThread.thrown), calls;
    }
    var threadId := service.createThread.value;

    calls := [CreateThread, PostMessage(threadId, prompt, fileId)];
    if service.postMessage.Throws? {
      return Raised(service.postMessage.thrown), calls;
    }

    calls := calls + [RunAndPoll(threadId, assistantId)];
    if service.runAndPoll.Throws? {
      return Raised(service.runAndPoll.thrown), calls;
    }
    var status := service.runAndPoll.value;
    if status != "completed" {
      return Raised(ErrorInstance(RunEndedPrefix + status)), calls;
    }

    calls := calls + [ListMessages(threadId)];
    if service.listMessages.Throws? {
      return Raised(service.listMessages.thrown), calls;
    }
    step := ReadReply(service.listMessages.value, parseJson);
  }

  /** Upload, assistant, then the conversation, once the PDF's text is known. */
  method CallRemote(service: Service, options: Config, file: UploadedFile, focusArea: string, text: string,
                    parseJson: string -> Outcome<Json>)
    returns (step: Step, calls: seq<Call>, assistantId: Option<string>)
    ensures Attempted(step, calls, assistantId) == Remote(service, options, file, focusArea, text, ConstructPrompt, parseJson)
  {
    assistantId := None;
    calls := [UploadFile(UploadName(file.name), text)];
    if service.uploadFile.Throws? {
      return Raised(service.uploadFile.thrown), calls, assistantId;
    }
    var fileId := service.uploadFile.value;

    calls := calls + [CreateAssistant];
    if service.createAssistant.Throws? {
      return Raised(service.createAssistant.thrown), calls, assistantId;
    }
    assistantId := Some(service.createAssistant.value);
    var prompt := ConstructPrompt(options, file.name, focusArea);

    var conversed;
    step, conversed := Converse(service, fileId, assistantId.value, prompt, parseJson);
    calls := calls + conversed;
  }

  /** The `try` block, run in order; `calls` records each remote call as it is made. */
  method TryBlock(form: Outcome<FormFields>, service: Service, parseOptions: string -> Outcome<Config>,
                  parseJson: string -> Outcome<Json>)
    returns (step: Step, calls: seq<Call>, assistantId: Option<string>)
    ensures Attempted(step, calls, assistantId) == Attempt(form, service, parseOptions, ConstructPrompt, parseJson)
  {
    calls := [];
    assistantId := None;
    if form.Throws? {
      return Raised(form.thrown), calls, assistantId;
    }
    var fields := form.value;
    if fields.file.None? || !Truthy(fields.options) {
      return Done(Response(400, Failure(MissingInput))), calls, assistantId;
    }
    var parsed := parseOptions(fields.options.value);
    if parsed.Throws? {
      return Raised(parsed.thrown), calls, assistantId;
    }
    var file := fields.file.value;
    var extracted := GetPdfText(file.reading);
    if extracted.Pending? {
      return Stuck, calls, assistantId;
    } else if extracted.Rejected? {
      return Raised(extracted.reason), calls, assistantId;
    }
    step, calls, assistantId :=
      CallRemote(service, parsed.value, file, FocusOrEmpty(fields.focusArea), extracted.text, parseJson);
  }

  /** `POST`: the `try` block, then `catch` and `finally`. */
  method HandlePost(form: Outcome<FormFields>, service: Service, parseOptions: string -> Outcome<Config>,
                    parseJson: string -> Outcome<Json>)
    returns (reply: Reply, calls: seq<Call>)
    ensures (reply, calls) == Handle(form, service, parseOptions, ConstructPrompt, parseJson)
  {
    var step, assistantId;
    step, calls, assistantId := TryBlock(form, service, parseOptions, parseJson);
    ghost var attempt := Attempted(step, calls, assistantId);
    assert Handle(form, service, parseOptions, ConstructPrompt, parseJson) == Finish(attempt);
    if step.Stuck? {
      return NeverSent, calls;
    }
    if step.Done? {
      reply := Sent(step.response);
    } else {
      reply := Sent(Response(500, Failure(CaughtMessage(step.thrown))));
    }
    if Truthy(assistantId) {
      calls := calls + [DeleteAssistant(assistantId.value)];
      // The deletion's own failure is caught and only logged.
    } else {
      assert calls + Cleanup(assistantId) == calls;
    }
  }
}

module GenerateRouteProperties {
  import opened JsValues
  import opened QuestionOptions
  import opened PdfText
  import opened Fences
  import opened GenerateRoute

  // ----- The remote protocol -----

  /** The id an awaited call returned, or "" when it threw. */
  function IdOf(o: Outcome<string>): string
  {
    if o.Returns? then o.value else ""
  }

  /** The calls of a successful conversation, from the thread's creation on. */
  function ConversationProtocol(service: Service, fileId: string, assistantId: string, prompt: string): seq<Call>
  {
    var threadId := IdOf(service.createThread);
    [CreateThread, PostMessage(threadId, prompt, fileId), RunAndPoll(threadId, assistantId), ListMessages(threadId)]
  }

  /** Every remote call of a successful request, in the order the handler makes them. */
  function Protocol(service: Service, file: UploadedFile, text: string, prompt: string): seq<Call>
  {
    [UploadFile(UploadName(file.name), text), CreateAssistant] +
    ConversationProtocol(service, IdOf(service.uploadFile), IdOf(service.createAssistant), prompt)
  }

  /** Whether the handler goes on after the call `c`. */
  predicate Proceeds(service: Service, c: Call)
  {
    match c
    case UploadFile(_, _) => service.uploadFile.Returns?
    case CreateAssistant => service.createAssistant.Returns?
    case CreateThread => service.createThread.Returns?
    case PostMessage(_, _, _) => service.postMessage.Returns?
    case RunAndPoll(_, _) => service.runAndPoll == Returns("completed")
    case ListMessages(_) => service.listMessages.Returns?
    case DeleteAssistant(_) => true
  }

  /** `calls` is the start of `full`, every call but the last went through, and the last failed unless `full` is done. */
  predicate StopsAtFirstFailure(service: Service, calls: seq<Call>, full: seq<Call>)
  {
    1 <= |calls| <= |full| && calls == full[..|calls|] &&
    (forall i :: 0 <= i < |calls| - 1 ==> Proceeds(service, calls[i])) &&
    (|calls| < |full| ==> !Proceeds(service, calls[|calls| - 1]))
  }

  /** Calls that all went through, followed by calls that stop at the first failure, stop at the first failure. */
  lemma StopsAfterPrefix(service: Service, done: seq<Call>, calls: seq<Call>, full: seq<Call>)
    requires forall i :: 0 <= i < |done| ==> Proceeds(service, done[i])
    requires StopsAtFirstFailure(service, calls, full)
    ensures StopsAtFirstFailure(service, done + calls, done + full)
  {
    var c := done + calls;
    assert (done + full)[..|c|] == done + full[..|calls|];
    forall i | 0 <= i < |c| - 1 ensures Proceeds(service, c[i]) {
      if i >= |done| {
        assert c[i] == calls[i - |done|];
      }
    }
    assert c[|c| - 1] == calls[|calls| - 1];
  }

  /** The conversation makes its calls in order and stops right after the first one that fails. */
  lemma ConversationStops(service: Service, fileId: string, assistantId: string, prompt: string,
                          parseJson: string -> Outcome<Json>)
    ensures StopsAtFirstFailure(service, Conversation(service, fileId, assistantId, prompt, parseJson).1,
                                ConversationProtocol(service, fileId, assistantId, prompt))
  {
  }

  /**
    Once the text is extracted, the handler makes the protocol's calls in
    order and stops right after the first one that fails.
   */
  lemma RemoteFollowsProtocol(service: Service, options: Config, file: UploadedFile, focusArea: string,
                              text: string, buildPrompt: PromptBuilder, parseJson: string -> Outcome<Json>)
    ensures StopsAtFirstFailure(service, Remote(service, options, file, focusArea, text, buildPrompt, parseJson).calls,
                                Protocol(service, file, text, buildPrompt(options, file.name, focusArea)))
  {
    var prompt := buildPrompt(options, file.name, focusArea);
    var uploaded := [UploadFile(UploadName(file.name), text)];
    var full := Protocol(service, file, text, prompt);
    if service.uploadFile.Returns? && service.createAssistant.Returns? {
      var conv := Conversation(service, service.uploadFile.value, service.createAssistant.value, prompt, parseJson);
      ConversationStops(service, service.uploadFile.value, service.createAssistant.value, prompt, parseJson);
      StopsAfterPrefix(service, uploaded + [CreateAssistant], conv.1,
                       ConversationProtocol(service, IdOf(service.uploadFile), IdOf(service.createAssistant), prompt));
    } else if service.uploadFile.Returns? {
      assert full[..2] == uploaded + [CreateAssistant];
    } else {
      assert full[..1] == uploaded;
    }
  }

  // ----- Facts about the remote part -----

  /** The remote part never stalls, and the only response it builds is a 200 with the parsed JSON. */
  lemma RemoteResponds(service: Service, options: Config, file: UploadedFile, focusArea: string,
                       text: string, buildPrompt: PromptBuilder, parseJson: string -> Outcome<Json>)
    ensures var a := Remote(service, options, file, focusArea, text, buildPrompt, parseJson);
            !a.step.Stuck? && (a.step.Done? ==> a.step.response.status == 200 && a.step.response.body.Payload?)
  {
  }

  /** `assistantId` is set exactly when the assistant was created, and to its id; nothing is deleted in the `try` block. */
  lemma {:induction false} AssistantRecorded(form: Outcome<FormFields>, service: Service, parseOptions: string -> Outcome<Config>,
                                             buildPrompt: PromptBuilder, parseJson: string -> Outcome<Json>)
    ensures var a := Attempt(form, service, parseOptions, buildPrompt, parseJson);
            (a.assistantId.Some? <==> CreateAssistant in a.calls && service.createAssistant.Returns?) &&
            (a.assistantId.Some? ==> a.assistantId.value == service.createAssistant.value) &&
            (forall i :: 0 <= i < |a.calls| ==> !a.calls[i].DeleteAssistant?) &&
            (a.step.Stuck? ==> a.calls == [])
  {
    var a := Attempt(form, service, parseOptions, buildPrompt, parseJson);
    if |a.calls| > 0 {
      var fields := form.value;
      var options := parseOptions(fields.options.value).value;
      var file := fields.file.value;
      var focusArea := FocusOrEmpty(fields.focusArea);
      var text := Settle(file.reading).text;
      RemoteFollowsProtocol(service, options, file, focusArea, text, buildPrompt, parseJson);
      RemoteResponds(service, options, file, focusArea, text, buildPrompt, parseJson);
      var full := Protocol(service, file, text, buildPrompt(options, file.name, focusArea));
      assert a.calls == full[..|a.calls|];
      forall i | 0 <= i < |a.calls| ensures !a.calls[i].DeleteAssistant? && (a.calls[i] == CreateAssistant ==> i == 1) {
        assert a.calls[i] == full[i];
      }
      if |a.calls| >= 2 {
        assert a.calls[1] == CreateAssistant;
      }
    }
  }

  // ----- The handler's properties -----

  /**
    A missing file or empty options get a 400 "Missing file or options" and
    no remote call; no other request gets a 400.
   */
  lemma BadRequestExactlyWhenMissing(form: Outcome<FormFields>, service: Service, parseOptions: string -> Outcome<Config>,
                                     buildPrompt: PromptBuilder, parseJson: string -> Outcome<Json>)
    ensures var reply := Handle(form, service, parseOptions, buildPrompt, parseJson).0;
            (reply.Sent? && reply.response.status == 400) <==>
            (form.Returns? && (form.value.file.None? || !Truthy(form.value.options)))
    ensures form.Returns? && (form.value.file.None? || !Truthy(form.value.options)) ==>
            Handle(form, service, parseOptions, buildPrompt, parseJson) == (Sent(Response(400, Failure(MissingInput))), [])
  {
    if form.Returns? && form.value.file.Some? && Truthy(form.value.options) && parseOptions(form.value.options.value).Returns? &&
       Settle(form.value.file.value.reading).Resolved? {
      var fields := form.value;
      var text := Settle(fields.file.value.reading).text;
      RemoteResponds(service, parseOptions(fields.options.value).value, fields.file.value, FocusOrEmpty(fields.focusArea),
                     text, buildPrompt, parseJson);
    } else if form.Returns? && (form.value.file.None? || !Truthy(form.value.options)) {
      assert Attempt(form, service, parseOptions, buildPrompt, parseJson) == Attempted(Done(Response(400, Failure(MissingInput))), [], None);
      assert [] + Cleanup(None) == [];
    }
  }

  /** Every response is a 200 carrying the parsed JSON, a 400 or a 500, and only a 200 carries JSON. */
  lemma OnlyThreeStatuses(form: Outcome<FormFields>, service: Service, parseOptions: string -> Outcome<Config>,
                          buildPrompt: PromptBuilder, parseJson: string -> Outcome<Json>)
    ensures var reply := Handle(form, service, parseOptions, buildPrompt, parseJson).0;
            reply.Sent? ==> reply.response.status in {200, 400, 500} &&
                            (reply.response.status == 200 <==> reply.response.body.Payload?)
  {
    if form.Returns? && form.value.file.Some? && Truthy(form.value.options) && parseOptions(form.value.options.value).Returns? &&
       Settle(form.value.file.value.reading).Resolved? {
      var fields := form.value;
      var text := Settle(fields.file.value.reading).text;
      RemoteResponds(service, parseOptions(fields.options.value).value, fields.file.value, FocusOrEmpty(fields.focusArea),
                     text, buildPrompt, parseJson);
    }
  }

  /**
    The request never gets an answer exactly when the PDF reader neither
    finishes nor fails; nothing remote has happened then, so nothing is
    cleaned up.
   */
  lemma StallsOnlyOnUnsettledReader(form: Outcome<FormFields>, service: Service, parseOptions: string -> Outcome<Config>,
                                    buildPrompt: PromptBuilder, parseJson: string -> Outcome<Json>)
    ensures var (reply, calls) := Handle(form, service, parseOptions, buildPrompt, parseJson);
            (reply.NeverSent? <==>
              form.Returns? && form.value.file.Some? && Truthy(form.value.options) &&
              parseOptions(form.value.options.value).Returns? && Settle(form.value.file.value.reading).Pending?) &&
            (reply.NeverSent? ==> calls == [])
  {
    if form.Returns? && form.value.file.Some? && Truthy(form.value.options) && parseOptions(form.value.options.value).Returns? &&
       Settle(form.value.file.value.reading).Resolved? {
      var fields := form.value;
      var text := Settle(fields.file.value.reading).text;
      RemoteResponds(service, parseOptions(fields.options.value).value, fields.file.value, FocusOrEmpty(fields.focusArea),
                     text, buildPrompt, parseJson);
    }
  }

  /**
    No remote call happens before the text is extracted, and the first one
    uploads that text as "source-for-<name>.txt".
   */
  lemma UploadsExtractedText(form: Outcome<FormFields>, service: Service, parseOptions: string -> Outcome<Config>,
                             buildPrompt: PromptBuilder, parseJson: string -> Outcome<Json>)
    ensures var calls := Handle(form, service, parseOptions, buildPrompt, parseJson).1;
            |calls| > 0 ==>
              form.Returns? && form.value.file.Some? && Truthy(form.value.options) &&
              parseOptions(form.value.options.value).Returns? &&
              Settle(form.value.file.value.reading).Resolved? &&
              calls[0] == UploadFile(UploadName(form.value.file.value.name), Settle(form.value.file.value.reading).text)
  {
    var a := Attempt(form, service, parseOptions, buildPrompt, parseJson);
    if |a.calls| > 0 {
      var fields := form.value;
      var options := parseOptions(fields.options.value).value;
      var file := fields.file.value;
      var focusArea := FocusOrEmpty(fields.focusArea);
      var text := Settle(file.reading).text;
      RemoteFollowsProtocol(service, options, file, focusArea, text, buildPrompt, parseJson);
    }
  }

  /**
    The assistant is deleted exactly when it was created with a truthy id,
    once, as the last call, and only when a response is sent.
   */
  lemma CleanupExactlyOnce(form: Outcome<FormFields>, service: Service, parseOptions: string -> Outcome<Config>,
                           buildPrompt: PromptBuilder, parseJson: string -> Outcome<Json>, id: string)
    ensures var (reply, calls) := Handle(form, service, parseOptions, buildPrompt, parseJson);
            (reply.Sent? ==>
              (DeleteAssistant(id) in calls <==>
                CreateAssistant in calls && service.createAssistant == Returns(id) && id != "")) &&
            (reply.NeverSent? ==> calls == []) &&
            (forall i :: 0 <= i < |calls| && calls[i].DeleteAssistant? ==> i == |calls| - 1)
  {
    var a := Attempt(form, service, parseOptions, buildPrompt, parseJson);
    AssistantRecorded(form, service, parseOptions, buildPrompt, parseJson);
    var calls := Handle(form, service, parseOptions, buildPrompt, parseJson).1;
    if !a.step.Stuck? {
      assert calls == a.calls + Cleanup(a.assistantId);
      if CreateAssistant in calls {
        var i :| 0 <= i < |calls| && calls[i] == CreateAssistant;
        if i >= |a.calls| {
          assert calls[i] in Cleanup(a.assistantId);
        }
        assert CreateAssistant in a.calls;
      }
    }
  }

  /** How the deletion of the assistant settles changes neither the response nor the calls. */
  lemma DeleteOutcomeIgnored(form: Outcome<FormFields>, service: Service, parseOptions: string -> Outcome<Config>,
                             buildPrompt: PromptBuilder, parseJson: string -> Outcome<Json>, deleted: Outcome<()>)
    ensures Handle(form, service.(deleteAssistant := deleted), parseOptions, buildPrompt, parseJson) ==
            Handle(form, service, parseOptions, buildPrompt, parseJson)
  {
  }

  /** A run that ends in any status but "completed" gets a 500 naming that status, and the messages are never listed. */
  lemma UnfinishedRunReported(form: Outcome<FormFields>, service: Service, parseOptions: string -> Outcome<Config>,
                              buildPrompt: PromptBuilder, parseJson: string -> Outcome<Json>, threadId: string, assistantId: string)
    requires RunAndPoll(threadId, assistantId) in Handle(form, service, parseOptions, buildPrompt, parseJson).1
    requires service.runAndPoll.Returns? && service.runAndPoll.value != "completed"
    ensures Handle(form, service, parseOptions, buildPrompt, parseJson).0 ==
            Sent(Response(500, Failure(RunEndedPrefix + service.runAndPoll.value)))
    ensures forall c | c in Handle(form, service, parseOptions, buildPrompt, parseJson).1 :: !c.ListMessages?
  {
    var a := Attempt(form, service, parseOptions, buildPrompt, parseJson);
    AssistantRecorded(form, service, parseOptions, buildPrompt, parseJson);
    var fields := form.value;
    var options := parseOptions(fields.options.value).value;
    var file := fields.file.value;
    var focusArea := FocusOrEmpty(fields.focusArea);
    var text := Settle(file.reading).text;
    RemoteFollowsProtocol(service, options, file, focusArea, text, buildPrompt, parseJson);
  }

  /** A posted message carries the prompt built from the parsed options, the file's name and the focus area (or ""). */
  lemma PromptPosted(form: Outcome<FormFields>, service: Service, parseOptions: string -> Outcome<Config>,
                     buildPrompt: PromptBuilder, parseJson: string -> Outcome<Json>,
                     threadId: string, prompt: string, fileId: string)
    requires PostMessage(threadId, prompt, fileId) in Handle(form, service, parseOptions, buildPrompt, parseJson).1
    ensures form.Returns? && form.value.file.Some? && Truthy(form.value.options) &&
            parseOptions(form.value.options.value).Returns?
    ensures prompt == buildPrompt(parseOptions(form.value.options.value).value, form.value.file.value.name,
                                  FocusOrEmpty(form.value.focusArea))
    ensures service.uploadFile == Returns(fileId) && service.createThread == Returns(threadId)
  {
    var a := Attempt(form, service, parseOptions, buildPrompt, parseJson);
    AssistantRecorded(form, service, parseOptions, buildPrompt, parseJson);
    var fields := form.value;
    var options := parseOptions(fields.options.value).value;
    var file := fields.file.value;
    var focusArea := FocusOrEmpty(fields.focusArea);
    var text := Settle(file.reading).text;
    RemoteFollowsProtocol(service, options, file, focusArea, text, buildPrompt, parseJson);
    var full := Protocol(service, file, text, buildPrompt(options, file.name, focusArea));
    var i :| 0 <= i < |a.calls| && a.calls[i] == PostMessage(threadId, prompt, fileId);
    assert a.calls[i] == full[i];
    assert Proceeds(service, a.calls[0]) && Proceeds(service, a.calls[2]);
  }

  /** The assistant's reply that the handler reads: the first message whose role is "assistant". */
  lemma {:induction false} FindAssistantFirst(messages: seq<Message>, i: nat)
    requires i < |messages| && messages[i].role == "assistant"
    requires forall k :: 0 <= k < i ==> messages[k].role != "assistant"
    ensures FindAssistant(messages) == Some(messages[i])
  {
    if i > 0 {
      assert messages[0].role != "assistant";
      FindAssistantFirst(messages[1..], i - 1);
    }
  }

  /** No reply is found exactly when no message has the role "assistant". */
  lemma {:induction false} FindAssistantNone(messages: seq<Message>)
    ensures FindAssistant(messages).None? <==> forall k :: 0 <= k < |messages| ==> messages[k].role != "assistant"
  {
    if |messages| > 0 && messages[0].role != "assistant" {
      FindAssistantNone(messages[1..]);
      assert forall k :: 1 <= k < |messages| ==> messages[k] == messages[1..][k - 1];
    }
  }

  /** A reply wrapped as "```json" + body + "```", with no backtick inside, is parsed from the body alone. */
  lemma WrappedReplyParsed(messages: seq<Message>, parseJson: string -> Outcome<Json>, body: string)
    requires FindAssistant(messages).Some? && |FindAssistant(messages).value.content| > 0
    requires FindAssistant(messages).value.content[0] == TextContent(JsonFence + body + Fence)
    requires '`' !in body
    ensures parseJson(body).Returns? ==> ReadReply(messages, parseJson) == Done(Response(200, Payload(parseJson(body).value)))
    ensures parseJson(body).Throws? ==> ReadReply(messages, parseJson) == Raised(parseJson(body).thrown)
  {
    StripWrappedReply(body);
  }

  /** Every step of a successful request, in one place: the inputs, each remote call and the reply's first part. */
  predicate Succeeds(form: Outcome<FormFields>, service: Service, parseOptions: string -> Outcome<Config>,
                     parseJson: string -> Outcome<Json>, json: Json)
  {
    form.Returns? && form.value.file.Some? && Truthy(form.value.options) &&
    parseOptions(form.value.options.value).Returns? &&
    Settle(form.value.file.value.reading).Resolved? &&
    service.uploadFile.Returns? && service.createAssistant.Returns? && service.createThread.Returns? &&
    service.postMessage.Returns? && service.runAndPoll == Returns("completed") && service.listMessages.Returns? &&
    FindAssistant(service.listMessages.value).Some? &&
    var reply := FindAssistant(service.listMessages.value).value;
    |reply.content| > 0 && reply.content[0].TextContent? &&
    parseJson(StripFences(reply.content[0].value)) == Returns(json)
  }

  /**
    The handler answers 200 with `json` exactly when every step succeeds and
    the stripped reply parses to `json`, whatever the options say (no check
    that a type is selected, no check of the parsed shape); it then makes
    every call of the protocol, and deletes the assistant if its id is truthy.
   */
  lemma SuccessExactly(form: Outcome<FormFields>, service: Service, parseOptions: string -> Outcome<Config>,
                       buildPrompt: PromptBuilder, parseJson: string -> Outcome<Json>, json: Json)
    ensures Handle(form, service, parseOptions, buildPrompt, parseJson).0 == Sent(Response(200, Payload(json))) <==>
            Succeeds(form, service, parseOptions, parseJson, json)
    ensures Succeeds(form, service, parseOptions, parseJson, json) ==>
            var file := form.value.file.value;
            var prompt := buildPrompt(parseOptions(form.value.options.value).value, file.name, FocusOrEmpty(form.value.focusArea));
            Handle(form, service, parseOptions, buildPrompt, parseJson).1 ==
              Protocol(service, file, Settle(file.reading).text, prompt) + Cleanup(Some(service.createAssistant.value))
  {
    if form.Returns? && form.value.file.Some? && Truthy(form.value.options) && parseOptions(form.value.options.value).Returns? &&
       Settle(form.value.file.value.reading).Resolved? {
      var fields := form.value;
      var options := parseOptions(fields.options.value).value;
      var file := fields.file.value;
      var focusArea := FocusOrEmpty(fields.focusArea);
      var text := Settle(file.reading).text;
      RemoteFollowsProtocol(service, options, file, focusArea, text, buildPrompt, parseJson);
    }
  }

  /**
    With no message from the assistant, or one whose first part is not text,
    the reply fails with "No valid response from assistant."; with an empty
    first part list, reading its type fails.
   */
  lemma NoUsableReply(messages: seq<Message>, parseJson: string -> Outcome<Json>)
    ensures FindAssistant(messages).None? ==> ReadReply(messages, parseJson) == Raised(ErrorInstance(NoValidResponse))
    ensures FindAssistant(messages).Some? && |FindAssistant(messages).value.content| > 0 &&
            FindAssistant(messages).value.content[0].OtherContent? ==>
              ReadReply(messages, parseJson) == Raised(ErrorInstance(NoValidResponse))
    ensures FindAssistant(messages).Some? && |FindAssistant(messages).value.content| == 0 ==>
              ReadReply(messages, parseJson) == Raised(ErrorInstance(NoContentTypeError))
  {
  }

  /**
    When every step up to the listing of the messages succeeds but no message
    comes from the assistant, or the assistant's first part is not text, the
    handler answers 500 "No valid response from assistant." after making
    every call of the protocol, and then deletes the assistant.
   */
  lemma NoValidResponseReported(form: Outcome<FormFields>, service: Service, parseOptions: string -> Outcome<Config>,
                                buildPrompt: PromptBuilder, parseJson: string -> Outcome<Json>)
    requires form.Returns? && form.value.file.Some? && Truthy(form.value.options)
    requires parseOptions(form.value.options.value).Returns? && Settle(form.value.file.value.reading).Resolved?
    requires service.uploadFile.Returns? && service.createAssistant.Returns? && service.createThread.Returns?
    requires service.postMessage.Returns? && service.runAndPoll == Returns("completed") && service.listMessages.Returns?
    requires var reply := FindAssistant(service.listMessages.value);
             reply.None? || (|reply.value.content| > 0 && reply.value.content[0].OtherContent?)
    ensures Handle(form, service, parseOptions, buildPrompt, parseJson).0 == Sent(Response(500, Failure(NoValidResponse)))
    ensures var file := form.value.file.value;
            var prompt := buildPrompt(parseOptions(form.value.options.value).value, file.name, FocusOrEmpty(form.value.focusArea));
            Handle(form, service, parseOptions, buildPrompt, parseJson).1 ==
              Protocol(service, file, Settle(file.reading).text, prompt) + Cleanup(Some(service.createAssistant.value))
  {
  }

  /** The reply the `catch` sends for the thrown value `t`. */
  function Reported(t: Thrown): Reply
  {
    Sent(Response(500, Failure(CaughtMessage(t))))
  }

  /** The form holds a file and options, and the options parse. */
  predicate InputAccepted(form: Outcome<FormFields>, parseOptions: string -> Outcome<Config>)
  {
    form.Returns? && form.value.file.Some? && Truthy(form.value.options) &&
    parseOptions(form.value.options.value).Returns?
  }

  /** The input is accepted and the PDF's text extracted. */
  predicate TextExtracted(form: Outcome<FormFields>, parseOptions: string -> Outcome<Config>)
  {
    InputAccepted(form, parseOptions) && Settle(form.value.file.value.reading).Resolved?
  }

  /**
    A failure before the thread exists is reported with the value that step
    threw: reading the form, parsing the options, reading the PDF, uploading
    the text or creating the assistant.
   */
  lemma EarlyFailuresReported(form: Outcome<FormFields>, service: Service, parseOptions: string -> Outcome<Config>,
                              buildPrompt: PromptBuilder, parseJson: string -> Outcome<Json>)
    ensures var reply := Handle(form, service, parseOptions, buildPrompt, parseJson).0;
            form.Throws? ==> reply == Reported(form.thrown)
    ensures var reply := Handle(form, service, parseOptions, buildPrompt, parseJson).0;
            form.Returns? && form.value.file.Some? && Truthy(form.value.options) &&
            parseOptions(form.value.options.value).Throws? ==>
              reply == Reported(parseOptions(form.value.options.value).thrown)
    ensures var reply := Handle(form, service, parseOptions, buildPrompt, parseJson).0;
            InputAccepted(form, parseOptions) && Settle(form.value.file.value.reading).Rejected? ==>
              reply == Reported(Settle(form.value.file.value.reading).reason)
    ensures var reply := Handle(form, service, parseOptions, buildPrompt, parseJson).0;
            TextExtracted(form, parseOptions) && service.uploadFile.Throws? ==>
              reply == Reported(service.uploadFile.thrown)
    ensures var reply := Handle(form, service, parseOptions, buildPrompt, parseJson).0;
            TextExtracted(form, parseOptions) && service.uploadFile.Returns? && service.createAssistant.Throws? ==>
              reply == Reported(service.createAssistant.thrown)
  {
  }

  /**
    Once the assistant exists, a failure is reported with the value that step
    threw: creating the thread, posting the message, running, listing the
    messages or parsing the stripped reply.
   */
  lemma ConversationFailuresReported(form: Outcome<FormFields>, service: Service, parseOptions: string -> Outcome<Config>,
                                     buildPrompt: PromptBuilder, parseJson: string -> Outcome<Json>)
    ensures var reply := Handle(form, service, parseOptions, buildPrompt, parseJson).0;
            var created := TextExtracted(form, parseOptions) && service.uploadFile.Returns? && service.createAssistant.Returns?;
            (created && service.createThread.Throws? ==> reply == Reported(service.createThread.thrown)) &&
            (created && service.createThread.Returns? && service.postMessage.Throws? ==>
               reply == Reported(service.postMessage.thrown)) &&
            (created && service.createThread.Returns? && service.postMessage.Returns? && service.runAndPoll.Throws? ==>
               reply == Reported(service.runAndPoll.thrown))
    ensures var reply := Handle(form, service, parseOptions, buildPrompt, parseJson).0;
            var ran := TextExtracted(form, parseOptions) && service.uploadFile.Returns? && service.createAssistant.Returns? &&
                       service.createThread.Returns? && service.postMessage.Returns? && service.runAndPoll == Returns("completed");
            (ran && service.listMessages.Throws? ==> reply == Reported(service.listMessages.thrown)) &&
            (ran && service.listMessages.Returns? && FindAssistant(service.listMessages.value).Some? &&
             |FindAssistant(service.listMessages.value).value.content| > 0 &&
             FindAssistant(service.listMessages.value).value.content[0].TextContent? &&
             parseJson(StripFences(FindAssistant(service.listMessages.value).value.content[0].value)).Throws? ==>
               reply == Reported(parseJson(StripFences(FindAssistant(service.listMessages.value).value.content[0].value)).thrown))
  {
  }

  /**
    Whatever is thrown in the `try` block becomes a 500 carrying the
    `Error`'s message, or "An unknown error occurred" for any other value.
   */
  lemma ThrownBecomes500(form: Outcome<FormFields>, service: Service, parseOptions: string -> Outcome<Config>,
                         buildPrompt: PromptBuilder, parseJson: string -> Outcome<Json>)
    ensures var step := Attempt(form, service, parseOptions, buildPrompt, parseJson).step;
            var reply := Handle(form, service, parseOptions, buildPrompt, parseJson).0;
            (step.Raised? && step.thrown.ErrorInstance? ==> reply == Sent(Response(500, Failure(step.thrown.message)))) &&
            (step.Raised? && step.thrown.OtherValue? ==> reply == Sent(Response(500, Failure(UnknownErrorMessage))))
  {
  }
}
