# Question bank generator: a Dafny model

The application turns an uploaded PDF into a quiz. The generation route
(`POST /api/generate`) works in four stages:

- It reads a multipart form holding the file, the question options and an
  optional focus area.
- It extracts the PDF's text and uploads it to the OpenAI Assistants API.
- It creates an assistant and a thread, posts a prompt built from the
  options, and runs the thread to completion.
- It reads the assistant's reply, strips Markdown code fences from it, and
  returns the parsed JSON. Whatever happens, an assistant that was created
  is deleted again in the `finally` block.

The export route (`POST /api/download-pdf`) renders a list of questions as a
PDF. The document has the title as its heading, a "Questions" section and an
"Answer Key" section. The file is sent as an attachment named after the
title, with every whitespace character replaced by `_`. Setting that name as
the Content-Disposition header throws for a title holding a non-whitespace
character above U+00FF (a CJK character, an en dash) or a NUL, and the route
then answers 500; whitespace above U+00FF has already become `_`.

The model has one module per concern:

- `QuestionOptions`: the option record the user interface sends. It has the
  question count, three check boxes for the question types, and a
  difficulty.
- `Prompt`: `constructPrompt`, written over a `Template`. The template holds
  the fixed text around the variable parts; `SourceTemplate` is the route's
  own text.
- `PdfText`: `getPdfText`. It is an imperative method over the sequence of
  callbacks the PDF reader makes, proved against a specification of how the
  promise settles.
- `Fences`: the two `replace` calls that strip code fences from the reply.
- `GenerateRoute`: the generation handler.
  - Every remote call is an oracle outcome, held in a `Service` record.
  - `JSON.parse` is a function parameter.
  - The handler returns the reply together with the trace of remote calls
    it made.
  - The methods `Converse`, `CallRemote`, `TryBlock` and `HandlePost` are
    proved equal to the specification functions `Conversation`, `Remote`,
    `Attempt` and `Handle`.
- `GenerateRouteProperties`: properties of the generation handler. They are
  stated for any prompt builder; the handler passes `ConstructPrompt`.
- `PdfDocument`: `QuestionPdfDocument`, modelled as its text: the heading
  plus the lines of each entry of each section.
- `DownloadRoute`: the export handler.
- `JsValues`, `Decimal` and `Strings` are helpers:
  - thrown values, truthiness and the caught-error message;
  - the decimal rendering of numbers;
  - deletion of every occurrence of a pattern, `join` and `split`.

## Model

| member | source | states |
|---|---|---|
| Prompt.LevelLabelRoundTrip | src/app/api/generate/route.ts:30-34 | Each difficulty maps to its own level label (Beginner, Intermediate, Expert): the label reads back as that difficulty, and it holds no line break |
| Prompt.TypeLabelRoundTrip | src/app/api/generate/route.ts:35-39 | Each question type maps to its own label (MCQ, True/False, Short-Answer), and the label reads back as that type |
| Prompt.Labels | src/app/api/generate/route.ts:44 | Mapping the keys to labels keeps one label per key |
| Prompt.CheckedKeysMembers | src/app/api/generate/route.ts:42-43 | The filter over the record's entries keeps a key exactly when that key's box is checked |
| Prompt.CheckedKeysOrdered | src/app/api/generate/route.ts:42-43 | The kept keys keep the entries' order, strictly by key rank, and each kept key comes from an entry |
| Prompt.CheckedCount | src/app/api/generate/route.ts:42-43 | One key is kept per checked box |
| Prompt.TypesListed | src/app/api/generate/route.ts:42-45 | The ITEM-TYPE(S) list names a type's label if and only if that type is checked; its length is the number of checked boxes |
| Prompt.ListedLabelNamesType | src/app/api/generate/route.ts:42-45 | The i-th listed label reads back as the i-th checked key |
| Prompt.TypesInKeyOrder | src/app/api/generate/route.ts:42-45 | Every listed label names a type; the types appear in key order (mcq, trueFalse, shortAnswer); no label appears twice |
| Prompt.LabelChars | src/app/api/generate/route.ts:35-39 | No listed label holds a comma or a line break |
| Prompt.ItemTypesReadBack | src/app/api/generate/route.ts:42-45 | The list is empty exactly when no box is checked, and the ITEM-TYPE(S) text is then ""; otherwise splitting the text at ", " gives back exactly the checked labels; the text holds no line break |
| Prompt.FocusTextOneLine | src/app/api/generate/route.ts:49 | The fixed text around the focus area holds no line break |
| Prompt.FocusQuotedVerbatim | src/app/api/generate/route.ts:48-50 | The focus instruction is empty exactly when the focus area is empty; otherwise it is the fixed lead, the focus area verbatim between double quotes, and a full stop |
| Prompt.FileNameIgnored | src/app/api/generate/route.ts:28-95 | The file name never changes the prompt |
| Prompt.TemplateLines | src/app/api/generate/route.ts:76-94 | A text built as a head, three single lines and a tail, joined by line breaks, splits into the head's lines, the three lines and the tail's lines |
| Prompt.RenderLines | src/app/api/generate/route.ts:76-94 | The LEVEL, ITEM-TYPE(S) and NUMBER OF ITEMS lines are whole lines of the prompt, in that order, right after the instructions and before the JSON schema |
| Prompt.PreambleLines | src/app/api/generate/route.ts:53-81 | The instructions' lines are the fixed lines with the focus instruction's lines in its slot; an empty focus area leaves one empty line; a focus area without a line break fills exactly one line |
| Prompt.RenderCarriesOptions | src/app/api/generate/route.ts:82-84 | Reading the three parameter lines back gives the difficulty, the checked labels (one empty piece when none is checked) and `numQuestions` unchanged |
| Decimal.DigitChar | src/app/api/generate/route.ts:84 | A digit value renders as a decimal digit |
| Decimal.DigitValue | src/app/api/generate/route.ts:84 | A decimal digit has a value below ten and renders back as itself |
| Decimal.NatToString | src/app/api/generate/route.ts:84 | A natural number renders as a non-empty string of digits with no leading zero |
| Decimal.NatToStringRoundTrip | src/app/api/generate/route.ts:84 | The digits of a natural number's rendering have that number's value |
| Decimal.IntToStringRoundTrip | src/app/api/generate/route.ts:84 | The rendering of any integer count reads back as that integer |
| Decimal.IntToStringInjective | src/app/api/generate/route.ts:84 | Distinct counts render differently |
| Decimal.IntToStringChars | src/app/api/generate/route.ts:84 | A rendered count holds neither a line break nor a full stop |
| Strings.DeleteAll | src/app/api/generate/route.ts:161 | Deleting every occurrence of a pattern never lengthens the text |
| Strings.OccursInSuffix | src/app/api/generate/route.ts:161 | An occurrence in a suffix is an occurrence in the whole text |
| Strings.DeleteAllAbsent | src/app/api/generate/route.ts:161 | Deleting a pattern that does not occur changes nothing |
| Strings.DeleteAllKeepsPrefix | src/app/api/generate/route.ts:161 | A prefix without the pattern's first character passes through the deletion unchanged |
| Strings.JoinChars | src/app/api/generate/route.ts:45 | A character that is in no part and not in the separator is not in the join |
| Strings.Split | src/app/api/generate/route.ts:45 | Splitting always gives at least one piece |
| Strings.SplitSingle | src/app/api/generate/route.ts:45 | A piece without the separator's first character splits into itself |
| Strings.SplitAfterPiece | src/app/api/generate/route.ts:45 | A piece followed by the separator splits off as the first piece |
| Strings.SplitJoin | src/app/api/generate/route.ts:45 | Splitting a join at its separator gives back the parts, when no part holds the separator's first character |
| Strings.SplitAround | src/app/api/generate/route.ts:76-94 | Splitting at line breaks distributes over a line break between two texts |
| Fences.FirstCharKept | src/app/api/generate/route.ts:161 | A first character other than a backtick survives the fence deletion |
| Fences.NoLeadingPair | src/app/api/generate/route.ts:161 | Deleting fences never makes a text start with two backticks |
| Fences.FenceTicks | src/app/api/generate/route.ts:161 | A fence occurrence is three backticks |
| Fences.NoFenceAfterChar | src/app/api/generate/route.ts:161 | One character in front of a fence-free text makes a fence only when it is a backtick before two more |
| Fences.NoFenceLeft | src/app/api/generate/route.ts:161 | After every "```" is deleted, none is left: the deletions never join backticks into a new fence |
| Fences.NoJsonFenceWithoutFence | src/app/api/generate/route.ts:161 | A text without "```" has no "```json" either |
| Fences.StripLeavesNoFence | src/app/api/generate/route.ts:161 | The stripped reply holds no "```" |
| Fences.StripFenceFree | src/app/api/generate/route.ts:161 | A reply without "```" is left as it is |
| Fences.StripIdempotent | src/app/api/generate/route.ts:161 | Stripping twice is stripping once |
| Fences.StripWithoutBacktick | src/app/api/generate/route.ts:161 | A reply with no backtick at all is unchanged |
| Fences.StripWrappedReply | src/app/api/generate/route.ts:161 | A reply wrapped as "```json", a body and "```", with no backtick in the body, strips to exactly the body |
| PdfText.GetPdfText | src/app/api/generate/route.ts:12-26 | The accumulating callback loop settles the promise exactly as the settlement specification does for the same callbacks |
| PdfText.FirstSignalBounds | src/app/api/generate/route.ts:15-23 | The first event that is not an item is a real event, and every event before it is an item |
| PdfText.FirstSignalAppend | src/app/api/generate/route.ts:15-23 | A later callback never moves the first end-of-file or error |
| PdfText.ItemsTextAppend | src/app/api/generate/route.ts:21-22 | The collected text grows by each item's text followed by a space |
| PdfText.AccumulatedIsItemsText | src/app/api/generate/route.ts:14-22 | Collecting from the back and from the front gives the same text |
| PdfText.SettleMatchesFirstSignal | src/app/api/generate/route.ts:13-25 | The promise resolves at the first end of file with the in-order concatenation of the earlier items' texts, each followed by a space, rejects at the first error with that error, and stays pending otherwise |
| PdfText.FirstSettlementWins | src/app/api/generate/route.ts:13-25 | Once settled, the promise keeps its outcome whatever the reader reports afterwards |
| PdfText.ItemsThenEnd | src/app/api/generate/route.ts:18-22 | Items followed by the end of file resolve with every item's text followed by a space |
| GenerateRoute.Converse | src/app/api/generate/route.ts:137-170 | Creating the thread, posting the prompt, running and reading the reply makes the calls and takes the step that the conversation specification gives |
| GenerateRoute.CallRemote | src/app/api/generate/route.ts:116-170 | The upload, assistant creation, prompt and conversation make the calls, take the step and record the assistant id that the remote specification gives with the route's prompt |
| GenerateRoute.TryBlock | src/app/api/generate/route.ts:100-170 | The `try` block reads the form, answers 400 when input is missing, parses the options, extracts the text and calls the remote part, exactly as the attempt specification gives |
| GenerateRoute.HandlePost | src/app/api/generate/route.ts:97-182 | The handler's reply and its call trace, including the cleanup in `finally`, are those of the handler specification with the route's prompt |
| GenerateRouteProperties.StopsAfterPrefix | src/app/api/generate/route.ts:116-170 | Calls that all went through, followed by calls that stop at the first failure, still stop at the first failure |
| GenerateRouteProperties.ConversationStops | src/app/api/generate/route.ts:137-170 | The conversation makes its calls in protocol order and stops right after the first one that fails |
| GenerateRouteProperties.RemoteFollowsProtocol | src/app/api/generate/route.ts:116-170 | The remote calls are a prefix of upload, create assistant, create thread, post, run and list, and they stop right after the first failure |
| GenerateRouteProperties.RemoteResponds | src/app/api/generate/route.ts:116-170 | The remote part never stalls, and the only response it builds is a 200 carrying the parsed JSON |
| GenerateRouteProperties.AssistantRecorded | src/app/api/generate/route.ts:98-131 | `assistantId` is set exactly when the assistant was created, and to its id; the `try` block deletes nothing; a stall makes no call |
| GenerateRouteProperties.BadRequestExactlyWhenMissing | src/app/api/generate/route.ts:106-108 | The reply is a 400 if and only if the file or the options are missing or empty; it is then "Missing file or options", with no remote call and no delete |
| GenerateRouteProperties.OnlyThreeStatuses | src/app/api/generate/route.ts:106-175 | Every reply is a 200, a 400 or a 500, and it is a 200 exactly when it carries parsed JSON |
| GenerateRouteProperties.StallsOnlyOnUnsettledReader | src/app/api/generate/route.ts:110-114 | The handler sends no reply only when the PDF reader neither ends nor fails, and it then makes no call |
| GenerateRouteProperties.UploadsExtractedText | src/app/api/generate/route.ts:113-121 | The uploaded file is named "source-for-<name>.txt" and holds exactly the text the extraction resolved with |
| GenerateRouteProperties.CleanupExactlyOnce | src/app/api/generate/route.ts:131-180 | Whenever a reply is sent, the assistant is deleted if and only if it was created with a non-empty id; the delete is the last call and comes only once |
| GenerateRouteProperties.DeleteOutcomeIgnored | src/app/api/generate/route.ts:179 | A failed or successful delete changes neither the reply nor the calls |
| GenerateRouteProperties.UnfinishedRunReported | src/app/api/generate/route.ts:150-170 | A run that ends in any status but "completed" gets a 500 "Run ended with status: <status>", and the messages are never listed |
| GenerateRouteProperties.PromptPosted | src/app/api/generate/route.ts:134-147 | A posted message carries the prompt built from the parsed options, the file's name and the focus area ("" when missing), with the uploaded file's id on the thread just created |
| GenerateRouteProperties.FindAssistantFirst | src/app/api/generate/route.ts:157 | The reply read is the first message whose role is "assistant" |
| GenerateRouteProperties.FindAssistantNone | src/app/api/generate/route.ts:157 | No reply is found exactly when no message has the role "assistant" |
| GenerateRouteProperties.WrappedReplyParsed | src/app/api/generate/route.ts:159-163 | A fenced reply with no backtick inside is parsed from its body alone: a 200 with that JSON, or the parser's exception |
| GenerateRouteProperties.SuccessExactly | src/app/api/generate/route.ts:97-182 | The reply is a 200 with some JSON exactly when every input is present, every remote call returns, the run completes and the assistant's first part is text that parses to that JSON, whatever its shape; the calls are then the whole protocol followed by the cleanup |
| GenerateRouteProperties.NoUsableReply | src/app/api/generate/route.ts:157-167 | With no assistant message, or with a first part that is not text, the error is "No valid response from assistant."; with no parts, reading the type fails |
| GenerateRouteProperties.NoValidResponseReported | src/app/api/generate/route.ts:155-175 | When every step up to the message listing succeeds but there is no assistant message, or its first part is not text, the handler answers 500 "No valid response from assistant." after the whole protocol, then deletes the assistant |
| GenerateRouteProperties.EarlyFailuresReported | src/app/api/generate/route.ts:100-131 | When reading the form, parsing the options, reading the PDF, uploading the text or creating the assistant throws (every earlier step succeeding), the reply is a 500 carrying exactly that thrown value's message |
| GenerateRouteProperties.ConversationFailuresReported | src/app/api/generate/route.ts:137-175 | When creating the thread, posting the message, running, listing the messages or parsing the stripped reply throws (every earlier step succeeding), the reply is a 500 carrying exactly that thrown value's message |
| GenerateRouteProperties.ThrownBecomes500 | src/app/api/generate/route.ts:172-175 | Anything thrown in the `try` block becomes a 500 carrying the `Error`'s message, or "An unknown error occurred" for any other value |
| PdfDocument.LeadingDigits | src/components/QuestionPdfDocument.tsx:81 | The count of leading characters that are digits: they are all digits, and the next character is not |
| PdfDocument.LeadingDigitsOfDigits | src/components/QuestionPdfDocument.tsx:81 | Digits followed by a non-digit have exactly the digits as their leading digits |
| PdfDocument.NumberedRoundTrip | src/components/QuestionPdfDocument.tsx:81-94 | A numbered line reads back as its number and its text |
| PdfDocument.RenderNumbersEntries | src/components/QuestionPdfDocument.tsx:75-98 | The heading is the title; both sections hold one entry per question, in order; entry i starts with exactly "<i+1>. " and the stem, respectively the answer, and reads back as that number and text, and the answer is followed by "(Reference: <ref>)" |
| PdfDocument.RenderListsOptions | src/components/QuestionPdfDocument.tsx:82-84 | Options are shown only for a question of type "mcq" that has them; then all of them are shown, in order, the j-th prefixed by the j-th letter and ". " |
| PdfDocument.OptionLetters | src/components/QuestionPdfDocument.tsx:83 | Option letters run from 'A' with code 65+j, with no cap at four options; the first 26 are capital letters |
| PdfDocument.FlattenAppend | src/components/QuestionPdfDocument.tsx:79-88 | Flattening entries distributes over concatenating them |
| PdfDocument.FlattenAround | src/components/QuestionPdfDocument.tsx:79-88 | The flattened entries are the entries before i, then entry i's lines, then the entries after it |
| PdfDocument.LinesAroundEntry | src/components/QuestionPdfDocument.tsx:75-98 | The document's text is the title, the "Questions" heading, the earlier questions' lines, question entry i, and then the later questions, the "Answer Key" heading and the answers |
| PdfDocument.EntryLinesAt | src/components/QuestionPdfDocument.tsx:75-88 | Question entry i's lines appear in the text one by one, starting at line 2 plus the number of lines of the entries before it |
| PdfDocument.QuestionEntryShape | src/components/QuestionPdfDocument.tsx:79-88 | A question's entry is "<index+1>. <stem>" followed by exactly one line per shown option, each its letter, ". " and the option |
| PdfDocument.QuestionEntryLinesAt | src/components/QuestionPdfDocument.tsx:75-88 | Wherever a document holds question q's entry at position i, the text holds "<i+1>. <stem>" at that entry's start and q's option lines right after it |
| PdfDocument.QuestionLinesAt | src/components/QuestionPdfDocument.tsx:75-86 | In the document's text, question i's lines start right after those of the earlier questions: "<i+1>. <stem>", then each shown option as its letter, ". " and the option |
| PdfDocument.FlattenPairs | src/components/QuestionPdfDocument.tsx:91-100 | Entries of two lines each flatten into their lines, two by two |
| PdfDocument.LinesLayout | src/components/QuestionPdfDocument.tsx:75-101 | The text starts with the title and "Questions"; "Answer Key" follows every question line; after it come two lines per question, the numbered answer and the reference, in order |
| DownloadRoute.ReplaceWhitespaceAt | src/app/api/download-pdf/route.tsx:21 | The replacement keeps the title's length, puts "_" where the title has whitespace and keeps every other character in place |
| DownloadRoute.FileNameShape | src/app/api/download-pdf/route.tsx:21 | The file name holds no whitespace, is four characters longer than the title, keeps the title's other characters in place and ends in ".pdf" |
| DownloadRoute.NoWhitespaceKept | src/app/api/download-pdf/route.tsx:21 | A title without whitespace is kept unchanged |
| DownloadRoute.ReplaceIdempotent | src/app/api/download-pdf/route.tsx:21 | Replacing whitespace twice is replacing it once |
| DownloadRoute.BadRequestExactlyWhenMissing | src/app/api/download-pdf/route.tsx:8-13 | The reply is a 400 if and only if the questions are missing or the title is missing or empty; it is then "Missing questions or title"; an empty question list is accepted |
| DownloadRoute.AttachmentHeaders | src/app/api/download-pdf/route.tsx:15-21 | A PDF is sent only for a valid request; it is the document of exactly its questions and title; it carries Content-Type "application/pdf" and a Content-Disposition attachment named after the title with whitespace replaced, plus ".pdf", a value `headers.set` accepts |
| DownloadRoute.RenderedRequestAnswered | src/app/api/download-pdf/route.tsx:11-21 | A valid request whose document renders gets exactly that document with the two headers, unless `headers.set` refuses the Content-Disposition value, which then gives a 500 with the `TypeError`'s message |
| DownloadRoute.FirstWide | src/app/api/download-pdf/route.tsx:21 | Finds the first character that does not fit in a byte, with every character before it fitting; none is found only when all fit |
| DownloadRoute.DispositionChars | src/app/api/download-pdf/route.tsx:21 | The Content-Disposition value is the fixed ASCII text around the file name, and the fixed text holds no NUL, CR or LF |
| DownloadRoute.ByteTitleAccepted | src/app/api/download-pdf/route.tsx:21 | A title whose characters all fit in a byte and hold no NUL gives a header value `headers.set` accepts |
| DownloadRoute.WideTitleRefused | src/app/api/download-pdf/route.tsx:21 | A title with a non-whitespace character above U+00FF gives a header value `headers.set` refuses |
| DownloadRoute.NulTitleRefused | src/app/api/download-pdf/route.tsx:21 | A title with a NUL gives a header value `headers.set` refuses |
| DownloadRoute.FailuresAre500 | src/app/api/download-pdf/route.tsx:41-45 | A body that cannot be read, or a render that fails, gets a 500 with the error's message or "An unknown error occurred"; every error status is 400 or 500 |

## Left out

- The OpenAI SDK is not modelled. Each call (file upload, assistant
  creation, thread creation, message post, `createAndPoll`, message list,
  assistant deletion) is an outcome the caller supplies: a value or a thrown
  error. The model fixes one outcome per call.
- The assistant's name, instructions, model and tools are constants of the
  remote call, so they are not in the trace.
- `createAndPoll` is one call here; its internal polling belongs to the SDK.
- The PDF decoding in `pdfreader` is not modelled. The reader is the
  sequence of callbacks it makes.
- `file.arrayBuffer()` and `Buffer` conversions are not modelled: the file
  is its name and its reader callbacks.
- `toFile` is not modelled; the upload call records the file's name and its
  text.
- `JSON.parse` of the options and of the reply is a function parameter.
  - An options value not shaped like the option record is not modelled.
    Neither the route nor the model checks its shape.
  - The parsed reply is passed through unvalidated, as the route does.
- `request.formData()` and `request.json()` are outcomes the caller supplies.
- Form fields are present or absent. A file field holding a plain string is
  not modelled.
- For the export route, a body whose `questions` is not an array, or whose
  `title` is not a string, is not modelled.
- `console.error` logging and the API key from the environment are left
  out: they affect no reply.
- The stream bridge from `renderToStream` to a web `ReadableStream` is not
  modelled. Rendering is an outcome: success or a thrown error.
- DownloadRoute.HeaderError: the `TypeError` messages are those of Node's
  Fetch implementation (undici). For a character beyond U+FFFF that
  implementation counts the index and the value in UTF-16 code units; the
  model counts characters and gives the code point.
- React-PDF layout, fonts and styles are not modelled, and neither is the
  per-page "page / total" footer. The document is its heading and the lines
  of its entries.
- The user interface components (upload form, option picker, page) are not
  modelled. Only the option record's shape is.
- Prompt.RenderCarriesOptions: proved for every `Template`, not for the
  route's `SourceTemplate` in particular. The long fixed text makes proofs
  over that one template too costly. `ConstructPrompt` is
  `Render(SourceTemplate, ...)`, and the properties hold for it as an
  instance.
- GenerateRouteProperties: the properties are stated for any prompt
  builder. `GenerateRoute.HandlePost` is proved equal to `Handle` with
  `ConstructPrompt`, so they apply to it.
- Decimal.IntToStringRoundTrip: `numQuestions` is modelled as an integer.
  A non-integral number, or one whose rendering uses an exponent (magnitude
  1e21 or more), is not modelled.
- PdfDocument.OptionLetters: `String.fromCharCode` of a lone surrogate code
  unit (65+j between 0xD800 and 0xDFFF) is shown as U+FFFD. A Dafny `char`
  cannot hold a lone surrogate.
- GenerateRouteProperties.NoUsableReply: an empty content list makes
  `content[0].type` throw a `TypeError`. Its message is modelled as the
  fixed V8 text "Cannot read properties of undefined (reading 'type')".
