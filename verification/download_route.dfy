/**
  The export route (`POST /api/download-pdf`). It reads a JSON body with the
  questions and a title, refuses a request without either, renders the
  document and answers with it as a PDF attachment named after the title,
  every whitespace character of which becomes "_". Setting that name as a
  header fails for a title with a non-whitespace character above U+00FF or a
  NUL (whitespace has become "_" by then). Any
  failure becomes a 500 response with the error's message.
 */
module DownloadRoute {
  import opened JsValues
  import opened Decimal
  import opened PdfDocument

  /** The fields of the JSON body the route reads; `None` stands for a missing or null field. */
  datatype DownloadRequest = DownloadRequest(questions: Option<seq<Question>>, title: Option<string>)

  datatype DownloadResponse =
    | ErrorResponse(status: int, error: string)
    | PdfAttachment(headers: seq<(string, string)>, document: Document)

  const MissingInput := "Missing questions or title"

  /** A character the regular expression `\s` matches: the ECMAScript white space and line terminators. */
  predicate IsJsWhitespace(c: char)
  {
    c == '\t' || c == '\n' || c == '\U{000B}' || c == '\U{000C}' || c == '\r' || c == ' ' ||
    c == '\U{00A0}' || c == '\U{1680}' || ('\U{2000}' <= c <= '\U{200A}') ||
    c == '\U{2028}' || c == '\U{2029}' || c == '\U{202F}' || c == '\U{205F}' || c == '\U{3000}' || c == '\U{FEFF}'
  }

  /** `title.replace(/\s/g, '_')` */
  function ReplaceWhitespace(title: string): string
  {
    if |title| == 0 then ""
    else (if IsJsWhitespace(title[0]) then "_" else [title[0]]) + ReplaceWhitespace(title[1..])
  }

  /** The attachment's file name. */
  function FileName(title: string): string
  {
    ReplaceWhitespace(title) + ".pdf"
  }

  /** The Content-Disposition value the route sets. */
  function Disposition(title: string): string
  {
    "attachment; filename=\"" + FileName(title) + "\""
  }

  function PdfHeaders(title: string): seq<(string, string)>
  {
    [("Content-Type", "application/pdf"), ("Content-Disposition", Disposition(title))]
  }

  // ----- What `headers.set` accepts -----

  /** The index of the first character above U+00FF, if any. */
  function FirstWide(s: string): (r: Option<nat>)
    ensures r.Some? ==> r.value < |s| && s[r.value] as int > 0xFF &&
                        forall k :: 0 <= k < r.value ==> s[k] as int <= 0xFF
    ensures r.None? ==> forall k :: 0 <= k < |s| ==> s[k] as int <= 0xFF
  {
    if |s| == 0 then None
    else if s[0] as int > 0xFF then Some(0)
    else match FirstWide(s[1..])
      case None => None
      case Some(i) => Some(i + 1)
  }

  /**
    A header value `headers.set` takes: every character fits in a byte (the
    conversion to a ByteString) and none is NUL, CR or LF. Values the route
    builds never start or end with whitespace, so the trimming rule plays no
    part.
   */
  predicate ValidHeaderValue(s: string)
  {
    FirstWide(s).None? && '\0' !in s && '\r' !in s && '\n' !in s
  }

  /** The `TypeError` `headers.set` throws for a value it refuses. */
  function HeaderError(value: string): Thrown
  {
    match FirstWide(value)
    case Some(i) =>
      ErrorInstance("Cannot convert argument to a ByteString because the character at index " + NatToString(i) +
                    " has a value of " + NatToString(value[i] as int) + " which is greater than 255.")
    case None =>
      ErrorInstance("Headers.set: \"" + value + "\" is an invalid header value.")
  }

  /**
    The handler. `body` is how `request.json()` settles; `render` is how
    rendering a document to a stream settles.
   */
  function HandleDownload(body: Outcome<DownloadRequest>, render: Document -> Outcome<()>): DownloadResponse
  {
    match body
    case Throws(t) => ErrorResponse(500, CaughtMessage(t))
    case Returns(request) =>
      if request.questions.None? || !Truthy(request.title) then ErrorResponse(400, MissingInput)
      else
        var doc := Render(request.questions.value, request.title.value);
        match render(doc)
        case Throws(t) => ErrorResponse(500, CaughtMessage(t))
        case Returns(_) =>
          var disposition := Disposition(request.title.value);
          if ValidHeaderValue(disposition) then PdfAttachment(PdfHeaders(request.title.value), doc)
          else ErrorResponse(500, CaughtMessage(HeaderError(disposition)))
  }

  // ----- The file name -----

  /**
    The replacement keeps the length, puts "_" where the title has
    whitespace and keeps every other character in place.
   */
  lemma {:induction false} ReplaceWhitespaceAt(title: string)
    ensures |ReplaceWhitespace(title)| == |title|
    ensures forall i :: 0 <= i < |title| ==>
              ReplaceWhitespace(title)[i] == (if IsJsWhitespace(title[i]) then '_' else title[i])
  {
    if |title| > 0 {
      ReplaceWhitespaceAt(title[1..]);
      var r := ReplaceWhitespace(title);
      forall i | 1 <= i < |title|
        ensures r[i] == (if IsJsWhitespace(title[i]) then '_' else title[i])
      {
        assert r[i] == ReplaceWhitespace(title[1..])[i - 1];
        assert title[i] == title[1..][i - 1];
      }
    }
  }

  /**
    The file name holds no whitespace, is four characters longer than the
    title, keeps every non-whitespace character of the title in place and
    ends in ".pdf".
   */
  lemma FileNameShape(title: string)
    ensures var name := FileName(title);
            |name| == |title| + 4 &&
            (forall i :: 0 <= i < |name| ==> !IsJsWhitespace(name[i])) &&
            (forall i :: 0 <= i < |title| && !IsJsWhitespace(title[i]) ==> name[i] == title[i]) &&
            name[|title|..] == ".pdf"
  {
    ReplaceWhitespaceAt(title);
    var name := FileName(title);
    forall i | 0 <= i < |name| ensures !IsJsWhitespace(name[i]) {
      if i >= |title| {
        assert name[i] == ".pdf"[i - |title|];
      }
    }
  }

  /** A title without whitespace appears unchanged before ".pdf". */
  lemma {:induction false} NoWhitespaceKept(title: string)
    requires forall i :: 0 <= i < |title| ==> !IsJsWhitespace(title[i])
    ensures ReplaceWhitespace(title) == title
  {
    if |title| > 0 {
      NoWhitespaceKept(title[1..]);
      assert [title[0]] + title[1..] == title;
    }
  }

  /** Replacing twice is replacing once. */
  lemma ReplaceIdempotent(title: string)
    ensures ReplaceWhitespace(ReplaceWhitespace(title)) == ReplaceWhitespace(title)
  {
    ReplaceWhitespaceAt(title);
    NoWhitespaceKept(ReplaceWhitespace(title));
  }

  // ----- The handler -----

  /**
    A missing body field, an empty title or a missing question list gets a
    400 "Missing questions or title", and no other request does; an empty
    question list is accepted.
   */
  lemma BadRequestExactlyWhenMissing(body: Outcome<DownloadRequest>, render: Document -> Outcome<()>)
    ensures var response := HandleDownload(body, render);
            (response.ErrorResponse? && response.status == 400) <==>
            (body.Returns? && (body.value.questions.None? || !Truthy(body.value.title)))
    ensures body.Returns? && (body.value.questions.None? || !Truthy(body.value.title)) ==>
            HandleDownload(body, render) == ErrorResponse(400, MissingInput)
  {
  }

  /**
    A rendered document is sent as a PDF attachment named after the title,
    and it is the document of exactly the request's questions and title.
   */
  lemma AttachmentHeaders(body: Outcome<DownloadRequest>, render: Document -> Outcome<()>)
    ensures var response := HandleDownload(body, render);
            response.PdfAttachment? ==>
              body.Returns? && body.value.questions.Some? && Truthy(body.value.title) &&
              response.document == Render(body.value.questions.value, body.value.title.value) &&
              |response.headers| == 2 &&
              response.headers[0] == ("Content-Type", "application/pdf") &&
              response.headers[1].0 == "Content-Disposition" &&
              response.headers[1].1 == "attachment; filename=\"" + ReplaceWhitespace(body.value.title.value) + ".pdf\"" &&
              ValidHeaderValue(response.headers[1].1)
  {
    var response := HandleDownload(body, render);
    if response.PdfAttachment? {
      var title := body.value.title.value;
      assert "attachment; filename=\"" + FileName(title) + "\"" ==
             "attachment; filename=\"" + ReplaceWhitespace(title) + ".pdf\"";
    }
  }

  /** Every failure is a 500 with the thrown error's message, or the generic message for a non-`Error` value. */
  lemma FailuresAre500(body: Outcome<DownloadRequest>, render: Document -> Outcome<()>)
    ensures var response := HandleDownload(body, render);
            (body.Throws? ==> response == ErrorResponse(500, CaughtMessage(body.thrown))) &&
            (body.Returns? && body.value.questions.Some? && Truthy(body.value.title) &&
             render(Render(body.value.questions.value, body.value.title.value)).Throws? ==>
               response == ErrorResponse(500, CaughtMessage(render(Render(body.value.questions.value, body.value.title.value)).thrown))) &&
            (response.ErrorResponse? ==> response.status == 400 || response.status == 500)
  {
  }

  /**
    A valid request whose document renders gets that document as a PDF
    attachment, unless its Content-Disposition value is one `headers.set`
    refuses, in which case the `TypeError` becomes a 500.
   */
  lemma RenderedRequestAnswered(body: Outcome<DownloadRequest>, render: Document -> Outcome<()>)
    requires body.Returns? && body.value.questions.Some? && Truthy(body.value.title)
    requires render(Render(body.value.questions.value, body.value.title.value)).Returns?
    ensures var title := body.value.title.value;
            ValidHeaderValue(Disposition(title)) ==>
              HandleDownload(body, render) == PdfAttachment(PdfHeaders(title), Render(body.value.questions.value, title))
    ensures var title := body.value.title.value;
            !ValidHeaderValue(Disposition(title)) ==>
              HandleDownload(body, render) == ErrorResponse(500, HeaderError(Disposition(title)).message)
  {
  }

  /** The fixed parts of the Content-Disposition value are plain ASCII without NUL, CR or LF. */
  lemma DispositionChars(title: string)
    ensures var d := Disposition(title);
            var name := ReplaceWhitespace(title);
            |d| == 22 + |name| + 5 &&
            d[22..22 + |name|] == name &&
            forall k :: 0 <= k < |d| && !(22 <= k < 22 + |name|) ==>
              d[k] as int <= 0x7F && d[k] != '\0' && d[k] != '\r' && d[k] != '\n'
  {
    var d := Disposition(title);
    var name := ReplaceWhitespace(title);
    var lead, tail := "attachment; filename=\"", ".pdf\"";
    assert d == lead + name + tail;
    forall k | 0 <= k < |d| && !(22 <= k < 22 + |name|)
      ensures d[k] as int <= 0x7F && d[k] != '\0' && d[k] != '\r' && d[k] != '\n'
    {
      if k < 22 {
        assert d[k] == lead[k];
      } else {
        assert d[k] == tail[k - 22 - |name|];
      }
    }
  }

  /**
    A title whose characters all fit in a byte and hold no NUL is a name
    `headers.set` accepts, so a rendered document is sent.
   */
  lemma ByteTitleAccepted(title: string)
    requires forall i :: 0 <= i < |title| ==> title[i] as int <= 0xFF && title[i] != '\0'
    ensures ValidHeaderValue(Disposition(title))
  {
    ReplaceWhitespaceAt(title);
    DispositionChars(title);
    var d := Disposition(title);
    var name := ReplaceWhitespace(title);
    forall k | 0 <= k < |d| ensures d[k] as int <= 0xFF && d[k] != '\0' && d[k] != '\r' && d[k] != '\n' {
      if 22 <= k < 22 + |name| {
        assert d[k] == name[k - 22];
      }
    }
  }

  /**
    A title with a character above U+00FF that `\s` does not match (a CJK
    character, an en dash) is refused by `headers.set`: the request gets a
    500 however well the document renders.
   */
  lemma WideTitleRefused(title: string, i: nat)
    requires i < |title| && title[i] as int > 0xFF && !IsJsWhitespace(title[i])
    ensures !ValidHeaderValue(Disposition(title))
  {
    ReplaceWhitespaceAt(title);
    DispositionChars(title);
    var d := Disposition(title);
    assert d[22 + i] == ReplaceWhitespace(title)[i];
  }

  /**
    A title with a NUL is refused too; NUL is not whitespace, so it survives
    into the file name.
   */
  lemma NulTitleRefused(title: string, i: nat)
    requires i < |title| && title[i] == '\0'
    ensures !ValidHeaderValue(Disposition(title))
  {
    ReplaceWhitespaceAt(title);
    DispositionChars(title);
    var d := Disposition(title);
    assert d[22 + i] == ReplaceWhitespace(title)[i];
  }
}
