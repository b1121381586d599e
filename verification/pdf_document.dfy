/**
  The text of the exported PDF (`QuestionPdfDocument`): the title as heading,
  a "Questions" section with one numbered entry per question (and lettered
  options for multiple-choice questions), then an "Answer Key" section with
  the numbered answers and their references. Layout and styling are not
  modelled; the document is its lines of text.
 */
module PdfDocument {
  import opened JsValues
  import opened Decimal

  /** A question as the generation route's JSON describes it. */
  datatype Question = Question(stem: string, questionType: string, options: Option<seq<string>>, answer: string, ref: string)

  /** The document: its heading, the lines of each question entry and of each answer-key entry. */
  datatype Document = Document(heading: string, questionEntries: seq<seq<string>>, answerEntries: seq<seq<string>>)

  const QuestionsHeading := "Questions"
  const AnswerKeyHeading := "Answer Key"

  /** `${index + 1}. ${text}` for the entry at 0-based `index`, given as `n = index + 1`. */
  function Numbered(n: nat, text: string): string
  {
    NatToString(n) + ". " + text
  }

  /**
    `String.fromCharCode(65 + j)`: the UTF-16 code unit `(65 + j) mod 65536`;
    a code unit in the surrogate range is not a character on its own and
    shows as U+FFFD.
   */
  function OptionLetter(j: nat): char
  {
    var code := (65 + j) % 0x1_0000;
    if 0xD800 <= code < 0xE000 then '\U{FFFD}' else code as char
  }

  function OptionLine(j: nat, option: string): string
  {
    [OptionLetter(j)] + ". " + option
  }

  /** Options are shown only for a question of type "mcq" that has them. */
  function ShownOptions(q: Question): seq<string>
  {
    if q.questionType == "mcq" && q.options.Some? then q.options.value else []
  }

  /** The lines of the question at 0-based `index`: its numbered stem, then its lettered options. */
  function QuestionEntry(index: nat, q: Question): seq<string>
  {
    var shown := ShownOptions(q);
    [Numbered(index + 1, q.stem)] + seq(|shown|, j requires 0 <= j < |shown| => OptionLine(j, shown[j]))
  }

  function ReferenceLine(ref: string): string
  {
    "(Reference: " + ref + ")"
  }

  /** The answer-key lines of the question at 0-based `index`. */
  function AnswerEntry(index: nat, q: Question): seq<string>
  {
    [Numbered(index + 1, q.answer), ReferenceLine(q.ref)]
  }

  /** `QuestionPdfDocument({ questions, title })` */
  function Render(questions: seq<Question>, title: string): Document
  {
    Document(title,
             seq(|questions|, i requires 0 <= i < |questions| => QuestionEntry(i, questions[i])),
             seq(|questions|, i requires 0 <= i < |questions| => AnswerEntry(i, questions[i])))
  }

  function Flatten(entries: seq<seq<string>>): seq<string>
  {
    if |entries| == 0 then [] else entries[0] + Flatten(entries[1..])
  }

  /** The document's text, top to bottom. */
  function Lines(doc: Document): seq<string>
  {
    [doc.heading, QuestionsHeading] + Flatten(doc.questionEntries) + [AnswerKeyHeading] + Flatten(doc.answerEntries)
  }

  // ----- Reading a numbered line back -----

  /** The number of leading digits of `s`. */
  function LeadingDigits(s: string): (k: nat)
    ensures k <= |s| && AllDigits(s[..k])
    ensures k < |s| ==> !IsDigit(s[k])
  {
    if |s| == 0 || !IsDigit(s[0]) then 0
    else
      var k := 1 + LeadingDigits(s[1..]);
      assert s[..k] == [s[0]] + s[1..][..k - 1];
      k
  }

  /** Splits "<digits>. <text>" into its number and its text. */
  function ReadNumbered(line: string): Option<(nat, string)>
  {
    var k := LeadingDigits(line);
    if 0 < k && k + 2 <= |line| && line[k..k + 2] == ". " then Some((DigitsValue(line[..k]), line[k + 2..]))
    else None
  }

  lemma {:induction false} LeadingDigitsOfDigits(d: string, rest: string)
    requires AllDigits(d) && (|rest| > 0 ==> !IsDigit(rest[0]))
    ensures LeadingDigits(d + rest) == |d|
  {
    if |d| > 0 {
      assert (d + rest)[1..] == d[1..] + rest;
      LeadingDigitsOfDigits(d[1..], rest);
    } else {
      assert d + rest == rest;
    }
  }

  /** A numbered line reads back as its number and its text. */
  lemma NumberedRoundTrip(n: nat, text: string)
    ensures ReadNumbered(Numbered(n, text)) == Some((n, text))
  {
    var d := NatToString(n);
    var line := Numbered(n, text);
    LeadingDigitsOfDigits(d, ". " + text);
    assert line == d + (". " + text);
    assert line[..|d|] == d && line[|d|..|d| + 2] == ". " && line[|d| + 2..] == text;
    NatToStringRoundTrip(n);
  }

  // ----- Properties of the document -----

  /**
    The heading is the title; each section has one entry per question, in
    input order; entry i of each reads back as number i + 1 with the stem,
    respectively the answer, followed in the key by the reference line.
   */
  lemma RenderNumbersEntries(questions: seq<Question>, title: string)
    ensures var doc := Render(questions, title);
            doc.heading == title &&
            |doc.questionEntries| == |questions| && |doc.answerEntries| == |questions| &&
            forall i :: 0 <= i < |questions| ==>
              |doc.questionEntries[i]| >= 1 &&
              doc.questionEntries[i][0] == Numbered(i + 1, questions[i].stem) &&
              ReadNumbered(doc.questionEntries[i][0]) == Some((i + 1, questions[i].stem)) &&
              |doc.answerEntries[i]| == 2 &&
              doc.answerEntries[i][0] == Numbered(i + 1, questions[i].answer) &&
              ReadNumbered(doc.answerEntries[i][0]) == Some((i + 1, questions[i].answer)) &&
              doc.answerEntries[i][1] == ReferenceLine(questions[i].ref)
  {
    var doc := Render(questions, title);
    forall i | 0 <= i < |questions|
      ensures ReadNumbered(doc.questionEntries[i][0]) == Some((i + 1, questions[i].stem))
      ensures ReadNumbered(doc.answerEntries[i][0]) == Some((i + 1, questions[i].answer))
    {
      NumberedRoundTrip(i + 1, questions[i].stem);
      NumberedRoundTrip(i + 1, questions[i].answer);
    }
  }

  /**
    A question shows options only when its type is "mcq" and it has them,
    all of them, in order, the j-th prefixed by the j-th letter and ". ".
   */
  lemma RenderListsOptions(questions: seq<Question>, title: string, i: nat)
    requires i < |questions|
    ensures var entry := Render(questions, title).questionEntries[i];
            var q := questions[i];
            (q.questionType != "mcq" || q.options.None? ==> |entry| == 1) &&
            (q.questionType == "mcq" && q.options.Some? ==>
              |entry| == 1 + |q.options.value| &&
              forall j :: 0 <= j < |q.options.value| ==> entry[1 + j] == OptionLine(j, q.options.value[j]))
  {
  }

  /** Letters run from 'A' upwards, one code unit apart, with no cap at four. */
  lemma OptionLetters(j: nat)
    ensures j < 26 ==> 'A' <= OptionLetter(j) <= 'Z'
    ensures j < 0xD800 - 65 ==> OptionLetter(j) as int == 65 + j
  {
  }

  /** Entries of two lines each flatten into their lines, two by two. */
  lemma {:induction false} FlattenPairs(entries: seq<seq<string>>)
    requires forall i :: 0 <= i < |entries| ==> |entries[i]| == 2
    ensures |Flatten(entries)| == 2 * |entries|
    ensures forall i :: 0 <= i < |entries| ==>
              Flatten(entries)[2 * i] == entries[i][0] && Flatten(entries)[2 * i + 1] == entries[i][1]
  {
    if |entries| > 0 {
      var rest := entries[1..];
      FlattenPairs(rest);
      assert Flatten(entries) == entries[0] + Flatten(rest);
      forall i | 1 <= i < |entries|
        ensures Flatten(entries)[2 * i] == entries[i][0] && Flatten(entries)[2 * i + 1] == entries[i][1]
      {
        assert entries[i] == rest[i - 1];
        assert 2 * i == 2 + 2 * (i - 1);
      }
    }
  }

  /** Flattening distributes over concatenation. */
  lemma {:induction false} FlattenAppend(a: seq<seq<string>>, b: seq<seq<string>>)
    ensures Flatten(a + b) == Flatten(a) + Flatten(b)
  {
    if |a| > 0 {
      assert (a + b)[1..] == a[1..] + b;
      FlattenAppend(a[1..], b);
    } else {
      assert a + b == b;
    }
  }

  /** Flattening a list splits around its entry i. */
  lemma {:induction false} FlattenAround(es: seq<seq<string>>, i: nat)
    requires i < |es|
    ensures Flatten(es) == Flatten(es[..i]) + es[i] + Flatten(es[i + 1..])
  {
    var before, entry, after := es[..i], es[i], es[i + 1..];
    assert es == before + [entry] + after;
    FlattenAppend(before + [entry], after);
    FlattenAppend(before, [entry]);
    assert Flatten([entry]) == entry + Flatten([]) == entry;
    assert Flatten(es) == Flatten(before) + entry + Flatten(after);
  }

  /**
    The text is the title, the "Questions" heading, the lines of the entries
    before question i, the lines of question i, the lines of the entries
    after it, then the answer key.
   */
  lemma {:induction false} LinesAroundEntry(doc: Document, i: nat)
    requires i < |doc.questionEntries|
    ensures var es := doc.questionEntries;
            Lines(doc) == [doc.heading, QuestionsHeading] + Flatten(es[..i]) + es[i] +
                          (Flatten(es[i + 1..]) + [AnswerKeyHeading] + Flatten(doc.answerEntries))
  {
    FlattenAround(doc.questionEntries, i);
  }

  /** Question entry i occupies the text right after the title, the heading and the entries before it. */
  lemma {:induction false} EntryLinesAt(doc: Document, i: nat)
    requires i < |doc.questionEntries|
    ensures var es := doc.questionEntries;
            2 + |Flatten(es[..i])| + |es[i]| <= |Lines(doc)| &&
            forall k :: 0 <= k < |es[i]| ==> Lines(doc)[2 + |Flatten(es[..i])| + k] == es[i][k]
  {
    var es := doc.questionEntries;
    LinesAroundEntry(doc, i);
    var head := [doc.heading, QuestionsHeading] + Flatten(es[..i]);
    var tail := Flatten(es[i + 1..]) + [AnswerKeyHeading] + Flatten(doc.answerEntries);
    assert Lines(doc) == head + es[i] + tail;
  }

  /** A question's entry: "<index+1>. <stem>", then one line per shown option. */
  lemma QuestionEntryShape(index: nat, q: Question)
    ensures var entry := QuestionEntry(index, q);
            var shown := ShownOptions(q);
            |entry| == 1 + |shown| && entry[0] == Numbered(index + 1, q.stem) &&
            forall j :: 0 <= j < |shown| ==> entry[1 + j] == OptionLine(j, shown[j])
  {
  }

  /** Reading a stem-and-options entry back out of the text it was copied into at `start`. */
  lemma ReadEntry(lines: seq<string>, start: nat, entry: seq<string>, n: nat, stem: string, shown: seq<string>)
    requires start + |entry| <= |lines| && forall k :: 0 <= k < |entry| ==> lines[start + k] == entry[k]
    requires |entry| == 1 + |shown| && entry[0] == Numbered(n, stem)
    requires forall j :: 0 <= j < |shown| ==> entry[1 + j] == OptionLine(j, shown[j])
    ensures start + 1 + |shown| <= |lines| && lines[start] == Numbered(n, stem)
    ensures forall j :: 0 <= j < |shown| ==> lines[start + 1 + j] == OptionLine(j, shown[j])
  {
    assert lines[start + 0] == entry[0];
    forall j | 0 <= j < |shown| ensures lines[start + 1 + j] == OptionLine(j, shown[j]) {
      assert lines[start + (1 + j)] == entry[1 + j];
    }
  }

  /** An entry that is question q's entry sits in the text as its stem line, then its option lines. */
  lemma {:induction false} QuestionEntryLinesAt(doc: Document, i: nat, q: Question)
    requires i < |doc.questionEntries| && doc.questionEntries[i] == QuestionEntry(i, q)
    ensures var lines := Lines(doc);
            var start := 2 + |Flatten(doc.questionEntries[..i])|;
            var shown := ShownOptions(q);
            start + 1 + |shown| <= |lines| &&
            lines[start] == Numbered(i + 1, q.stem) &&
            forall j :: 0 <= j < |shown| ==> lines[start + 1 + j] == OptionLine(j, shown[j])
  {
    EntryLinesAt(doc, i);
    QuestionEntryShape(i, q);
    ReadEntry(Lines(doc), 2 + |Flatten(doc.questionEntries[..i])|, QuestionEntry(i, q), i + 1, q.stem, ShownOptions(q));
  }

  /**
    The lines of question i sit in the text right after the lines of the
    questions before it: first "<i+1>. <stem>", then its lettered options.
   */
  lemma {:induction false} QuestionLinesAt(questions: seq<Question>, title: string, i: nat)
    requires i < |questions|
    ensures var doc := Render(questions, title);
            var lines := Lines(doc);
            var start := 2 + |Flatten(doc.questionEntries[..i])|;
            var shown := ShownOptions(questions[i]);
            start + 1 + |shown| <= |lines| &&
            lines[start] == Numbered(i + 1, questions[i].stem) &&
            forall j :: 0 <= j < |shown| ==> lines[start + 1 + j] == OptionLine(j, shown[j])
  {
    var doc := Render(questions, title);
    assert doc.questionEntries[i] == QuestionEntry(i, questions[i]);
    QuestionEntryLinesAt(doc, i, questions[i]);
  }

  /**
    The text starts with the title and the "Questions" heading; the
    "Answer Key" heading follows every question line, and after it come two
    lines per question, the numbered answer and the reference, in order.
   */
  lemma LinesLayout(questions: seq<Question>, title: string)
    ensures var doc := Render(questions, title);
            var lines := Lines(doc);
            var q := |Flatten(doc.questionEntries)|;
            |lines| == 3 + q + 2 * |questions| &&
            lines[0] == title && lines[1] == QuestionsHeading && lines[2 + q] == AnswerKeyHeading &&
            forall i :: 0 <= i < |questions| ==>
              lines[3 + q + 2 * i] == Numbered(i + 1, questions[i].answer) &&
              lines[3 + q + 2 * i + 1] == ReferenceLine(questions[i].ref)
  {
    var doc := Render(questions, title);
    FlattenPairs(doc.answerEntries);
    var lines := Lines(doc);
    var q := |Flatten(doc.questionEntries)|;
    forall i | 0 <= i < |questions|
      ensures lines[3 + q + 2 * i] == Numbered(i + 1, questions[i].answer)
      ensures lines[3 + q + 2 * i + 1] == ReferenceLine(questions[i].ref)
    {
      assert lines[3 + q + 2 * i] == Flatten(doc.answerEntries)[2 * i];
      assert lines[3 + q + 2 * i + 1] == Flatten(doc.answerEntries)[2 * i + 1];
      assert doc.answerEntries[i] == AnswerEntry(i, questions[i]);
    }
  }
}
