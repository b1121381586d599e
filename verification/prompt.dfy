/**
  The prompt the generation route sends to the assistant (`constructPrompt`).
  The template is kept as its fixed text chunks around the variable parts:
  the focus instruction, and the three parameter lines LEVEL, ITEM-TYPE(S)
  and NUMBER OF ITEMS.
 */
module Prompt {
  import opened JsValues
  import opened Decimal
  import opened Strings
  import opened QuestionOptions

  // ----- The closed label maps -----

  function LevelLabel(d: Difficulty): string
  {
    match d
    case Easy => "Beginner"
    case Medium => "Intermediate"
    case Hard => "Expert"
  }

  /** Reads a level label back; the inverse of the level map. */
  function LevelOfLabel(s: string): Option<Difficulty>
  {
    if s == "Beginner" then Some(Easy)
    else if s == "Intermediate" then Some(Medium)
    else if s == "Expert" then Some(Hard)
    else None
  }

  function TypeLabel(t: QuestionType): string
  {
    match t
    case Mcq => "MCQ"
    case TrueFalse => "True/False"
    case ShortAnswer => "Short-Answer"
  }

  /** The type a label names, if any. */
  function TypeOfLabel(s: string): Option<QuestionType>
  {
    if s == "MCQ" then Some(Mcq)
    else if s == "True/False" then Some(TrueFalse)
    else if s == "Short-Answer" then Some(ShortAnswer)
    else None
  }

  /** Each type has its own label, and the label reads back as that type. */
  lemma TypeLabelRoundTrip(t: QuestionType)
    ensures TypeOfLabel(TypeLabel(t)) == Some(t)
  {
  }

  /** Each difficulty has its own label, and the label reads back as that difficulty. */
  lemma LevelLabelRoundTrip(d: Difficulty)
    ensures LevelOfLabel(LevelLabel(d)) == Some(d)
    ensures '\n' !in LevelLabel(d)
  {
  }

  // ----- ITEM-TYPE(S): Object.entries, filter, map, join -----

  /** `Object.entries(options.questionTypes)`, in the record's key order. */
  function Entries(qt: QuestionTypes): seq<(QuestionType, bool)>
  {
    [(Mcq, qt.mcq), (TrueFalse, qt.trueFalse), (ShortAnswer, qt.shortAnswer)]
  }

  /** `.filter(([, checked]) => checked)` keeping the keys. */
  function CheckedKeys(entries: seq<(QuestionType, bool)>): seq<QuestionType>
  {
    if |entries| == 0 then []
    else (if entries[0].1 then [entries[0].0] else []) + CheckedKeys(entries[1..])
  }

  /** `.map(([type]) => typeMap[type])` */
  function Labels(keys: seq<QuestionType>): (r: seq<string>)
    ensures |r| == |keys|
  {
    seq(|keys|, i requires 0 <= i < |keys| => TypeLabel(keys[i]))
  }

  function CheckedLabels(qt: QuestionTypes): seq<string>
  {
    Labels(CheckedKeys(Entries(qt)))
  }

  /** The ITEM-TYPE(S) value: the checked labels joined by ", ". */
  function ItemTypesText(qt: QuestionTypes): string
  {
    Join(CheckedLabels(qt), ", ")
  }

  /** A key is kept by the filter exactly when one of its entries is checked. */
  lemma {:induction false} CheckedKeysMembers(entries: seq<(QuestionType, bool)>, t: QuestionType)
    ensures t in CheckedKeys(entries) <==> (t, true) in entries
  {
    if |entries| > 0 {
      CheckedKeysMembers(entries[1..], t);
      assert entries == [entries[0]] + entries[1..];
    }
  }

  predicate StrictlyRanked(keys: seq<QuestionType>)
  {
    forall i, j :: 0 <= i < j < |keys| ==> Rank(keys[i]) < Rank(keys[j])
  }

  /** The filter keeps the entries' order. */
  lemma {:induction false} CheckedKeysOrdered(entries: seq<(QuestionType, bool)>)
    requires forall i, j :: 0 <= i < j < |entries| ==> Rank(entries[i].0) < Rank(entries[j].0)
    ensures StrictlyRanked(CheckedKeys(entries))
    ensures forall t :: t in CheckedKeys(entries) ==> exists i :: 0 <= i < |entries| && entries[i].0 == t
  {
    if |entries| > 0 {
      var rest := CheckedKeys(entries[1..]);
      CheckedKeysOrdered(entries[1..]);
      forall t | t in rest ensures Rank(entries[0].0) < Rank(t) {
        var i :| 0 <= i < |entries[1..]| && entries[1..][i].0 == t;
        assert entries[i + 1].0 == t;
      }
      forall t | t in CheckedKeys(entries) ensures exists i :: 0 <= i < |entries| && entries[i].0 == t {
        if t in rest {
          var i :| 0 <= i < |entries[1..]| && entries[1..][i].0 == t;
          assert entries[i + 1].0 == t;
        } else {
          assert entries[0].0 == t;
        }
      }
    }
  }

  /** The filter over the three entries keeps one key per checked box. */
  lemma CheckedCount(qt: QuestionTypes)
    ensures |CheckedKeys(Entries(qt))| ==
              (if qt.mcq then 1 else 0) + (if qt.trueFalse then 1 else 0) + (if qt.shortAnswer then 1 else 0)
  {
    var es := Entries(qt);
    assert CheckedKeys(es[1..][1..][1..]) == [];
    assert |CheckedKeys(es[1..][1..])| == (if qt.shortAnswer then 1 else 0);
    assert |CheckedKeys(es[1..])| == (if qt.trueFalse then 1 else 0) + (if qt.shortAnswer then 1 else 0);
  }

  /** The ITEM-TYPE(S) list names exactly the checked types, one per checked box. */
  lemma TypesListed(qt: QuestionTypes)
    ensures forall t :: TypeLabel(t) in CheckedLabels(qt) <==> IsChecked(qt, t)
    ensures |CheckedLabels(qt)| == (if qt.mcq then 1 else 0) + (if qt.trueFalse then 1 else 0) + (if qt.shortAnswer then 1 else 0)
  {
    var es := Entries(qt);
    var ks := CheckedKeys(es);
    var ls := CheckedLabels(qt);
    CheckedCount(qt);
    forall t ensures TypeLabel(t) in ls <==> IsChecked(qt, t) {
      CheckedKeysMembers(es, t);
      if TypeLabel(t) in ls {
        var i :| 0 <= i < |ks| && ls[i] == TypeLabel(t);
        assert TypeLabel(ks[i]) == TypeLabel(t);
        assert ks[i] == t;
      }
      if IsChecked(qt, t) {
        assert (t, true) in es;
        var i :| 0 <= i < |ks| && ks[i] == t;
        assert ls[i] == TypeLabel(t);
      }
    }
  }

  /** Each listed label names a type. */
  lemma ListedLabelNamesType(qt: QuestionTypes, i: nat)
    requires i < |CheckedLabels(qt)|
    ensures TypeOfLabel(CheckedLabels(qt)[i]) == Some(CheckedKeys(Entries(qt))[i])
  {
    TypeLabelRoundTrip(CheckedKeys(Entries(qt))[i]);
  }

  /** The ITEM-TYPE(S) list follows the record's key order, so no label appears twice. */
  lemma TypesInKeyOrder(qt: QuestionTypes)
    ensures forall i :: 0 <= i < |CheckedLabels(qt)| ==> TypeOfLabel(CheckedLabels(qt)[i]).Some?
    ensures forall i, j :: 0 <= i < j < |CheckedLabels(qt)| ==>
              Rank(TypeOfLabel(CheckedLabels(qt)[i]).value) < Rank(TypeOfLabel(CheckedLabels(qt)[j]).value)
    ensures forall i, j :: 0 <= i < j < |CheckedLabels(qt)| ==> CheckedLabels(qt)[i] != CheckedLabels(qt)[j]
  {
    var ks := CheckedKeys(Entries(qt));
    CheckedKeysOrdered(Entries(qt));
    forall i | 0 <= i < |CheckedLabels(qt)| ensures TypeOfLabel(CheckedLabels(qt)[i]) == Some(ks[i]) {
      ListedLabelNamesType(qt, i);
    }
  }

  /** No label holds a comma or a line break. */
  lemma LabelChars(qt: QuestionTypes)
    ensures forall k :: 0 <= k < |CheckedLabels(qt)| ==> ',' !in CheckedLabels(qt)[k] && '\n' !in CheckedLabels(qt)[k]
  {
    var ks := CheckedKeys(Entries(qt));
    forall k | 0 <= k < |ks| ensures ',' !in TypeLabel(ks[k]) && '\n' !in TypeLabel(ks[k]) {
      match ks[k]
      case Mcq =>
      case TrueFalse =>
      case ShortAnswer =>
    }
  }

  /**
    Splitting the ITEM-TYPE(S) value at ", " recovers the checked labels; with
    nothing checked the value is the empty string, not an error.
   */
  lemma ItemTypesReadBack(qt: QuestionTypes)
    ensures CheckedLabels(qt) == [] <==> !(qt.mcq || qt.trueFalse || qt.shortAnswer)
    ensures CheckedLabels(qt) == [] ==> ItemTypesText(qt) == ""
    ensures CheckedLabels(qt) != [] ==> Split(ItemTypesText(qt), ", ") == CheckedLabels(qt)
    ensures '\n' !in ItemTypesText(qt)
  {
    TypesListed(qt);
    LabelChars(qt);
    if CheckedLabels(qt) != [] {
      SplitJoin(CheckedLabels(qt), ", ");
    }
    JoinChars(CheckedLabels(qt), ", ", '\n');
  }

  // ----- The focus instruction -----

  // Written in short pieces: the verifier settles `'\n' !in` piece by piece
  // (see FocusTextOneLine), but not over one literal this long.
  const FocusLead := "IMPORTANT: The user " + "has specified a " + "focus area. " + "Prioritize generating " + "questions from the " + "parts of the " + "document related to: \""
  const FocusClose := "\"."

  lemma FocusTextOneLine()
    ensures '\n' !in FocusLead && '\n' !in FocusClose
  {
    var p1, p2, p3, p4 := "IMPORTANT: The user ", "has specified a ", "focus area. ", "Prioritize generating ";
    var p5, p6, p7 := "questions from the ", "parts of the ", "document related to: \"";
    assert '\n' !in p1 && '\n' !in p2 && '\n' !in p3 && '\n' !in p4;
    assert '\n' !in p5 && '\n' !in p6 && '\n' !in p7;
    var head := p1 + p2 + p3 + p4;
    assert '\n' !in head;
    assert FocusLead == head + p5 + p6 + p7;
  }

  /** `focusArea ? \`IMPORTANT: ... "${focusArea}".\` : ''` */
  function FocusInstruction(focusArea: string): string
  {
    if focusArea != "" then FocusLead + focusArea + FocusClose else ""
  }

  /**
    An empty focus area gives no instruction at all; a non-empty one gives an
    instruction that quotes it verbatim between the fixed lead and close.
   */
  lemma FocusQuotedVerbatim(focusArea: string)
    ensures focusArea == "" <==> FocusInstruction(focusArea) == ""
    ensures focusArea != "" ==>
              var f := FocusInstruction(focusArea);
              |f| == |FocusLead| + |focusArea| + |FocusClose| &&
              f[..|FocusLead|] == FocusLead &&
              f[|FocusLead|..|FocusLead| + |focusArea|] == focusArea &&
              f[|FocusLead| + |focusArea|..] == FocusClose
  {
    if focusArea != "" {
      var f := FocusInstruction(focusArea);
      assert f[..|FocusLead|] == FocusLead;
      assert f[|FocusLead|..|FocusLead| + |focusArea|] == focusArea;
      assert f[|FocusLead| + |focusArea|..] == FocusClose;
    }
  }

  // ----- The template -----

  const Newline := "\n"

  /** The first two (blank) lines and the role line. */
  const Opening := "\n\nYou are a professional assessment-item writer."

  /** From the blank line after the focus instruction down to the PARAMETERS heading. */
  const Briefing :=
    "\nTASK:" +
    "\n1.  Read the provided PDF document." +
    "\n2.  For the given cognitive LEVEL, calibrate the depth and phrasing of your questions:" +
    "\n    *   **Beginner:** Focus on recall and basic understanding of the material as presented." +
    "\n    *   **Intermediate:** Focus on application and light analysis, requiring the user to connect concepts." +
    "\n    *   **Expert:** Focus on synthesis, evaluation, and edge-case reasoning, challenging the user to apply material to new scenarios." +
    "\n3.  Write the requested NUMBER of ITEMS in the chosen ITEM-TYPE(S):" +
    "\n    *   **MCQ:** Provide a stem, 4 plausible options (A-D), and identify the single correct answer." +
    "\n    *   **True/False:** Provide a single, clear assertion." +
    "\n    *   **Short-Answer:** Create a question where the expected open response is concise (around 30 words)." +
    "\n" +
    "\nRULES:" +
    "\n*   Do not repeat the PDF content verbatim\U{2014}paraphrase." +
    "\n*   Cover different sections of the document to ensure broad coverage." +
    "\n*   For MCQs & T/F, ensure distractors are plausible and avoid grammatical clues." +
    "\n*   For the \"ref\" field in the JSON, provide a page number or other reference from the source." +
    "\n  " +
    "\n" +
    "\nPlease generate quiz items based on the following parameters, returning the output as a single, valid JSON object." +
    "\n" +
    "\nPARAMETERS:"

  /** From the blank line after NUMBER OF ITEMS to the end: the expected JSON shape. */
  const SchemaBlock :=
    "\nThe JSON object must have a single key \"questions\", containing an array of question objects with this exact structure:" +
    "\n{" +
    "\n  \"stem\": \"Full text of the question\"," +
    "\n  \"type\": \"mcq, trueFalse, or shortAnswer\"," +
    "\n  \"options\": [\"Array of choices for mcq type\"]," +
    "\n  \"answer\": \"The correct answer. For mcq, use 'A', 'B', etc.\"," +
    "\n  \"ref\": \"Citation from source document\"" +
    "\n}" +
    "\n  "

  const LevelKey := "*   **LEVEL:** "
  const TypesKey := "*   **ITEM-TYPE(S):** "
  const CountKey := "*   **NUMBER OF ITEMS:** "

  function LevelLine(options: Config): string
  {
    LevelKey + LevelLabel(options.difficulty)
  }

  function TypesLine(options: Config): string
  {
    TypesKey + ItemTypesText(options.questionTypes)
  }

  function CountLine(options: Config): string
  {
    CountKey + IntToString(options.numQuestions)
  }

  /** The fixed text of the template, in the three chunks around its variable parts. */
  datatype Template = Template(opening: string, briefing: string, schema: string)

  const SourceTemplate := Template(Opening, Briefing, SchemaBlock)

  /** Everything before the LEVEL line: the instructions with the focus instruction in its slot. */
  function Preamble(t: Template, focusArea: string): string
  {
    t.opening + Newline + FocusInstruction(focusArea) + Newline + t.briefing
  }

  /** The template filled in with the options and the focus area. */
  function Render(t: Template, options: Config, focusArea: string): string
  {
    Preamble(t, focusArea) + Newline + LevelLine(options) + Newline + TypesLine(options) +
    Newline + CountLine(options) + Newline + t.schema
  }

  /** `constructPrompt(options, fileName, focusArea)`; the file name is accepted and not used. */
  function ConstructPrompt(options: Config, fileName: string, focusArea: string): string
  {
    Render(SourceTemplate, options, focusArea)
  }

  /** The file name never affects the prompt. */
  lemma FileNameIgnored(options: Config, name1: string, name2: string, focusArea: string)
    ensures ConstructPrompt(options, name1, focusArea) == ConstructPrompt(options, name2, focusArea)
  {
  }

  /** Splitting a text built as pre, three single lines and post, all joined by line breaks. */
  lemma {:induction false} TemplateLines(pre: string, l1: string, l2: string, l3: string, post: string)
    requires '\n' !in l1 && '\n' !in l2 && '\n' !in l3
    ensures Split(pre + Newline + l1 + Newline + l2 + Newline + l3 + Newline + post, Newline) ==
              Split(pre, Newline) + [l1, l2, l3] + Split(post, Newline)
  {
    assert Newline == ['\n'];
    SplitSingle(l1, Newline);
    SplitSingle(l2, Newline);
    SplitSingle(l3, Newline);
    SplitAround(pre + Newline + l1 + Newline + l2 + Newline + l3, '\n', post);
    SplitAround(pre + Newline + l1 + Newline + l2, '\n', l3);
    SplitAround(pre + Newline + l1, '\n', l2);
    SplitAround(pre, '\n', l1);
  }

  /** The three parameter lines are whole lines of the prompt, between the preamble and the schema. */
  lemma RenderLines(t: Template, options: Config, focusArea: string)
    ensures Split(Render(t, options, focusArea), Newline) ==
              Split(Preamble(t, focusArea), Newline) +
              [LevelLine(options), TypesLine(options), CountLine(options)] +
              Split(t.schema, Newline)
  {
    LevelLabelRoundTrip(options.difficulty);
    ItemTypesReadBack(options.questionTypes);
    IntToStringChars(options.numQuestions);
    assert '\n' !in LevelKey && '\n' !in TypesKey && '\n' !in CountKey;
    TemplateLines(Preamble(t, focusArea), LevelLine(options), TypesLine(options), CountLine(options), t.schema);
  }

  /**
    The preamble's lines are the opening's, then the focus instruction's,
    then the briefing's: an empty focus area leaves one blank line in the
    slot, and a one-line focus area gives exactly the instruction as a line.
   */
  lemma PreambleLines(t: Template, focusArea: string)
    ensures Split(Preamble(t, focusArea), Newline) ==
              Split(t.opening, Newline) + Split(FocusInstruction(focusArea), Newline) + Split(t.briefing, Newline)
    ensures focusArea == "" ==> Split(FocusInstruction(focusArea), Newline) == [""]
    ensures '\n' !in focusArea ==> Split(FocusInstruction(focusArea), Newline) == [FocusInstruction(focusArea)]
  {
    assert Newline == ['\n'];
    SplitAround(t.opening + Newline + FocusInstruction(focusArea), '\n', t.briefing);
    SplitAround(t.opening, '\n', FocusInstruction(focusArea));
    if '\n' !in focusArea {
      FocusTextOneLine();
      SplitSingle(FocusInstruction(focusArea), Newline);
    }
  }

  /** Reads the LEVEL line back into a difficulty. */
  function ReadLevel(line: string): Option<Difficulty>
  {
    if LevelKey <= line then LevelOfLabel(line[|LevelKey|..]) else None
  }

  /** Reads the ITEM-TYPE(S) line back into its list of labels. */
  function ReadTypes(line: string): Option<seq<string>>
  {
    if TypesKey <= line then Some(Split(line[|TypesKey|..], ", ")) else None
  }

  /** Reads the NUMBER OF ITEMS line back into a number. */
  function ReadCount(line: string): Option<int>
  {
    if CountKey <= line then ParseInt(line[|CountKey|..]) else None
  }

  /**
    Reading the prompt's parameter lines back gives the options: the LEVEL
    line carries the difficulty's label, ITEM-TYPE(S) the checked labels (one
    empty piece when none is checked), and NUMBER OF ITEMS `numQuestions`
    unchanged.
   */
  lemma RenderCarriesOptions(t: Template, options: Config, focusArea: string)
    ensures var lines := Split(Render(t, options, focusArea), Newline);
            var k := |Split(Preamble(t, focusArea), Newline)|;
            k + 2 < |lines| &&
            ReadLevel(lines[k]) == Some(options.difficulty) &&
            ReadTypes(lines[k + 1]) ==
              Some(if CheckedLabels(options.questionTypes) == [] then [""] else CheckedLabels(options.questionTypes)) &&
            ReadCount(lines[k + 2]) == Some(options.numQuestions)
  {
    RenderLines(t, options, focusArea);
    LevelLabelRoundTrip(options.difficulty);
    ItemTypesReadBack(options.questionTypes);
    IntToStringRoundTrip(options.numQuestions);
    var l1, l2, l3 := LevelLine(options), TypesLine(options), CountLine(options);
    assert l1[|LevelKey|..] == LevelLabel(options.difficulty);
    assert l2[|TypesKey|..] == ItemTypesText(options.questionTypes);
    assert l3[|CountKey|..] == IntToString(options.numQuestions);
  }
}
