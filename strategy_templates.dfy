/**
 * The template decisions that prompts/strategies/freestyle_prompt.py,
 * prompts/strategies/generate_text_prompt.py and
 * prompts/strategies/freestyle_text_prompt.py make before calling the LLM:
 * the file type, the markup language and its rules, the numbered examples
 * and which of three message templates is used. The rule texts themselves
 * are named by a tag, and the LLM chain is outside the model.
 */
module StrategyTemplates {

  import opened Wrappers
  import opened Values
  import opened Strings

  // ---------------------------------------------------------------------
  // Numbered examples
  // ---------------------------------------------------------------------

  const ExampleWord: string := "예시 "
  const BlankLine: string := "\n\n"

  /** `f"예시 {i+1}:\n{example}"` for the example at (0-based) position `i`. */
  function ExampleEntry(i: nat, example: string): (r: string)
    ensures |r| == |ExampleWord| + |Decimal(i + 1)| + 2 + |example|
    ensures r[..|ExampleWord|] == ExampleWord
    ensures r[|ExampleWord|..|ExampleWord| + |Decimal(i + 1)|] == Decimal(i + 1)
    ensures r[|r| - |example|..] == example
  {
    var head := ExampleWord + Decimal(i + 1);
    assert (head + ":\n" + example)[..|head|] == head;
    head + ":\n" + example
  }

  function Entries(examples: seq<string>): (r: seq<string>)
    ensures |r| == |examples|
    ensures forall i :: 0 <= i < |examples| ==> r[i] == ExampleEntry(i, examples[i])
  {
    seq(|examples|, i requires 0 <= i < |examples| => ExampleEntry(i, examples[i]))
  }

  /** `"\n\n".join(f"예시 {i+1}:\n{example}" for i, example in enumerate(examples))`. */
  function ExamplesText(examples: seq<string>): string
  {
    Join(Entries(examples), BlankLine)
  }

  /**
   * Numbering runs from 1 in list order: the first example alone is "예시 1",
   * and one more example adds a blank line and the next number at the end.
   */
  lemma ExamplesNumbered(examples: seq<string>, e: string)
    ensures ExamplesText([e]) == ExampleEntry(0, e)
    ensures Decimal(0 + 1) == "1"
    ensures examples != [] ==> ExamplesText(examples + [e]) == ExamplesText(examples) + BlankLine + ExampleEntry(|examples|, e)
  {
    if examples != [] {
      assert Entries(examples + [e]) == Entries(examples) + [ExampleEntry(|examples|, e)];
      JoinSnoc(Entries(examples), ExampleEntry(|examples|, e), BlankLine);
    }
  }

  // ---------------------------------------------------------------------
  // File type and markup
  // ---------------------------------------------------------------------

  /**
   * `current_program.get('fileType', '').lower() if current_program else ''`:
   * a non-dict program has no `get`, and a non-str file type has no `lower`.
   */
  function FileTypeOf(currentProgram: Value): (r: Result<string, Fault>)
    ensures !Truthy(currentProgram) ==> r == Ok("")
    ensures currentProgram.Obj? && Truthy(currentProgram) && "fileType" !in currentProgram.fields ==> r == Ok("")
    ensures r.Ok? ==> Lower(r.value) == r.value
    ensures currentProgram.Obj? && "fileType" in currentProgram.fields && currentProgram.fields["fileType"].Str? ==>
      r == Ok(Lower(currentProgram.fields["fileType"].s))
  {
    LowerIdempotent(if currentProgram.Obj? && "fileType" in currentProgram.fields && currentProgram.fields["fileType"].Str?
                    then currentProgram.fields["fileType"].s else "");
    if !Truthy(currentProgram) then Ok("")
    else match currentProgram
      case Obj(fields) =>
        (match GetOr(fields, "fileType", Str(""))
         case Str(t) => Ok(Lower(t))
         case _ => Err(AttributeError("lower")))
      case _ => Err(AttributeError("get"))
  }

  /** Matching is case-insensitive: two spellings of a file type that lower alike choose alike. */
  lemma FileTypeCaseInsensitive(fields: map<string, Value>, t1: string, t2: string)
    requires Lower(t1) == Lower(t2)
    ensures FileTypeOf(Obj(fields["fileType" := Str(t1)])) == FileTypeOf(Obj(fields["fileType" := Str(t2)]))
  {
  }

  datatype Markup = Html | Xml

  /** The instruction texts, by what they instruct. */
  datatype Rules =
    | NoRules            // markup_instruction left ""
    | HtmlTableRules     // Word/Excel: HTML tables
    | HwpXmlRules        // HWP: HWPML XML
    | PptHtmlRules       // PPT as HTML with CSS styles
    | PptXmlRules        // PPT as PresentationML XML

  datatype MarkupChoice = MarkupChoice(markup: Markup, rules: Rules)

  /** The if/elif chain of the freestyle strategy. */
  function FreestyleMarkup(fileType: string): (r: MarkupChoice)
    ensures r.markup == Xml <==> fileType == "hwp"
    ensures r.rules == HtmlTableRules <==> fileType in {"word", "excel"}
    ensures r.rules == HwpXmlRules <==> fileType == "hwp"
    ensures r.rules == NoRules <==> fileType !in {"word", "excel", "hwp", "ppt"}
    ensures fileType == "ppt" ==> r == MarkupChoice(Html, PptHtmlRules)
  {
    if fileType in ["word", "excel"] then MarkupChoice(Html, HtmlTableRules)
    else if fileType == "hwp" then MarkupChoice(Xml, HwpXmlRules)
    else if fileType == "ppt" then MarkupChoice(Html, PptHtmlRules)
    else MarkupChoice(Html, NoRules)
  }

  /** The if/elif chain of the text-generation strategy. */
  function GenerateTextMarkup(fileType: string): (r: MarkupChoice)
    ensures r.markup == Xml <==> fileType in {"hwp", "ppt"}
    ensures r.rules == HtmlTableRules <==> fileType in {"word", "excel"}
    ensures r.rules == HwpXmlRules <==> fileType == "hwp"
    ensures r.rules == NoRules <==> fileType !in {"word", "excel", "hwp", "ppt"}
    ensures fileType == "ppt" ==> r == MarkupChoice(Xml, PptXmlRules)
  {
    if fileType in ["word", "excel"] then MarkupChoice(Html, HtmlTableRules)
    else if fileType == "hwp" then MarkupChoice(Xml, HwpXmlRules)
    else if fileType == "ppt" then MarkupChoice(Xml, PptXmlRules)
    else MarkupChoice(Html, NoRules)
  }

  /** The two tables agree on every file type except "ppt", where they choose different markup. */
  lemma TablesDifferOnlyOnPpt(fileType: string)
    ensures FreestyleMarkup(fileType) == GenerateTextMarkup(fileType) <==> fileType != "ppt"
  {
  }

  // ---------------------------------------------------------------------
  // Template choice
  // ---------------------------------------------------------------------

  /** The three message lists: with examples, with the program only, or generic. */
  datatype Template = ExamplesTemplate(examplesText: string) | ProgramTemplate | GenericTemplate

  /**
   * `if current_program: (if examples: ... else: ...) else: ...`; the
   * examples list is `request_data.get('examples', [])`.
   */
  function ChooseTemplate(currentProgram: Value, examples: seq<string>): (t: Template)
    ensures t.ExamplesTemplate? <==> Truthy(currentProgram) && examples != []
    ensures t.GenericTemplate? <==> !Truthy(currentProgram)
    ensures t.ExamplesTemplate? ==> t.examplesText == ExamplesText(examples)
  {
    if Truthy(currentProgram) then
      if examples != [] then ExamplesTemplate(ExamplesText(examples)) else ProgramTemplate
    else GenericTemplate
  }

  /** What the freestyle and text-generation strategies decide before building the chain. */
  datatype Plan = Plan(markup: MarkupChoice, template: Template)

  /** `generate_prompt` of the freestyle strategy, up to the LLM call. */
  function FreestylePlan(currentProgram: Value, examples: seq<string>): (r: Result<Plan, Fault>)
    ensures !Truthy(currentProgram) ==> r == Ok(Plan(MarkupChoice(Html, NoRules), GenericTemplate))
    ensures r.Ok? ==> r.value.template == ChooseTemplate(currentProgram, examples)
    ensures r.Err? <==> FileTypeOf(currentProgram).Err?
  {
    match FileTypeOf(currentProgram)
    case Err(e) => Err(e)
    case Ok(t) => Ok(Plan(FreestyleMarkup(t), ChooseTemplate(currentProgram, examples)))
  }

  /** `generate_prompt` of the text-generation strategy, up to the LLM call. */
  function GenerateTextPlan(currentProgram: Value, examples: seq<string>): (r: Result<Plan, Fault>)
    ensures !Truthy(currentProgram) ==> r == Ok(Plan(MarkupChoice(Html, NoRules), GenericTemplate))
    ensures r.Ok? ==> r.value.template == ChooseTemplate(currentProgram, examples)
    ensures r.Err? <==> FileTypeOf(currentProgram).Err?
  {
    match FileTypeOf(currentProgram)
    case Err(e) => Err(e)
    case Ok(t) => Ok(Plan(GenerateTextMarkup(t), ChooseTemplate(currentProgram, examples)))
  }

  /** A PowerPoint program gets HTML from the freestyle strategy and PresentationML from the text-generation strategy. */
  lemma PptPlansDiffer(fields: map<string, Value>, examples: seq<string>)
    requires "fileType" in fields && fields["fileType"] == Str("PPT")
    ensures FreestylePlan(Obj(fields), examples).Ok? && FreestylePlan(Obj(fields), examples).value.markup == MarkupChoice(Html, PptHtmlRules)
    ensures GenerateTextPlan(Obj(fields), examples).Ok? && GenerateTextPlan(Obj(fields), examples).value.markup == MarkupChoice(Xml, PptXmlRules)
  {
    assert Truthy(Obj(fields));
    assert Lower("PPT") == "ppt";
  }
}
