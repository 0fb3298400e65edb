/**
 * The four plain prompt templates under prompts/: `QuestionPrompt` and
 * `SummaryPrompt` prefix a fixed lead to the text; `FreestylePrompt` and
 * `GenerateTextPrompt` wrap it between a prefix and a suffix, with an
 * optional example in between. Their constructors only fill in defaults,
 * so each prompt object is a value.
 */
module SimplePrompts {

  import opened Wrappers
  import opened Strings

  /** Python's `x or default` for an optional str: None and "" fall back to the default. */
  function OrDefault(x: Option<string>, default: string): (r: string)
    ensures x.Some? && x.value != [] ==> r == x.value
    ensures x.None? || x.value == [] ==> r == default
  {
    if x.Some? && x.value != [] then x.value else default
  }

  const ExampleLead: string := "\n\n예시:\n"

  /** `f"\n\n예시:\n{example}" if example else ""`. */
  function ExamplePart(example: Option<string>): (r: string)
    ensures r == [] <==> example.None? || example.value == []
    ensures r != [] ==> StartsWith(r, ExampleLead) && r[|ExampleLead|..] == example.value
  {
    if example.Some? && example.value != [] then ExampleLead + example.value else ""
  }

  /** The shared layout: prefix, a blank line, the text and example part, a blank line, the suffix. */
  function Layout(prefix: string, text: string, examplePart: string, suffix: string): string
  {
    prefix + "\n\n" + text + examplePart + "\n\n" + suffix
  }

  /** A layout begins with its prefix, ends with its suffix and carries the text right after the prefix's blank line. */
  lemma LayoutParts(prefix: string, text: string, examplePart: string, suffix: string)
    ensures var r := Layout(prefix, text, examplePart, suffix);
      && |r| == |prefix| + |text| + |examplePart| + |suffix| + 4
      && r[..|prefix|] == prefix
      && r[|prefix|..|prefix| + 2] == "\n\n"
      && r[|prefix| + 2..|prefix| + 2 + |text|] == text
      && r[|r| - |suffix|..] == suffix
  {
    var r := Layout(prefix, text, examplePart, suffix);
    assert r == prefix + ("\n\n" + text + examplePart + "\n\n" + suffix);
    assert r == (prefix + "\n\n" + text) + (examplePart + "\n\n" + suffix);
    assert r == (prefix + "\n\n" + text + examplePart + "\n\n") + suffix;
  }

  /** With the other parts fixed, a layout determines its text. */
  lemma LayoutInjective(prefix: string, t1: string, t2: string, examplePart: string, suffix: string)
    requires Layout(prefix, t1, examplePart, suffix) == Layout(prefix, t2, examplePart, suffix)
    ensures t1 == t2
  {
    LayoutParts(prefix, t1, examplePart, suffix);
    LayoutParts(prefix, t2, examplePart, suffix);
  }

  // ---------------------------------------------------------------------
  // prompts/freestyle_prompt.py
  // ---------------------------------------------------------------------

  const FreestyleDefaultPrefix: string :=
    "당신은 사용자의 주제나 질문에 대해 전문적인인 의견을 제시하는 역할입니다.\n\n"
    + "다음 지침을 따르세요:\n"
    + "1. 주어진 내용을 이해하고, 다양한 관점에서 자유롭게 사고합니다.\n"
    + "2. 개인적인 의견, 창의적인 아이디어가 허용됩니다.\n"
    + "3. 전문적인 지식이 필요할 경우 명확하게 설명하거나 유추합니다.\n"
    + "4. 문장 구조는 유연하되, 읽기 쉽게 구성하세요.\n"
    + "5. 질문이 명확하지 않더라도 자유롭게 해석해도 좋습니다.\n\n"
    + "다음에 대해 자유롭게 답변해주세요:"

  const FreestyleDefaultSuffix: string := "당신의 생각: "

  datatype FreestylePrompt = FreestylePrompt(prefix: string, suffix: string, example: Option<string>)

  /** `FreestylePrompt.__init__`: a missing or empty prefix or suffix takes the default; the example is kept as given. */
  function NewFreestyle(prefix: Option<string>, suffix: Option<string>, example: Option<string>): (p: FreestylePrompt)
    ensures p.prefix != [] && p.suffix != [] && p.example == example
    ensures prefix.None? || prefix.value == [] ==> p.prefix == FreestyleDefaultPrefix
    ensures prefix.Some? && prefix.value != [] ==> p.prefix == prefix.value
    ensures suffix.None? || suffix.value == [] ==> p.suffix == FreestyleDefaultSuffix
    ensures suffix.Some? && suffix.value != [] ==> p.suffix == suffix.value
  {
    FreestylePrompt(OrDefault(prefix, FreestyleDefaultPrefix), OrDefault(suffix, FreestyleDefaultSuffix), example)
  }

  /** `FreestylePrompt.generate_prompt`. */
  function FreestyleGenerate(p: FreestylePrompt, text: string): (r: string)
    ensures |r| == |p.prefix| + |text| + |ExamplePart(p.example)| + |p.suffix| + 4
    ensures StartsWith(r, p.prefix)
    ensures r[|r| - |p.suffix|..] == p.suffix
    ensures r[|p.prefix| + 2..|p.prefix| + 2 + |text|] == text
  {
    LayoutParts(p.prefix, text, ExamplePart(p.example), p.suffix);
    Layout(p.prefix, text, ExamplePart(p.example), p.suffix)
  }

  /** Without a (non-empty) example, the prompt is exactly prefix, text and suffix separated by blank lines. */
  lemma FreestyleWithoutExample(prefix: Option<string>, suffix: Option<string>, example: Option<string>, text: string)
    requires example.None? || example.value == []
    ensures var p := NewFreestyle(prefix, suffix, example);
      FreestyleGenerate(p, text) == p.prefix + "\n\n" + text + "\n\n" + p.suffix
  {
    var p := NewFreestyle(prefix, suffix, example);
    assert ExamplePart(example) == [];
    assert p.prefix + "\n\n" + text + [] == p.prefix + "\n\n" + text;
  }

  // ---------------------------------------------------------------------
  // prompts/generate_text_prompt.py
  // ---------------------------------------------------------------------

  const DefaultTone: string := "전문문적"

  const GeneratePrefixHead: string := "당신은 "

  const GeneratePrefixTail: string :=
    " 톤으로 텍스트를 생성하는 작가입니다.\n\n"
    + "다음 지침을 따라 작성하세요:\n"
    + "1. 주어진 주제에 맞는 문장을 구성하세요.\n"
    + "2. 자연스럽고 논리적인 흐름을 유지하세요.\n"
    + "3. 창의적이고 구체적인 내용을 포함하면 좋습니다.\n"
    + "4. 문장은 깔끔하고 오탈자가 없어야 합니다.\n"
    + "5. 텍스트의 목적이나 의도를 고려하여 적절한 스타일로 작성하세요.\n\n"
    + "다음 주제를 바탕으로 텍스트를 작성하세요:"

  const GenerateDefaultSuffix: string := "작성된 텍스트: "

  /** The default prefix, with the tone interpolated after the head. */
  function GenerateDefaultPrefix(tone: string): (r: string)
    ensures |r| == |GeneratePrefixHead| + |tone| + |GeneratePrefixTail|
    ensures r[..|GeneratePrefixHead|] == GeneratePrefixHead
    ensures r[|GeneratePrefixHead|..|GeneratePrefixHead| + |tone|] == tone
  {
    GeneratePrefixHead + tone + GeneratePrefixTail
  }

  /** Different tones give different default prefixes. */
  lemma DefaultPrefixDeterminesTone(t1: string, t2: string)
    requires GenerateDefaultPrefix(t1) == GenerateDefaultPrefix(t2)
    ensures t1 == t2
  {
  }

  datatype GenerateTextPrompt = GenerateTextPrompt(tone: string, prefix: string, suffix: string, example: Option<string>)

  /** `GenerateTextPrompt.__init__`: the tone defaults first, and the default prefix is built from the resulting tone. */
  function NewGenerateText(prefix: Option<string>, suffix: Option<string>, tone: Option<string>, example: Option<string>): (p: GenerateTextPrompt)
    ensures p.tone != [] && p.prefix != [] && p.suffix != [] && p.example == example
    ensures tone.None? || tone.value == [] ==> p.tone == DefaultTone
    ensures tone.Some? && tone.value != [] ==> p.tone == tone.value
    ensures prefix.None? || prefix.value == [] ==> p.prefix == GenerateDefaultPrefix(p.tone)
    ensures prefix.Some? && prefix.value != [] ==> p.prefix == prefix.value
    ensures suffix.None? || suffix.value == [] ==> p.suffix == GenerateDefaultSuffix
    ensures suffix.Some? && suffix.value != [] ==> p.suffix == suffix.value
  {
    var t := OrDefault(tone, DefaultTone);
    GenerateTextPrompt(t, OrDefault(prefix, GenerateDefaultPrefix(t)), OrDefault(suffix, GenerateDefaultSuffix), example)
  }

  /** An explicit prefix makes the tone irrelevant to the generated prompt. */
  lemma ExplicitPrefixIgnoresTone(prefix: string, suffix: Option<string>, t1: Option<string>, t2: Option<string>, example: Option<string>, text: string)
    requires prefix != []
    ensures GenerateTextGenerate(NewGenerateText(Some(prefix), suffix, t1, example), text)
         == GenerateTextGenerate(NewGenerateText(Some(prefix), suffix, t2, example), text)
  {
  }

  /** Without a prefix, the tone appears in the prompt right after the head of the default prefix. */
  lemma DefaultPrefixCarriesTone(suffix: Option<string>, tone: Option<string>, example: Option<string>, text: string)
    ensures var p := NewGenerateText(None, suffix, tone, example);
      var r := GenerateTextGenerate(p, text);
      |r| >= |GeneratePrefixHead| + |p.tone|
      && r[|GeneratePrefixHead|..|GeneratePrefixHead| + |p.tone|] == p.tone
  {
    var p := NewGenerateText(None, suffix, tone, example);
    var r := GenerateTextGenerate(p, text);
    var lo, hi := |GeneratePrefixHead|, |GeneratePrefixHead| + |p.tone|;
    assert p.prefix == GenerateDefaultPrefix(p.tone);
    assert p.prefix[lo..hi] == p.tone;
    PrefixSlice(r, p.prefix, lo, hi);
  }

  /** A string that starts with `p` agrees with `p` on every slice inside `p`. */
  lemma PrefixSlice(r: string, p: string, lo: int, hi: int)
    requires StartsWith(r, p) && 0 <= lo <= hi <= |p|
    ensures r[lo..hi] == p[lo..hi]
  {
    assert r[..|p|] == p;
    forall k | 0 <= k < hi - lo
      ensures r[lo..hi][k] == p[lo..hi][k]
    {
      assert r[lo + k] == r[..|p|][lo + k];
    }
  }

  /** `GenerateTextPrompt.generate_prompt`: the same layout as the freestyle prompt. */
  function GenerateTextGenerate(p: GenerateTextPrompt, text: string): (r: string)
    ensures |r| == |p.prefix| + |text| + |ExamplePart(p.example)| + |p.suffix| + 4
    ensures StartsWith(r, p.prefix)
    ensures r[|r| - |p.suffix|..] == p.suffix
    ensures r[|p.prefix| + 2..|p.prefix| + 2 + |text|] == text
  {
    LayoutParts(p.prefix, text, ExamplePart(p.example), p.suffix);
    Layout(p.prefix, text, ExamplePart(p.example), p.suffix)
  }

  // ---------------------------------------------------------------------
  // prompts/question_prompt.py and prompts/summary_prompt.py
  // ---------------------------------------------------------------------

  const QuestionLead: string := "Create a question about: "
  const SummaryLead: string := "Summarize this: "

  /** `s` with the lead `p` removed, when `s` starts with it. */
  function Unprefix(s: string, p: string): (r: Option<string>)
    ensures r.Some? <==> StartsWith(s, p)
    ensures r.Some? ==> p + r.value == s
  {
    if StartsWith(s, p) then
      assert s == s[..|p|] + s[|p|..];
      Some(s[|p|..])
    else None
  }

  /** `QuestionPrompt.generate_prompt`. */
  function Question(text: string): (r: string)
    ensures StartsWith(r, QuestionLead)
    ensures |r| == |QuestionLead| + |text|
  {
    QuestionLead + text
  }

  /** `SummaryPrompt.generate_prompt`. */
  function Summary(text: string): (r: string)
    ensures StartsWith(r, SummaryLead)
    ensures |r| == |SummaryLead| + |text|
  {
    SummaryLead + text
  }

  /** Removing the lead gives the text back, so different texts give different prompts. */
  lemma QuestionRoundTrip(text: string, other: string)
    ensures Unprefix(Question(text), QuestionLead) == Some(text)
    ensures Question(text) == Question(other) ==> text == other
  {
    var u := Unprefix(Question(text), QuestionLead).value;
    assert QuestionLead + u == QuestionLead + text;
    assert u == (QuestionLead + u)[|QuestionLead|..];
    if Question(text) == Question(other) {
      assert other == (QuestionLead + other)[|QuestionLead|..];
    }
  }

  lemma SummaryRoundTrip(text: string, other: string)
    ensures Unprefix(Summary(text), SummaryLead) == Some(text)
    ensures Summary(text) == Summary(other) ==> text == other
  {
    var u := Unprefix(Summary(text), SummaryLead).value;
    assert SummaryLead + u == SummaryLead + text;
    assert u == (SummaryLead + u)[|SummaryLead|..];
    if Summary(text) == Summary(other) {
      assert other == (SummaryLead + other)[|SummaryLead|..];
    }
  }
}
