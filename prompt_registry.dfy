/**
 * registry.py and prompt_service.py: the module-level `prompt_registry`
 * dict, filled by the `register_prompt(name)` class decorator with one
 * instance per decorated class, and `handle_prompt`, which looks a prompt
 * type up and delegates to the instance.
 */
module PromptRegistry {

  import opened SimplePrompts
  import opened Wrappers

  /** The classes that carry a `register_prompt` decorator. */
  datatype PromptClass =
    | QuestionPromptClass        // prompts/question_prompt.py, "question"
    | SummaryPromptClass         // prompts/summary_prompt.py, "summary"
    | FreestylePromptClass       // prompts/freestyle_prompt.py, "freestyle"
    | GenerateTextPromptClass    // prompts/generate_text_prompt.py, "generate_text"
    | StrategyClass(strategyFile: string)  // a class under prompts/strategies/

  /**
   * A registered instance. The strategy classes generate from a request dict
   * through an LLM chain, which is outside this model.
   */
  datatype PromptObject =
    | QuestionObject
    | SummaryObject
    | FreestyleObject(freestyle: FreestylePrompt)
    | GenerateTextObject(generate: GenerateTextPrompt)
    | StrategyObject(strategyFile: string)

  /** `cls()`: each class built with its constructor's defaults. */
  function Instantiate(cls: PromptClass): (obj: PromptObject)
    ensures cls.FreestylePromptClass? <==> obj.FreestyleObject?
    ensures cls.GenerateTextPromptClass? <==> obj.GenerateTextObject?
    ensures obj.FreestyleObject? ==> obj.freestyle.prefix == FreestyleDefaultPrefix && obj.freestyle.example.None?
    ensures obj.GenerateTextObject? ==> obj.generate.tone == DefaultTone && obj.generate.prefix == GenerateDefaultPrefix(DefaultTone)
  {
    match cls
    case QuestionPromptClass => QuestionObject
    case SummaryPromptClass => SummaryObject
    case FreestylePromptClass => FreestyleObject(NewFreestyle(None, None, None))
    case GenerateTextPromptClass => GenerateTextObject(NewGenerateText(None, None, None, None))
    case StrategyClass(m) => StrategyObject(m)
  }

  /** What `handle_prompt` returns: a prompt string, or a call into a strategy outside the model. */
  datatype Outcome = Text(text: string) | Delegated(strategyFile: string, input: string)

  const UnsupportedMessage: string := "Unsupported prompt type"

  /** `generate_prompt` of a registered instance. */
  function Generate(obj: PromptObject, text: string): (r: Outcome)
    ensures r.Delegated? <==> obj.StrategyObject?
  {
    match obj
    case QuestionObject => Text(Question(text))
    case SummaryObject => Text(Summary(text))
    case FreestyleObject(p) => Text(FreestyleGenerate(p, text))
    case GenerateTextObject(p) => Text(GenerateTextGenerate(p, text))
    case StrategyObject(m) => Delegated(m, text)
  }

  /**
   * `handle_prompt`: an unregistered type gives the fixed message (every
   * registered instance is truthy, so only absence takes that branch).
   */
  function HandlePrompt(registry: map<string, PromptObject>, promptType: string, text: string): (r: Outcome)
    ensures promptType !in registry ==> r == Text(UnsupportedMessage)
    ensures promptType in registry ==> r == Generate(registry[promptType], text)
  {
    if promptType !in registry then Text(UnsupportedMessage) else Generate(registry[promptType], text)
  }

  /** The module-level registry. */
  class Registry {
    /** `prompt_registry`. */
    var prompts: map<string, PromptObject>

    /** The registry starts empty. */
    constructor ()
      ensures prompts == map[]
    {
      prompts := map[];
    }

    /**
     * `register_prompt(name)(cls)`: one instance, made now, is stored under the
     * name (replacing any earlier one); the class itself is returned unchanged.
     */
    method RegisterPrompt(name: string, cls: PromptClass) returns (decorated: PromptClass)
      modifies this
      ensures decorated == cls
      ensures prompts == old(prompts)[name := Instantiate(cls)]
    {
      prompts := prompts[name := Instantiate(cls)];
      return cls;
    }

    /** `handle_prompt` against this registry: a read, so no `modifies`. */
    method Handle(promptType: string, text: string) returns (r: Outcome)
      ensures r == HandlePrompt(prompts, promptType, text)
    {
      if promptType !in prompts {
        return Text(UnsupportedMessage);
      }
      r := Generate(prompts[promptType], text);
    }
  }

  /** With the question prompt registered, a "question" request is the question template applied to the text. */
  lemma QuestionHandled(registry: map<string, PromptObject>, text: string)
    ensures var reg := registry["question" := Instantiate(QuestionPromptClass)];
      && HandlePrompt(reg, "question", text) == Text(QuestionLead + text)
      && HandlePrompt(reg, "question", text) != Text(UnsupportedMessage)
  {
    assert QuestionLead + text != UnsupportedMessage by {
      assert (QuestionLead + text)[0] == 'C' && UnsupportedMessage[0] == 'U';
    }
  }

  /** Nothing is handled by an empty registry. */
  lemma EmptyRegistryUnsupported(promptType: string, text: string)
    ensures HandlePrompt(map[], promptType, text) == Text(UnsupportedMessage)
  {
  }

  /**
   * "summary" is decorated twice (prompts/summary_prompt.py and the summary
   * strategy): whichever registration runs last decides what "summary"
   * means, and no other prompt type is affected.
   */
  lemma SecondRegistrationWins(registry: map<string, PromptObject>, first: PromptClass, second: PromptClass, other: string, text: string)
    ensures var reg := registry["summary" := Instantiate(first)]["summary" := Instantiate(second)];
      && HandlePrompt(reg, "summary", text) == Generate(Instantiate(second), text)
      && (other != "summary" ==> HandlePrompt(reg, other, text) == HandlePrompt(registry, other, text))
  {
  }

  /** The two registration orders of the two summary classes, side by side. */
  method RegisterSummaries(reg: Registry, strategyLast: bool)
    modifies reg
    ensures strategyLast ==> reg.prompts == old(reg.prompts)["summary" := StrategyObject("summary_prompt")]
    ensures !strategyLast ==> reg.prompts == old(reg.prompts)["summary" := SummaryObject]
  {
    if strategyLast {
      var _ := reg.RegisterPrompt("summary", SummaryPromptClass);
      var _ := reg.RegisterPrompt("summary", StrategyClass("summary_prompt"));
    } else {
      var _ := reg.RegisterPrompt("summary", StrategyClass("summary_prompt"));
      var _ := reg.RegisterPrompt("summary", SummaryPromptClass);
    }
  }
}
