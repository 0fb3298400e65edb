/**
 * prompts/prompt_factory.py: the table from strategy name to strategy
 * class, filled at construction, and `get_strategy`, which instantiates
 * the registered class.
 */
module StrategyFactory {

  import opened Wrappers
  import opened Values

  /** The strategy classes the factory registers by default. */
  datatype StrategyClass = ExplainPrompt | FreestylePrompt | GenerateTextPrompt | SummaryPrompt | ConvertPrompt

  const StrategiesPackage: string := "prompts.strategies."

  /** The dotted name of a strategy class: its module under prompts/strategies/, then the class name. */
  function QualifiedName(c: StrategyClass): (r: string)
    ensures StrategiesPackage <= r
  {
    StrategiesPackage +
    match c
    case ExplainPrompt => "explain_prompt.ExplainPrompt"
    case FreestylePrompt => "freestyle_prompt.FreestylePrompt"
    case GenerateTextPrompt => "generate_text_prompt.GenerateTextPrompt"
    case SummaryPrompt => "summary_prompt.SummaryPrompt"
    case ConvertPrompt => "convert_prompt.ConvertPrompt"
  }

  /** An instance of a strategy class; its prompt generation is an LLM call outside the model. */
  class Strategy {
    const cls: StrategyClass

    constructor (cls: StrategyClass)
      ensures this.cls == cls
    {
      this.cls := cls;
    }
  }

  /** The table `_register_default_strategies` leaves behind. */
  function DefaultTable(): map<string, StrategyClass>
  {
    map["explain" := ExplainPrompt, "freestyle" := FreestylePrompt, "generate_text" := GenerateTextPrompt,
        "summary" := SummaryPrompt, "convert_prompt" := ConvertPrompt]
  }

  /** The lookup step of `get_strategy`: the registered class, or ValueError naming the strategy. */
  function Lookup(table: map<string, StrategyClass>, name: string): (r: Result<StrategyClass, Fault>)
    ensures r.Ok? <==> name in table
    ensures r.Ok? ==> r.value == table[name]
    ensures r.Err? ==> r.error == ValueError("Unknown prompt strategy: " + name)
  {
    if name !in table then Err(ValueError("Unknown prompt strategy: " + name)) else Ok(table[name])
  }

  /** Exactly the five default names resolve in the default table, each to its own class. */
  lemma DefaultNames(name: string)
    ensures Lookup(DefaultTable(), name).Ok? <==> name in {"explain", "freestyle", "generate_text", "summary", "convert_prompt"}
    ensures Lookup(DefaultTable(), "convert_prompt") == Ok(ConvertPrompt)
    ensures Lookup(DefaultTable(), "freestyle") == Ok(FreestylePrompt)
  {
  }

  class PromptFactory {
    /** `_strategies`. */
    var strategies: map<string, StrategyClass>

    /** `__init__`: an empty table, then the five default registrations in order. */
    constructor ()
      ensures strategies == DefaultTable()
    {
      strategies := map[];
      new;
      RegisterStrategy("explain", ExplainPrompt);
      RegisterStrategy("freestyle", FreestylePrompt);
      RegisterStrategy("generate_text", GenerateTextPrompt);
      RegisterStrategy("summary", SummaryPrompt);
      RegisterStrategy("convert_prompt", ConvertPrompt);
    }

    /** `register_strategy`: maps the name to the class, replacing any earlier entry. */
    method RegisterStrategy(name: string, cls: StrategyClass)
      modifies this
      ensures strategies == old(strategies)[name := cls]
    {
      strategies := strategies[name := cls];
    }

    /** `get_strategy`: a fresh instance of the registered class, or ValueError; the table never changes. */
    method GetStrategy(name: string) returns (r: Result<Strategy, Fault>)
      ensures r.Ok? <==> Lookup(strategies, name).Ok?
      ensures r.Ok? ==> fresh(r.value) && r.value.cls == strategies[name]
      ensures r.Err? ==> r.error == Lookup(strategies, name).error
    {
      if name !in strategies {
        return Err(ValueError("Unknown prompt strategy: " + name));
      }
      var s := new Strategy(strategies[name]);
      return Ok(s);
    }
  }

  /** Re-registering one name changes what that name resolves to and nothing else. */
  lemma RegisterOverwritesOnlyName(table: map<string, StrategyClass>, name: string, cls: StrategyClass, other: string)
    ensures Lookup(table[name := cls], name) == Ok(cls)
    ensures other != name ==> Lookup(table[name := cls], other) == Lookup(table, other)
  {
  }
}
