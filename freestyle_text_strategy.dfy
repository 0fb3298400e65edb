/**
 * prompts/strategies/freestyle_text_prompt.py: before the chat template is
 * built, braces in the program's `context` are turned into square brackets
 * (so that the template engine does not read them as placeholders), and
 * the result is written back into the caller's `current_program` dict.
 */
module FreestyleTextStrategy {

  import opened Wrappers
  import opened Values
  import opened Strings

  function EscapeChar(c: char): char
  {
    if c == '{' then '[' else if c == '}' then ']' else c
  }

  /** Every brace replaced by the matching square bracket, everything else kept in place. */
  function Escape(s: string): (r: string)
    ensures |r| == |s|
    ensures forall i :: 0 <= i < |s| ==> r[i] != '{' && r[i] != '}'
    ensures forall i :: 0 <= i < |s| && s[i] != '{' && s[i] != '}' ==> r[i] == s[i]
    ensures forall i :: 0 <= i < |s| && s[i] == '{' ==> r[i] == '['
    ensures forall i :: 0 <= i < |s| && s[i] == '}' ==> r[i] == ']'
  {
    seq(|s|, i requires 0 <= i < |s| => EscapeChar(s[i]))
  }

  /** Escaping an escaped string changes nothing. */
  lemma EscapeIdempotent(s: string)
    ensures Escape(Escape(s)) == Escape(s)
  {
  }

  /** The chained `replace('{{', '[[').replace('}}', ']]').replace('{', '[').replace('}', ']')` as written. */
  function ChainedEscape(s: string): string
  {
    Replace(Replace(Replace(Replace(s, "{{", "[["), "}}", "]]"), "{", "["), "}", "]")
  }

  /** `s` with every `a` replaced by `b`. */
  function Swap(s: string, a: char, b: char): (r: string)
    ensures |r| == |s|
    ensures forall i :: 0 <= i < |s| ==> r[i] == (if s[i] == a then b else s[i])
  {
    seq(|s|, i requires 0 <= i < |s| => if s[i] == a then b else s[i])
  }

  /** Replacing a one-character pattern is swapping that character. */
  lemma {:induction false} ReplaceOneChar(s: string, a: char, b: char)
    ensures Replace(s, [a], [b]) == Swap(s, a, b)
    decreases |s|
  {
    if |s| >= 1 {
      ReplaceOneChar(s[1..], a, b);
      if s[..1] == [a] {
        assert Replace(s, [a], [b]) == [b] + Swap(s[1..], a, b);
      } else {
        assert Replace(s, [a], [b]) == [s[0]] + Swap(s[1..], a, b);
      }
    }
  }

  lemma EscapeAppend(x: string, y: string)
    ensures Escape(x + y) == Escape(x) + Escape(y)
  {
  }

  /**
   * Turning a pair of braces into a pair of brackets is invisible once
   * everything is escaped.
   */
  lemma {:induction false} ReplacePairEscaped(s: string, a: char, b: char)
    requires (a == '{' && b == '[') || (a == '}' && b == ']')
    ensures Escape(Replace(s, [a, a], [b, b])) == Escape(s)
    decreases |s|
  {
    if |s| >= 2 {
      if s[..2] == [a, a] {
        ReplacePairEscaped(s[2..], a, b);
        EscapeAppend([b, b], Replace(s[2..], [a, a], [b, b]));
        EscapeAppend(s[..2], s[2..]);
        assert s == s[..2] + s[2..];
      } else {
        ReplacePairEscaped(s[1..], a, b);
        EscapeAppend([s[0]], Replace(s[1..], [a, a], [b, b]));
        EscapeAppend([s[0]], s[1..]);
        assert s == [s[0]] + s[1..];
      }
    }
  }

  /** The chained replace is exactly the brace escape: doing the doubled braces first makes no difference. */
  lemma ChainedEscapeIsEscape(s: string)
    ensures ChainedEscape(s) == Escape(s)
  {
    var u1 := Replace(s, "{{", "[[");
    var u := Replace(u1, "}}", "]]");
    ReplacePairEscaped(s, '{', '[');
    ReplacePairEscaped(u1, '}', ']');
    ReplaceOneChar(u, '{', '[');
    ReplaceOneChar(Swap(u, '{', '['), '}', ']');
    assert Swap(Swap(u, '{', '['), '}', ']') == Escape(u);
  }

  /** The caller's `current_program` dict. */
  class ProgramDict {
    var fields: map<string, Value>

    constructor (fields: map<string, Value>)
      ensures this.fields == fields
    {
      this.fields := fields;
    }
  }

  /**
   * Lines 49-50: when `current_program` is a non-empty dict with a `context`
   * key, its context is escaped in place; a non-str context has no `replace`.
   * `null` stands for a missing or None `current_program`.
   */
  method EscapeContext(program: ProgramDict?) returns (r: Result<(), Fault>)
    modifies program
    ensures program == null || "context" !in old(program.fields) ==> r.Ok? && (program != null ==> program.fields == old(program.fields))
    ensures program != null && "context" in old(program.fields) && old(program.fields)["context"].Str? ==>
      r.Ok? && program.fields == old(program.fields)["context" := Str(Escape(old(program.fields)["context"].s))]
    ensures program != null && "context" in old(program.fields) && !old(program.fields)["context"].Str? ==>
      r == Err(AttributeError("replace")) && program.fields == old(program.fields)
  {
    if program != null && program.fields != map[] && "context" in program.fields {
      match program.fields["context"]
      case Str(s) =>
        ChainedEscapeIsEscape(s);
        program.fields := program.fields["context" := Str(ChainedEscape(s))];
      case _ =>
        return Err(AttributeError("replace"));
    }
    return Ok(());
  }

  /** After escaping, the stored context contains no brace at all, and escaping it again would change nothing. */
  lemma EscapedContextIsBraceFree(s: string)
    ensures forall c :: c in ChainedEscape(s) ==> c != '{' && c != '}'
    ensures ChainedEscape(ChainedEscape(s)) == ChainedEscape(s)
  {
    ChainedEscapeIsEscape(s);
    ChainedEscapeIsEscape(Escape(s));
    EscapeIdempotent(s);
  }
}
