/**
 * The ElevenLabs `open` handler of outbound.js: the system prompt is filled
 * from the call's dynamic-variable record, one global replacement of
 * `{{key}}` per entry in the record's order, and the first message greets
 * the patient by name.
 *
 * `Fill` is the specification of the `forEach` loop, `FillPrompt` the loop
 * itself. `Expand` is an independent reference for what filling a template
 * means: every slot whose key the record defines is replaced by that
 * entry's value, the other slots stay as placeholders, and the literal text
 * comes through as it is. `FillRender` proves the two agree.
 */
module PromptFill {
  import opened Wrappers
  import opened JsStrings
  import opened Prompt
  import opened CallContext

  // ---------------------------------------------------------------------
  // Filling, as the loop does it
  // ---------------------------------------------------------------------

  /** The entries of the record applied in order, each to the previous result. */
  function Fill(template: string, vars: Vars): string
    decreases |vars|
  {
    if |vars| == 0 then template
    else Fill(ReplaceAll(template, Placeholder(vars[0].key), vars[0].value), vars[1..])
  }

  /** The loop of lines 210-213, reassigning `filledPrompt` once per entry. */
  method FillPrompt(template: string, vars: Vars) returns (filled: string)
    ensures filled == Fill(template, vars)
  {
    filled := template;
    var i := 0;
    while i < |vars|
      invariant 0 <= i <= |vars|
      invariant Fill(filled, vars[i..]) == Fill(template, vars)
    {
      assert vars[i..][1..] == vars[i + 1..];
      filled := ReplaceAll(filled, Placeholder(vars[i].key), vars[i].value);
      i := i + 1;
    }
    assert vars[i..] == [];
  }

  /** An entry added last is applied last, to the result of all the others. */
  lemma {:induction false} FillSnoc(template: string, vars: Vars, e: Entry)
    ensures Fill(template, vars + [e])
         == ReplaceAll(Fill(template, vars), Placeholder(e.key), e.value)
    decreases |vars|
  {
    if |vars| == 0 {
      assert ([] + [e])[1..] == [];
    } else {
      assert (vars + [e])[1..] == vars[1..] + [e];
      FillSnoc(ReplaceAll(template, Placeholder(vars[0].key), vars[0].value), vars[1..], e);
    }
  }

  /** The entries of `a` are all applied before those of `b`. */
  lemma {:induction false} FillAppend(template: string, a: Vars, b: Vars)
    ensures Fill(template, a + b) == Fill(Fill(template, a), b)
    decreases |a|
  {
    if |a| > 0 {
      assert (a + b)[1..] == a[1..] + b;
      FillAppend(ReplaceAll(template, Placeholder(a[0].key), a[0].value), a[1..], b);
    } else {
      assert a + b == b;
    }
  }

  /** A text holding no placeholder for any key of the record comes through the fill unchanged. */
  lemma {:induction false} FillWithoutPlaceholders(template: string, vars: Vars)
    requires forall i | 0 <= i < |vars| :: Count(template, Placeholder(vars[i].key)) == 0
    ensures Fill(template, vars) == template
    decreases |vars|
  {
    if |vars| > 0 {
      ReplaceAllAbsent(template, Placeholder(vars[0].key), vars[0].value);
      assert forall i | 0 <= i < |vars[1..]| :: vars[1..][i] == vars[i + 1];
      FillWithoutPlaceholders(template, vars[1..]);
    }
  }

  // ---------------------------------------------------------------------
  // Filling, as a template means it
  // ---------------------------------------------------------------------

  /** A record whose keys are placeholder names and whose values hold no `{`. */
  predicate Fillable(vars: Vars)
  {
    forall i | 0 <= i < |vars| :: '{' !in vars[i].key && '}' !in vars[i].key && '{' !in vars[i].value
  }

  function ExpandPiece(p: Piece, vars: Vars): string
  {
    match p
    case Text(cs) => Concat(cs)
    case Slot(k) =>
      match Lookup(vars, k)
      case Some(v) => v
      case None => Placeholder(k)
  }

  /** The pieces written out with every slot the record defines replaced by its value. */
  function Expand(ps: seq<Piece>, vars: Vars): string
  {
    if |ps| == 0 then "" else ExpandPiece(ps[0], vars) + Expand(ps[1..], vars)
  }

  /** With an empty record every slot stays a placeholder. */
  lemma {:induction false} ExpandEmpty(ps: seq<Piece>)
    ensures Expand(ps, []) == Render(ps)
  {
    if |ps| > 0 {
      ExpandEmpty(ps[1..]);
    }
  }

  /** Substituting the first entry into the pieces, then expanding with the rest. */
  lemma {:induction false} ExpandSubst(ps: seq<Piece>, k: Key, v: Plain, rest: Vars)
    ensures Expand(Subst(ps, k, v), rest) == Expand(ps, [Entry(k, v)] + rest)
  {
    var vars := [Entry(k, v)] + rest;
    assert vars[1..] == rest;
    if |ps| > 0 {
      ExpandSubst(ps[1..], k, v, rest);
      var s := Subst(ps, k, v);
      assert s[1..] == Subst(ps[1..], k, v);
      if ps[0] == Slot(k) {
        assert Concat([v]) == v;
      }
    }
  }

  /**
   * Filling the rendered pieces is expanding them: each entry's global
   * replacement rewrites exactly the slots with its key, and the literal
   * text between the slots is never touched.
   */
  lemma {:induction false} FillRender(ps: seq<Piece>, vars: Vars)
    requires Fillable(vars)
    ensures Fill(Render(ps), vars) == Expand(ps, vars)
    decreases |vars|
  {
    if |vars| == 0 {
      ExpandEmpty(ps);
    } else {
      var k: Key := vars[0].key;
      var v: Plain := vars[0].value;
      ReplaceInRender(ps, k, v);
      FillRender(Subst(ps, k, v), vars[1..]);
      ExpandSubst(ps, k, v, vars[1..]);
      assert vars == [Entry(k, v)] + vars[1..];
    }
  }

  /** An empty record leaves the system prompt unchanged. */
  lemma FillEmptyRecord()
    ensures Fill(SYSTEM_PROMPT, []) == SYSTEM_PROMPT
    ensures Expand(TEMPLATE, []) == SYSTEM_PROMPT
  {
    ExpandEmpty(TEMPLATE);
  }

  /** The value a fillable record gives for a key holds no `{`. */
  lemma {:induction false} LookupPlain(vars: Vars, k: string)
    requires Fillable(vars) && Defines(vars, k)
    ensures '{' !in Lookup(vars, k).value
  {
    if vars[0].key != k {
      LookupPlain(vars[1..], k);
    }
  }

  /** Expanding with a record that defines every slot's key leaves no `{`. */
  lemma {:induction false} ExpandNoBrace(ps: seq<Piece>, vars: Vars)
    requires Fillable(vars)
    requires forall i | 0 <= i < |ps| && ps[i].Slot? :: Defines(vars, ps[i].key)
    ensures '{' !in Expand(ps, vars)
  {
    if |ps| > 0 {
      ExpandNoBrace(ps[1..], vars);
      match ps[0]
      case Text(cs) => TextHasNoBrace(cs);
      case Slot(k) => LookupPlain(vars, k);
    }
  }

  /**
   * Filling the system prompt with a record that defines all five keys, and
   * whose values hold no `{`, leaves no placeholder behind.
   */
  lemma CompleteFillHasNoBrace(vars: Vars)
    requires Fillable(vars)
    requires forall k | k in VARIABLE_KEYS :: Defines(vars, k)
    ensures '{' !in Fill(SYSTEM_PROMPT, vars)
  {
    FillRender(TEMPLATE, vars);
    TemplateSlotKeys();
    ExpandNoBrace(TEMPLATE, vars);
  }

  /** The keys of the stored record are the five variable names, none with a brace. */
  lemma ResolvedKeys(outcome: FetchOutcome)
    ensures |ResolveVariables(outcome)| == 5
    ensures forall i | 0 <= i < 5 :: ResolveVariables(outcome)[i].key in VARIABLE_KEYS
    ensures forall i | 0 <= i < 5 ::
      '{' !in ResolveVariables(outcome)[i].key && '}' !in ResolveVariables(outcome)[i].key
  {
    var vars := ResolveVariables(outcome);
    assert forall i | 0 <= i < 5 :: vars[i].key in VARIABLE_KEYS;
  }

  /** The stored record defines every key that has a slot in the template. */
  lemma ResolvedDefinesAll(outcome: FetchOutcome)
    ensures forall k | k in VARIABLE_KEYS :: Defines(ResolveVariables(outcome), k)
  {
    forall k | k in VARIABLE_KEYS
      ensures Defines(ResolveVariables(outcome), k)
    {
      ResolvedRecordIsComplete(outcome, k);
    }
  }

  /**
   * Whatever the fetch gave, the record the route stores fills every
   * placeholder of the system prompt, provided its values hold no `{`.
   */
  lemma ResolvedFillHasNoBrace(outcome: FetchOutcome)
    requires forall i | 0 <= i < |ResolveVariables(outcome)| :: '{' !in ResolveVariables(outcome)[i].value
    ensures '{' !in Fill(SYSTEM_PROMPT, ResolveVariables(outcome))
  {
    ResolvedKeys(outcome);
    ResolvedDefinesAll(outcome);
    CompleteFillHasNoBrace(ResolveVariables(outcome));
  }

  // ---------------------------------------------------------------------
  // The first message
  // ---------------------------------------------------------------------

  const GREETING_HEAD := "Hey "
  const GREETING_TAIL := "! Nice to chat with you, how are you today?"

  /** `Hey ${dynamicVars.name}! ...`: an absent name is written `undefined`. */
  function FirstMessage(vars: Vars): string
  {
    GREETING_HEAD + Interpolate(Lookup(vars, NAME)) + GREETING_TAIL
  }

  /** The first message is the fixed greeting around the name, and the name can be read back out of it. */
  lemma FirstMessageCarriesName(vars: Vars)
    ensures GREETING_HEAD <= FirstMessage(vars)
    ensures |FirstMessage(vars)| == |GREETING_HEAD| + |Interpolate(Lookup(vars, NAME))| + |GREETING_TAIL|
    ensures FirstMessage(vars)[|GREETING_HEAD|..|FirstMessage(vars)| - |GREETING_TAIL|]
         == Interpolate(Lookup(vars, NAME))
    ensures FirstMessage(vars)[|FirstMessage(vars)| - |GREETING_TAIL|..] == GREETING_TAIL
  {
  }
}
