/**
 * The system prompt of prompt.js, kept as the sequence of pieces it is made
 * of: runs of literal text and `{{key}}` placeholders. `SYSTEM_PROMPT` is the
 * string those pieces spell out.
 *
 * Literal text is held in chunks of type `Plain` (no `{`). Each chunk is a
 * separate constant so that the verifier checks its brace-freeness on a short
 * literal; put end to end, the chunks of prompt.js line N (the `LNN_` names)
 * give that line's text exactly, its newline included.
 */
module Prompt {
  import opened JsStrings

  /** Text with no `{`, so no placeholder can begin inside it. */
  type Plain = s: string | '{' !in s

  /** A placeholder name: plain identifier text, without braces. */
  type Key = k: string | '{' !in k && '}' !in k

  datatype Piece = Text(chunks: seq<Plain>) | Slot(key: Key)

  /** The marker `{{key}}` that the filler looks for. */
  function Placeholder(key: string): (p: string)
    ensures |p| == |key| + 4 && p[0] == '{' && p[1] == '{'
  {
    "{{" + key + "}}"
  }

  function PieceText(p: Piece): string
  {
    match p
    case Text(cs) => Concat(cs)
    case Slot(k) => Placeholder(k)
  }

  /** The string a sequence of pieces spells out. */
  function Render(ps: seq<Piece>): string
  {
    if |ps| == 0 then "" else PieceText(ps[0]) + Render(ps[1..])
  }

  /** 1 for a `Slot(key)` piece, 0 for any other. */
  function SlotMark(p: Piece, key: string): nat
  {
    if p.Slot? && p.key == key then 1 else 0
  }

  /** The number of `Slot(key)` pieces. */
  function SlotCount(ps: seq<Piece>, key: string): nat
  {
    if |ps| == 0 then 0 else SlotMark(ps[0], key) + SlotCount(ps[1..], key)
  }

  /** `ps` with every `Slot(key)` replaced by the literal `value`. */
  function Subst(ps: seq<Piece>, key: Key, value: Plain): seq<Piece>
  {
    if |ps| == 0 then []
    else [if ps[0] == Slot(key) then Text([value]) else ps[0]] + Subst(ps[1..], key, value)
  }

  // ---------------------------------------------------------------------
  // The template of prompt.js
  // ---------------------------------------------------------------------

  // prompt.js line 1
  const L01_01: Plain := "You are a warm, patient, and "
  const L01_02: Plain := "empathetic virtual assistant "
  const L01_03: Plain := "designed to check in with elderly "
  const L01_04: Plain := "individuals daily. Your role is to "
  const L01_05: Plain := "ensure their well-being, understand "
  const L01_06: Plain := "any needs they have, and assist "
  const L01_07: Plain := "with tasks like ordering groceries, "
  const L01_08: Plain := "setting medication reminders, and "
  const L01_09: Plain := "providing companionship through "
  const L01_10: Plain := "friendly conversation. You speak "
  const L01_11: Plain := "clearly, listen attentively, and "
  const L01_12: Plain := "respond with kindness, making each "
  const L01_13: Plain := "interaction feel personal and "
  const L01_14: Plain := "reassuring.  If the user mentions a "
  const L01_15: Plain := "health concern, you must "
  const L01_16: Plain := "acknowledge their concern and state "
  const L01_17: Plain := "that you will notify their carer. "
  const L01_18: Plain := "Do not offer medical advice, "
  const L01_19: Plain := "suggest contacting GPs, or provide "
  const L01_20: Plain := "any other options. Only reference "
  const L01_21: Plain := "previous interactions, health "
  const L01_22: Plain := "details, or personal history if "
  const L01_23: Plain := "explicitly provided via input "
  const L01_24: Plain := "variables. If no relevant "
  const L01_25: Plain := "information is available, avoid "
  const L01_26: Plain := "making assumptions or fabricating "
  const L01_27: Plain := "context\n"
  // prompt.js line 2
  const L02_01: Plain := "\n"
  // prompt.js line 3
  const L03_01: Plain := "Check-In Flow:\n"
  // prompt.js line 4
  const L04_01: Plain := "\n"
  // prompt.js line 5
  const L05_01: Plain := "Warm Small-Talk: Begin with brief, "
  const L05_02: Plain := "caring small-talk to ensure "
  const L05_03: Plain := " is feeling well and to create a "
  const L05_04: Plain := "natural, friendly tone. Keep this "
  const L05_05: Plain := "brief but genuine.\n"
  // prompt.js line 6
  const L06_01: Plain := "\n"
  // prompt.js line 7
  const L07_01: Plain := "Follow-Up on Previous Check-In: "
  const L07_02: Plain := "Reference any relevant items from "
  const L07_03: Plain := "the previous interaction using "
  const L07_04: Plain := "these details:\n"
  // prompt.js line 8
  const L08_01: Plain := "- Previous Conversation Topics: "
  const L08_02: Plain := "Mention key points like "
  const L08_03: Plain := " to create continuity and build "
  const L08_04: Plain := "rapport. Try reference the "
  const L08_05: Plain := "approximate date of these past "
  const L08_06: Plain := "discussions but only if you have "
  const L08_07: Plain := "that information available. \n"
  // prompt.js line 9
  const L09_01: Plain := "- Medication: Gently remind "
  const L09_02: Plain := " to take "
  const L09_03: Plain := " if applicable.\n"
  // prompt.js line 10
  const L10_01: Plain := "\n"
  // prompt.js line 11
  const L11_01: Plain := "Offer Assistance: Ask if they need "
  const L11_02: Plain := "help with any of the following:\n"
  // prompt.js line 12
  const L12_01: Plain := "- Ordering groceries: Ask which "
  const L12_02: Plain := "items they need, then repeat the "
  const L12_03: Plain := "list back to confirm before "
  const L12_04: Plain := "proceeding.\n"
  // prompt.js line 13
  const L13_01: Plain := "- Conversational topics: If they "
  const L13_02: Plain := "choose conversation, engage "
  const L13_03: Plain := "naturally in interesting news "
  const L13_04: Plain := "topics based on their interests "
  const L13_05: Plain := "which are "
  const L13_06: Plain := ". Here are some recent news topics "
  const L13_07: Plain := "to pull from "
  const L13_08: Plain := ". \n"
  // prompt.js line 14
  const L14_01: Plain := "- Setting reminders: Ask what they "
  const L14_02: Plain := "need reminders for (medication or "
  const L14_03: Plain := "appointments), confirm the timing. "
  const L14_04: Plain := "All the reminders will be phone "
  const L14_05: Plain := "reminders - make this clear. Also "
  const L14_06: Plain := "make it clear the daily reminders "
  const L14_07: Plain := "will be for 5 days. \n"
  // prompt.js line 15
  const L15_01: Plain := "\n"
  // prompt.js line 16
  const L16_01: Plain := "Close the Call: End the call with a "
  const L16_02: Plain := "warm farewell, reassuring them they "
  const L16_03: Plain := "can always ask for help during the "
  const L16_04: Plain := "next check-in."

  const TEMPLATE: seq<Piece> := [
    Text([
      L01_01, L01_02, L01_03, L01_04, L01_05, L01_06, L01_07, L01_08, L01_09, L01_10, L01_11,
      L01_12, L01_13, L01_14, L01_15, L01_16, L01_17, L01_18, L01_19, L01_20, L01_21, L01_22,
      L01_23, L01_24, L01_25, L01_26, L01_27, L02_01, L03_01, L04_01, L05_01, L05_02]),
    Slot("name"),
    Text([
      L05_03, L05_04, L05_05, L06_01, L07_01, L07_02, L07_03, L07_04, L08_01, L08_02]),
    Slot("recent_conversations"),
    Text([
      L08_03, L08_04, L08_05, L08_06, L08_07, L09_01]),
    Slot("name"),
    Text([
      L09_02]),
    Slot("medication"),
    Text([
      L09_03, L10_01, L11_01, L11_02, L12_01, L12_02, L12_03, L12_04, L13_01, L13_02, L13_03,
      L13_04, L13_05]),
    Slot("interests"),
    Text([
      L13_06, L13_07]),
    Slot("relevant_news"),
    Text([
      L13_08, L14_01, L14_02, L14_03, L14_04, L14_05, L14_06, L14_07, L15_01, L16_01, L16_02,
      L16_03, L16_04])
  ]

  /** `SYSTEM_PROMPT`, as exported by prompt.js. */
  const SYSTEM_PROMPT: string := Render(TEMPLATE)

  /** The keys of the dynamic-variable record built for every call. */
  const VARIABLE_KEYS: set<Key> :=
    {"name", "interests", "medication", "recent_conversations", "relevant_news"}

  // ---------------------------------------------------------------------
  // Occurrences of a placeholder in rendered text
  // ---------------------------------------------------------------------

  /** Two different keys give placeholders neither of which starts the other. */
  lemma PlaceholderMismatch(k: Key, j: Key, b: string)
    requires k != j
    ensures !(Placeholder(j) <= Placeholder(k) + b)
  {
    var s := Placeholder(k) + b;
    var p := Placeholder(j);
    if |k| == |j| {
      var i :| 0 <= i < |k| && k[i] != j[i];
      assert s[2 + i] == k[i] && p[2 + i] == j[i];
    } else if |j| < |k| {
      assert k[|j|] in k;
      assert s[2 + |j|] == k[|j|] && p[2 + |j|] == '}';
    } else {
      assert j[|k|] in j;
      assert s[2 + |k|] == '}' && p[2 + |k|] == j[|k|];
    }
  }

  /** After the leading `{` of a placeholder, no placeholder can begin. */
  lemma PlaceholderTail(k: Key, b: string)
    ensures (Placeholder(k) + b)[1..] == "{" + (k + "}}" + b)
    ensures '{' !in k + "}}"
  {
  }

  /** Replacing the placeholder of `j` in text that starts with the placeholder of `k`. */
  lemma {:induction false} ReplaceAllSlot(k: Key, j: Key, b: string, r: string)
    ensures ReplaceAll(Placeholder(k) + b, Placeholder(j), r)
         == (if k == j then r else Placeholder(k)) + ReplaceAll(b, Placeholder(j), r)
  {
    var s := Placeholder(k) + b;
    var p := Placeholder(j);
    if k == j {
      assert p <= s && s[|p|..] == b;
    } else {
      PlaceholderMismatch(k, j, b);
      PlaceholderTail(k, b);
      var s1 := s[1..];
      assert !(p <= s1) by {
        assert |k| > 0 ==> s1[1] == k[0] && k[0] in k;
      }
      assert s1[1..] == k + "}}" + b;
      ReplaceAllSkip(k + "}}", b, p, r);
      calc {
        ReplaceAll(s, p, r);
        [s[0]] + ReplaceAll(s1, p, r);
        [s[0]] + ([s1[0]] + ReplaceAll(s1[1..], p, r));
        [s[0]] + ([s1[0]] + (k + "}}" + ReplaceAll(b, p, r)));
        { assert [s[0]] + [s1[0]] + (k + "}}") == Placeholder(k); }
        Placeholder(k) + ReplaceAll(b, p, r);
      }
    }
  }

  /** The counting counterpart of `ReplaceAllSlot`. */
  lemma {:induction false} CountSlot(k: Key, j: Key, b: string)
    ensures Count(Placeholder(k) + b, Placeholder(j))
         == (if k == j then 1 else 0) + Count(b, Placeholder(j))
  {
    var s := Placeholder(k) + b;
    var p := Placeholder(j);
    if k != j {
      PlaceholderMismatch(k, j, b);
    }
    PlaceholderTail(k, b);
    var s1 := s[1..];
    assert !(p <= s1) by {
      assert |k| > 0 ==> s1[1] == k[0] && k[0] in k;
    }
    assert s1[1..] == k + "}}" + b;
    CountSkip(k + "}}", b, p);
  }

  /** Literal text has no `{`. */
  lemma TextHasNoBrace(cs: seq<Plain>)
    ensures '{' !in Concat(cs)
  {
    ConcatNoChar(cs, '{');
  }

  /** A placeholder occurs in rendered pieces exactly once per slot with its key. */
  lemma {:induction false} CountInRender(ps: seq<Piece>, j: Key)
    ensures Count(Render(ps), Placeholder(j)) == SlotCount(ps, j)
  {
    if |ps| > 0 {
      CountInRender(ps[1..], j);
      match ps[0]
      case Text(cs) =>
        TextHasNoBrace(cs);
        CountSkip(Concat(cs), Render(ps[1..]), Placeholder(j));
      case Slot(k) =>
        CountSlot(k, j, Render(ps[1..]));
    }
  }

  /**
   * Replacing every occurrence of a placeholder in rendered pieces is the same
   * as substituting the value for that placeholder's slots: the literal text
   * and the other slots come through untouched.
   */
  lemma {:induction false} ReplaceInRender(ps: seq<Piece>, k: Key, v: Plain)
    ensures ReplaceAll(Render(ps), Placeholder(k), v) == Render(Subst(ps, k, v))
  {
    if |ps| > 0 {
      ReplaceInRender(ps[1..], k, v);
      var rest := Render(ps[1..]);
      match ps[0]
      case Text(cs) =>
        TextHasNoBrace(cs);
        ReplaceAllSkip(Concat(cs), rest, Placeholder(k), v);
      case Slot(j) =>
        ReplaceAllSlot(j, k, rest, v);
        assert Concat([v]) == v;
    }
  }

  // ---------------------------------------------------------------------
  // Facts about the template of prompt.js
  // ---------------------------------------------------------------------

  /** One step of `SlotCount` taken at position `i`. */
  lemma SlotCountAt(ps: seq<Piece>, i: nat, k: string)
    requires i < |ps|
    ensures SlotCount(ps[i..], k) == SlotMark(ps[i], k) + SlotCount(ps[i + 1..], k)
  {
    assert ps[i..][1..] == ps[i + 1..];
  }

  /** The slot count of the template, piece by piece. */
  lemma TemplateSlotCountUnrolled(k: string)
    ensures |TEMPLATE| == 13
    ensures SlotCount(TEMPLATE, k) == SlotMark(TEMPLATE[0], k) + SlotMark(TEMPLATE[1], k) + SlotMark(TEMPLATE[2], k) + SlotMark(TEMPLATE[3], k) + SlotMark(TEMPLATE[4], k) + SlotMark(TEMPLATE[5], k) + SlotMark(TEMPLATE[6], k) + SlotMark(TEMPLATE[7], k) + SlotMark(TEMPLATE[8], k) + SlotMark(TEMPLATE[9], k) + SlotMark(TEMPLATE[10], k) + SlotMark(TEMPLATE[11], k) + SlotMark(TEMPLATE[12], k)
  {
    var t := TEMPLATE;
    assert |t| == 13;
    SlotCountAt(t, 12, k);
    SlotCountAt(t, 11, k);
    SlotCountAt(t, 10, k);
    SlotCountAt(t, 9, k);
    SlotCountAt(t, 8, k);
    SlotCountAt(t, 7, k);
    SlotCountAt(t, 6, k);
    SlotCountAt(t, 5, k);
    SlotCountAt(t, 4, k);
    SlotCountAt(t, 3, k);
    SlotCountAt(t, 2, k);
    SlotCountAt(t, 1, k);
    SlotCountAt(t, 0, k);
    assert t[0..] == t;
  }

  /** `{{name}}` is in the template twice. */
  lemma NameSlotTwice()
    ensures SlotCount(TEMPLATE, "name") == 2
  {
    TemplateSlotCountUnrolled("name");
  }

  /** Each other key of the record has exactly one placeholder in the template. */
  lemma OtherSlotsOnce()
    ensures SlotCount(TEMPLATE, "recent_conversations") == 1
    ensures SlotCount(TEMPLATE, "medication") == 1
    ensures SlotCount(TEMPLATE, "interests") == 1
    ensures SlotCount(TEMPLATE, "relevant_news") == 1
  {
    TemplateSlotCountUnrolled("recent_conversations");
    TemplateSlotCountUnrolled("medication");
    TemplateSlotCountUnrolled("interests");
    TemplateSlotCountUnrolled("relevant_news");
  }

  /** A slot at position `i` is counted by `SlotCount` for its key. */
  lemma {:induction false} SlotCountPositive(ps: seq<Piece>, i: nat)
    requires i < |ps| && ps[i].Slot?
    ensures SlotCount(ps, ps[i].key) >= 1
  {
    if i > 0 {
      SlotCountPositive(ps[1..], i - 1);
    }
  }

  /** Every placeholder of the template names one of the record's keys. */
  lemma TemplateSlotKeys()
    ensures forall i | 0 <= i < |TEMPLATE| && TEMPLATE[i].Slot? :: TEMPLATE[i].key in VARIABLE_KEYS
  {
    forall i | 0 <= i < |TEMPLATE| && TEMPLATE[i].Slot?
      ensures TEMPLATE[i].key in VARIABLE_KEYS
    {
      var k := TEMPLATE[i].key;
      SlotCountPositive(TEMPLATE, i);
      TemplateSlotCountUnrolled(k);
    }
  }

  /** `{{name}}` occurs twice in `SYSTEM_PROMPT`. */
  lemma NamePlaceholderTwice()
    ensures Count(SYSTEM_PROMPT, Placeholder("name")) == 2
  {
    CountInRender(TEMPLATE, "name");
    NameSlotTwice();
  }

  /** Each of the other four placeholders occurs once in `SYSTEM_PROMPT`. */
  lemma PlaceholderOnce(k: Key)
    requires k in VARIABLE_KEYS - {"name"}
    ensures Count(SYSTEM_PROMPT, Placeholder(k)) == 1
  {
    CountInRender(TEMPLATE, k);
    OtherSlotsOnce();
  }

  /** No placeholder for a key outside the record occurs in `SYSTEM_PROMPT`. */
  lemma NoOtherPlaceholders(k: Key)
    requires k !in VARIABLE_KEYS
    ensures Count(SYSTEM_PROMPT, Placeholder(k)) == 0
  {
    CountInRender(TEMPLATE, k);
    TemplateSlotCountUnrolled(k);
  }
}
