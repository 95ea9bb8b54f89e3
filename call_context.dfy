/**
 * The dynamic-variable record of the `/outbound-call` route (outbound.js
 * lines 89-131): the context fetched for a patient is rendered into five
 * named strings, and any failure leaves the defaults in place.
 *
 * A record is an ordered list of entries because the prompt filler walks
 * `Object.entries` in insertion order, and the default record and the
 * built one insert their keys in different orders.
 */
module CallContext {
  import opened Wrappers
  import opened JsStrings

  // ---------------------------------------------------------------------
  // The context record returned by the context service; every field may be
  // absent (JavaScript `undefined` or `null`).
  // ---------------------------------------------------------------------

  datatype Patient = Patient(name: Option<string>)
  datatype Interest = Interest(name: Option<string>)
  datatype Medication = Medication(name: Option<string>, dosage: Option<string>, frequency: Option<string>)
  datatype RecentCall = RecentCall(summary: Option<string>)
  datatype NewsStory = NewsStory(title: Option<string>, summary: Option<string>)
  datatype NewsItem = NewsItem(interest: Option<string>, news: Option<seq<NewsStory>>)

  datatype Context = Context(
    patient: Option<Patient>,
    interests: Option<seq<Interest>>,
    medications: Option<seq<Medication>>,
    recentCalls: Option<seq<RecentCall>>,
    relevantNews: Option<seq<NewsItem>>)

  /** What became of the context request. */
  datatype FetchOutcome =
    | Threw             // the request failed, or its body was not JSON
    | NotOk             // a response whose status is not a success
    | Ok(context: Context)

  // ---------------------------------------------------------------------
  // The dynamic-variable record
  // ---------------------------------------------------------------------

  datatype Entry = Entry(key: string, value: string)
  type Vars = seq<Entry>

  /** The value stored under `key`, as a property read on the object. */
  function Lookup(vars: Vars, key: string): Option<string>
  {
    if |vars| == 0 then None
    else if vars[0].key == key then Some(vars[0].value)
    else Lookup(vars[1..], key)
  }

  /** One step of `Lookup` taken at position `i`. */
  lemma LookupAt(vars: Vars, i: nat, key: string)
    requires i < |vars|
    ensures Lookup(vars[i..], key)
         == if vars[i].key == key then Some(vars[i].value) else Lookup(vars[i + 1..], key)
  {
    assert vars[i..][1..] == vars[i + 1..];
  }

  /** Reading a key of a five-entry record: the first entry with that key wins. */
  lemma LookupFive(vars: Vars, key: string)
    requires |vars| == 5
    ensures Lookup(vars, key) ==
      if vars[0].key == key then Some(vars[0].value)
      else if vars[1].key == key then Some(vars[1].value)
      else if vars[2].key == key then Some(vars[2].value)
      else if vars[3].key == key then Some(vars[3].value)
      else if vars[4].key == key then Some(vars[4].value)
      else None
  {
    assert Lookup(vars[5..], key) == None;
    LookupAt(vars, 4, key);
    LookupAt(vars, 3, key);
    LookupAt(vars, 2, key);
    LookupAt(vars, 1, key);
    LookupAt(vars, 0, key);
    assert vars[0..] == vars;
  }

  const NAME := "name"
  const INTERESTS := "interests"
  const MEDICATION := "medication"
  const RECENT_CONVERSATIONS := "recent_conversations"
  const RELEVANT_NEWS := "relevant_news"

  /** The record the route starts from and keeps when anything fails. */
  const DEFAULT_VARIABLES: Vars := [
    Entry(NAME, ""),
    Entry(INTERESTS, ""),
    Entry(MEDICATION, ""),
    Entry(RELEVANT_NEWS, ""),
    Entry(RECENT_CONVERSATIONS, "No previous call data")
  ]

  const INTERESTS_PREFIX := "Here is a list of interests: "
  const MEDICATIONS_PREFIX := "Here is a list of medications: "
  const RECENT_PREFIX := "Here is a summary of recent conversations: "
  const NEWS_PREFIX := "Here is relevant news for your interests: "

  const NO_INTERESTS := "No interests"
  const NO_MEDICATIONS := "No medications"
  const NO_RECENT := "No previous call data"
  const NO_NEWS := "No relevant news"

  // ---------------------------------------------------------------------
  // JavaScript stringification of a field that may be absent
  // ---------------------------------------------------------------------

  /** `${x}` inside a template literal: an absent value is written `undefined`. */
  function Interpolate(x: Option<string>): string
  {
    match x
    case None => "undefined"
    case Some(s) => s
  }

  /** A JavaScript value that passes `if (x)`: present and not the empty string. */
  predicate Truthy(x: Option<string>)
  {
    x.Some? && x.value != ""
  }

  /** An element as `Array.prototype.join` writes it: an absent value is written as nothing. */
  function JoinElement(x: Option<string>): string
  {
    match x
    case None => ""
    case Some(s) => s
  }

  // ---------------------------------------------------------------------
  // The five rendered fields
  // ---------------------------------------------------------------------

  /** `context.interests.map(i => i.name)`, as the join writes each name. */
  function InterestNames(xs: seq<Interest>): seq<string>
  {
    seq(|xs|, i requires 0 <= i < |xs| => JoinElement(xs[i].name))
  }

  /** `${m.name} ${m.dosage} ${m.frequency}` for each medication. */
  function MedicationLines(xs: seq<Medication>): seq<string>
  {
    seq(|xs|, i requires 0 <= i < |xs| =>
      Interpolate(xs[i].name) + " " + Interpolate(xs[i].dosage) + " " + Interpolate(xs[i].frequency))
  }

  /** `${call.summary}` for each recent call. */
  function CallSummaries(xs: seq<RecentCall>): seq<string>
  {
    seq(|xs|, i requires 0 <= i < |xs| => Interpolate(xs[i].summary))
  }

  /** The `interests` field. An array, even an empty one, is truthy. */
  function InterestsText(xs: Option<seq<Interest>>): string
  {
    match xs
    case None => NO_INTERESTS
    case Some(l) => INTERESTS_PREFIX + Join(InterestNames(l), ", ")
  }

  /** The `medication` field. */
  function MedicationText(xs: Option<seq<Medication>>): string
  {
    match xs
    case None => NO_MEDICATIONS
    case Some(l) => MEDICATIONS_PREFIX + Join(MedicationLines(l), ", ")
  }

  /** The `recent_conversations` field. */
  function RecentText(xs: Option<seq<RecentCall>>): string
  {
    match xs
    case None => NO_RECENT
    case Some(l) => RECENT_PREFIX + Join(CallSummaries(l), ", ")
  }

  /** `${n.title} - ${n.summary}` for each story of one interest. */
  function StoryLines(xs: seq<NewsStory>): seq<string>
  {
    seq(|xs|, i requires 0 <= i < |xs| => Interpolate(xs[i].title) + " - " + Interpolate(xs[i].summary))
  }

  /**
   * `For ${item.interest}: ...` for one news item, or `None` where
   * `item.news.map` throws because the item has no `news` array.
   */
  function NewsLine(item: NewsItem): Option<string>
  {
    match item.news
    case None => None
    case Some(stories) => Some("For " + Interpolate(item.interest) + ": " + Join(StoryLines(stories), "; "))
  }

  /** The lines of every news item, or `None` as soon as one of them throws. */
  function NewsLines(items: seq<NewsItem>): (r: Option<seq<string>>)
    ensures r.Some? ==> |r.value| == |items|
    ensures r.Some? ==> forall i | 0 <= i < |items| :: NewsLine(items[i]) == Some(r.value[i])
  {
    if |items| == 0 then Some([])
    else match NewsLine(items[0])
      case None => None
      case Some(line) =>
        match NewsLines(items[1..])
        case None => None
        case Some(rest) => Some([line] + rest)
  }

  /**
   * The `relevant_news` field: the lines joined by `. `, with the whitespace
   * at both ends of the joined part (not of the prefix) trimmed; `None` when
   * building it throws.
   */
  function RelevantNewsText(items: Option<seq<NewsItem>>): Option<string>
  {
    match items
    case None => Some(NO_NEWS)
    case Some(l) =>
      match NewsLines(l)
      case None => None
      case Some(lines) => Some(NEWS_PREFIX + Trim(Join(lines, ". ")))
  }

  /**
   * The object literal of lines 114-126, or `None` when evaluating it throws
   * a TypeError: `context.patient.name` with no patient, or `item.news.map`
   * with a news item that has no stories. The keys are inserted in the
   * order the literal lists them.
   */
  function BuildVariables(ctx: Context): Option<Vars>
  {
    if ctx.patient.None? then None
    else match RelevantNewsText(ctx.relevantNews)
      case None => None
      case Some(news) =>
        Some([
          Entry(NAME, Interpolate(ctx.patient.value.name)),
          Entry(INTERESTS, InterestsText(ctx.interests)),
          Entry(MEDICATION, MedicationText(ctx.medications)),
          Entry(RECENT_CONVERSATIONS, RecentText(ctx.recentCalls)),
          Entry(RELEVANT_NEWS, news)
        ])
  }

  /**
   * The record the route stores: the built one when the request succeeded
   * and building did not throw, otherwise the defaults, untouched (the
   * assignment of line 114 happens only once the whole literal is built).
   */
  function ResolveVariables(outcome: FetchOutcome): Vars
  {
    match outcome
    case Ok(ctx) =>
      (match BuildVariables(ctx)
       case Some(vars) => vars
       case None => DEFAULT_VARIABLES)
    case _ => DEFAULT_VARIABLES
  }

  // ---------------------------------------------------------------------
  // Properties
  // ---------------------------------------------------------------------

  /** The defaults: empty strings, except `recent_conversations`. */
  lemma DefaultValues()
    ensures Lookup(DEFAULT_VARIABLES, NAME) == Some("")
    ensures Lookup(DEFAULT_VARIABLES, INTERESTS) == Some("")
    ensures Lookup(DEFAULT_VARIABLES, MEDICATION) == Some("")
    ensures Lookup(DEFAULT_VARIABLES, RELEVANT_NEWS) == Some("")
    ensures Lookup(DEFAULT_VARIABLES, RECENT_CONVERSATIONS) == Some("No previous call data")
  {
    LookupFive(DEFAULT_VARIABLES, MEDICATION);
    LookupFive(DEFAULT_VARIABLES, RELEVANT_NEWS);
    LookupFive(DEFAULT_VARIABLES, RECENT_CONVERSATIONS);
  }

  /** Building throws exactly when one news item has no `news` array. */
  lemma {:induction false} NewsLinesFail(items: seq<NewsItem>)
    ensures NewsLines(items).None? <==> exists i :: 0 <= i < |items| && items[i].news.None?
  {
    if |items| > 0 {
      NewsLinesFail(items[1..]);
      if NewsLine(items[0]).Some? && NewsLines(items[1..]).None? {
        var i :| 0 <= i < |items[1..]| && items[1..][i].news.None?;
        assert items[i + 1].news.None?;
      }
      if exists i :: 0 <= i < |items| && items[i].news.None? {
        var i :| 0 <= i < |items| && items[i].news.None?;
        if i > 0 {
          assert items[1..][i - 1].news.None?;
        }
      }
    }
  }

  /**
   * Building the record throws exactly when the patient is missing or a
   * news item has no stories.
   */
  lemma BuildFails(ctx: Context)
    ensures BuildVariables(ctx).None? <==>
      || ctx.patient.None?
      || (ctx.relevantNews.Some? &&
          exists i :: 0 <= i < |ctx.relevantNews.value| && ctx.relevantNews.value[i].news.None?)
  {
    if ctx.relevantNews.Some? {
      NewsLinesFail(ctx.relevantNews.value);
    }
  }

  /**
   * The stored record is exactly the defaults when the request threw, the
   * response was not ok, or building threw; a built record never equals
   * them, since it lists `recent_conversations` before `relevant_news`.
   */
  lemma DefaultsExactlyOnFailure(outcome: FetchOutcome)
    ensures ResolveVariables(outcome) == DEFAULT_VARIABLES <==>
      (!outcome.Ok? || BuildVariables(outcome.context).None?)
  {
    if outcome.Ok? && BuildVariables(outcome.context).Some? {
      var vars := BuildVariables(outcome.context).value;
      assert vars[3].key != DEFAULT_VARIABLES[3].key;
    }
  }

  /** A prefixed text starting with `H` is never one of the `No ...` defaults. */
  lemma PrefixedIsNotDefault(prefix: string, rest: string, default: string)
    requires |prefix| > 0 && prefix[0] == 'H'
    requires |default| > 0 && default[0] == 'N'
    ensures prefix + rest != default
  {
    assert (prefix + rest)[0] == 'H';
  }

  /**
   * In a built record each list field is either its prefix followed by the
   * joined list, when the field is present, or its fixed default, when it
   * is absent; the two cases can be told apart.
   */
  lemma BuiltFields(ctx: Context)
    requires BuildVariables(ctx).Some?
    ensures var vars := BuildVariables(ctx).value;
      && Lookup(vars, NAME) == Some(Interpolate(ctx.patient.value.name))
      && (ctx.interests.None? <==> Lookup(vars, INTERESTS) == Some(NO_INTERESTS))
      && (ctx.interests.Some? ==>
            Lookup(vars, INTERESTS) == Some(INTERESTS_PREFIX + Join(InterestNames(ctx.interests.value), ", ")))
      && (ctx.medications.None? <==> Lookup(vars, MEDICATION) == Some(NO_MEDICATIONS))
      && (ctx.medications.Some? ==>
            Lookup(vars, MEDICATION) == Some(MEDICATIONS_PREFIX + Join(MedicationLines(ctx.medications.value), ", ")))
      && (ctx.recentCalls.None? <==> Lookup(vars, RECENT_CONVERSATIONS) == Some(NO_RECENT))
      && (ctx.recentCalls.Some? ==>
            Lookup(vars, RECENT_CONVERSATIONS) == Some(RECENT_PREFIX + Join(CallSummaries(ctx.recentCalls.value), ", ")))
      && (ctx.relevantNews.None? <==> Lookup(vars, RELEVANT_NEWS) == Some(NO_NEWS))
  {
    var vars := BuildVariables(ctx).value;
    LookupFive(vars, NAME);
    LookupFive(vars, INTERESTS);
    LookupFive(vars, MEDICATION);
    LookupFive(vars, RECENT_CONVERSATIONS);
    LookupFive(vars, RELEVANT_NEWS);
    if ctx.interests.Some? {
      PrefixedIsNotDefault(INTERESTS_PREFIX, Join(InterestNames(ctx.interests.value), ", "), NO_INTERESTS);
    }
    if ctx.medications.Some? {
      PrefixedIsNotDefault(MEDICATIONS_PREFIX, Join(MedicationLines(ctx.medications.value), ", "), NO_MEDICATIONS);
    }
    if ctx.recentCalls.Some? {
      PrefixedIsNotDefault(RECENT_PREFIX, Join(CallSummaries(ctx.recentCalls.value), ", "), NO_RECENT);
    }
    if ctx.relevantNews.Some? {
      var news := Trim(Join(NewsLines(ctx.relevantNews.value).value, ". "));
      PrefixedIsNotDefault(NEWS_PREFIX, news, NO_NEWS);
    }
  }

  /**
   * `body` is `raw[i..j]`, the part of `raw` left between a leading and a
   * trailing run of whitespace, and it neither begins nor ends with
   * whitespace.
   */
  predicate TrimmedSlice(raw: string, i: int, j: int, body: string)
  {
    && 0 <= i <= j <= |raw|
    && body == raw[i..j]
    && (i == j || (!IsJsSpace(raw[i]) && !IsJsSpace(raw[j - 1])))
    && (forall k | 0 <= k < i :: IsJsSpace(raw[k]))
    && (forall k | j <= k < |raw| :: IsJsSpace(raw[k]))
  }

  /**
   * `relevant_news` of a built record, when news is present: the prefix,
   * then the `. `-joined lines with the whitespace at both of their ends
   * removed and nothing else changed.
   */
  lemma BuiltNewsTrimmed(ctx: Context)
    requires BuildVariables(ctx).Some? && ctx.relevantNews.Some?
    ensures NewsLines(ctx.relevantNews.value).Some?
    ensures exists i, j, body ::
      && TrimmedSlice(Join(NewsLines(ctx.relevantNews.value).value, ". "), i, j, body)
      && Lookup(BuildVariables(ctx).value, RELEVANT_NEWS) == Some(NEWS_PREFIX + body)
  {
    var raw := Join(NewsLines(ctx.relevantNews.value).value, ". ");
    var i := LeadingSpaces(raw);
    var t := raw[i..];
    var j := i + |t| - TrailingSpaces(t);
    assert Trim(raw) == raw[i..j];
    forall k | j <= k < |raw|
      ensures IsJsSpace(raw[k])
    {
      assert raw[k] == t[k - i];
    }
    assert i < j ==> raw[j - 1] == t[|t| - 1 - TrailingSpaces(t)];
    LookupFive(BuildVariables(ctx).value, RELEVANT_NEWS);
    assert TrimmedSlice(raw, i, j, raw[i..j]);
    assert Lookup(BuildVariables(ctx).value, RELEVANT_NEWS) == Some(NEWS_PREFIX + raw[i..j]);
  }

  /**
   * An empty array is truthy in JavaScript: a present but empty list gives
   * its prefix followed by nothing, not the "No ..." default.
   */
  lemma EmptyListsKeepPrefix(ctx: Context)
    requires BuildVariables(ctx).Some?
    requires ctx.interests == Some([]) && ctx.medications == Some([]) && ctx.recentCalls == Some([])
    ensures Lookup(BuildVariables(ctx).value, INTERESTS) == Some(INTERESTS_PREFIX)
    ensures Lookup(BuildVariables(ctx).value, MEDICATION) == Some(MEDICATIONS_PREFIX)
    ensures Lookup(BuildVariables(ctx).value, RECENT_CONVERSATIONS) == Some(RECENT_PREFIX)
  {
    assert InterestNames([]) == [];
    assert MedicationLines([]) == [];
    assert CallSummaries([]) == [];
    assert INTERESTS_PREFIX + Join([], ", ") == INTERESTS_PREFIX;
    assert MEDICATIONS_PREFIX + Join([], ", ") == MEDICATIONS_PREFIX;
    assert RECENT_PREFIX + Join([], ", ") == RECENT_PREFIX;
    LookupFive(BuildVariables(ctx).value, INTERESTS);
    LookupFive(BuildVariables(ctx).value, MEDICATION);
    LookupFive(BuildVariables(ctx).value, RECENT_CONVERSATIONS);
  }

  /** The keys a record defines. */
  predicate Defines(vars: Vars, key: string)
  {
    Lookup(vars, key).Some?
  }

  /**
   * Whatever the fetch gave, the stored record has five entries with
   * distinct keys, and it defines exactly the five variable names.
   */
  lemma ResolvedRecordIsComplete(outcome: FetchOutcome, key: string)
    ensures |ResolveVariables(outcome)| == 5
    ensures forall i, j | 0 <= i < j < 5 ::
      ResolveVariables(outcome)[i].key != ResolveVariables(outcome)[j].key
    ensures Defines(ResolveVariables(outcome), key) <==>
      key in {NAME, INTERESTS, MEDICATION, RECENT_CONVERSATIONS, RELEVANT_NEWS}
  {
    LookupFive(ResolveVariables(outcome), key);
  }
}
