/**
 * The keyword/substring context retriever of the chat backend: intent
 * classification by keyword overlap with three fixed probe phrases, a
 * whole-query substring fallback deduplicated by id, and the rendering of
 * the selected knowledge entries into one text block for the prompt.
 * The knowledge base is a parameter instead of a file read at start-up.
 */
module Retriever {
  import opened Text

  /**
   * One category of the `skills` object. An entry's list of these stands
   * for `Object.entries(skills)`: its categories are distinct and none is an
   * array-index key, so the list is in insertion order.
   */
  datatype SkillList = SkillList(category: string, values: seq<string>)

  /** A knowledge entry; an absent optional field is `None`. */
  datatype Entry = Entry(
    id: string,
    title: string,
    description: Option<string>,
    summary: Option<string>,
    technologies: Option<seq<string>>,
    skills: Option<seq<SkillList>>,
    techStack: Option<seq<string>>,
    link: Option<string>)

  const ProjectsProbe: string := "projects portfolio"
  const WorkProbe: string := "work experience jobs career"
  const SkillsProbe: string := "skills technologies languages"
  const ProjectPrefix: string := "project_"
  const WorkPrefix: string := "work_"
  const OverviewId: string := "rudraksh_gupta_overview"
  const Header: string := "**Context about Rudraksh:**\n\n"

  // ---- containsKeywords ----

  /** The `some` over the keywords: does any of them occur in `text`? */
  function AnyWordIn(words: seq<string>, text: string): (b: bool)
    ensures b <==> exists k :: 0 <= k < |words| && Contains(text, words[k])
  {
    if |words| == 0 then false
    else Contains(text, words[0]) || AnyWordIn(words[1..], text)
  }

  /**
   * `containsKeywords(text, query)`: some whitespace-separated word of the
   * lowercased query occurs in the lowercased text.
   */
  function ContainsKeywords(text: string, query: string): bool {
    AnyWordIn(Words(Lower(query)), Lower(text))
  }

  /** True exactly when a non-empty, whitespace-free word of the lowercased query occurs in the lowercased text. */
  lemma ContainsKeywordsIff(text: string, query: string)
    ensures ContainsKeywords(text, query) <==>
      exists w :: w in Words(Lower(query)) && w != "" && NoSep(w, Whitespace) && Contains(Lower(text), w)
  {
    WordsShape(Lower(query));
  }

  lemma LowerBlank(s: string)
    requires IsBlank(s)
    ensures IsBlank(Lower(s))
  {
  }

  /** An empty or all-whitespace query has no keywords, so it matches nothing. */
  lemma BlankQueryHasNoKeywords(text: string, query: string)
    requires IsBlank(query)
    ensures !ContainsKeywords(text, query)
  {
    LowerBlank(query);
    WordsEmptyIffBlank(Lower(query));
  }

  // ---- intents ----

  datatype Intent = ProjectsIntent | WorkIntent | SkillsIntent | SearchIntent

  /**
   * The `if / else if` chain: the probe phrase is passed as the text and
   * the query as the keyword source, and the first intent that fires wins.
   */
  function Classify(lowerQuery: string): Intent {
    if ContainsKeywords(ProjectsProbe, lowerQuery) then ProjectsIntent
    else if ContainsKeywords(WorkProbe, lowerQuery) then WorkIntent
    else if ContainsKeywords(SkillsProbe, lowerQuery) then SkillsIntent
    else SearchIntent
  }

  /**
   * The intents are tried in the order projects, work, skills: an intent is
   * chosen exactly when some query word occurs inside its probe phrase and
   * no earlier probe phrase contains a query word.
   */
  lemma ClassifyPriority(query: string)
    ensures var ws := Words(Lower(Lower(query)));
      var hit := (probe: string) => exists w :: w in ws && Contains(probe, w);
      && (Classify(Lower(query)) == ProjectsIntent <==> hit(ProjectsProbe))
      && (Classify(Lower(query)) == WorkIntent <==> !hit(ProjectsProbe) && hit(WorkProbe))
      && (Classify(Lower(query)) == SkillsIntent <==> !hit(ProjectsProbe) && !hit(WorkProbe) && hit(SkillsProbe))
      && (Classify(Lower(query)) == SearchIntent <==> !hit(ProjectsProbe) && !hit(WorkProbe) && !hit(SkillsProbe))
  {
    ProbesAreLowercase();
  }

  lemma ProbesAreLowercase()
    ensures Lower(ProjectsProbe) == ProjectsProbe
    ensures Lower(WorkProbe) == WorkProbe
    ensures Lower(SkillsProbe) == SkillsProbe
  {
    LowerNoUpper(ProjectsProbe);
    LowerNoUpper(WorkProbe);
    LowerNoUpper(SkillsProbe);
  }

  // ---- selection ----

  /** `knowledgeBase.filter(item => item.id.startsWith(prefix))`. */
  function FilterPrefix(kb: seq<Entry>, prefix: string): (r: seq<Entry>)
    ensures |r| <= |kb|
    ensures forall e :: e in r <==> e in kb && StartsWith(e.id, prefix)
  {
    if |kb| == 0 then []
    else
      assert kb == [kb[0]] + kb[1..];
      (if StartsWith(kb[0].id, prefix) then [kb[0]] else []) + FilterPrefix(kb[1..], prefix)
  }

  /** The filter keeps knowledge-base order: it distributes over concatenation. */
  lemma {:induction false} FilterPrefixConcat(a: seq<Entry>, b: seq<Entry>, prefix: string)
    ensures FilterPrefix(a + b, prefix) == FilterPrefix(a, prefix) + FilterPrefix(b, prefix)
  {
    if |a| == 0 {
      assert a + b == b;
    } else {
      assert (a + b)[0] == a[0];
      assert (a + b)[1..] == a[1..] + b;
      FilterPrefixConcat(a[1..], b, prefix);
    }
  }

  /** The index of the first entry with the given id (`findIndex`). */
  function FirstIndexOf(kb: seq<Entry>, id: string): (r: Option<nat>)
    ensures r.None? <==> forall i :: 0 <= i < |kb| ==> kb[i].id != id
    ensures r.Some? ==>
      (r.value < |kb| && kb[r.value].id == id && forall j :: 0 <= j < r.value ==> kb[j].id != id)
  {
    if |kb| == 0 then None
    else if kb[0].id == id then Some(0)
    else
      match FirstIndexOf(kb[1..], id)
      case None => None
      case Some(i) => Some(i + 1)
  }

  /** `knowledgeBase.find(item => item.id === id)`. */
  function FindById(kb: seq<Entry>, id: string): Option<Entry> {
    match FirstIndexOf(kb, id)
    case None => None
    case Some(i) => Some(kb[i])
  }

  /** The entries the skills intent pushes: the overview entry, when present. */
  function SkillsSelection(kb: seq<Entry>): seq<Entry> {
    match FindById(kb, OverviewId)
    case None => []
    case Some(e) => [e]
  }

  /** At most one entry: the first with the overview id, or none if no entry has it. */
  lemma SkillsSelectionIsFirstOverview(kb: seq<Entry>)
    ensures |SkillsSelection(kb)| <= 1
    ensures SkillsSelection(kb) == [] <==> forall i :: 0 <= i < |kb| ==> kb[i].id != OverviewId
    ensures SkillsSelection(kb) != [] ==>
      exists i :: 0 <= i < |kb| && SkillsSelection(kb)[0] == kb[i] && kb[i].id == OverviewId &&
        forall j :: 0 <= j < i ==> kb[j].id != OverviewId
  {
  }

  // ---- fallback search ----

  function OptText(o: Option<string>): string {
    match o
    case None => ""
    case Some(s) => s
  }

  /** `list?.join(" ")`, with an absent list contributing nothing. */
  function OptJoin(o: Option<seq<string>>): string {
    match o
    case None => ""
    case Some(xs) => Join(xs, " ")
  }

  /** The values under one key of the `skills` object. */
  function LookupSkill(cats: seq<SkillList>, key: string): Option<seq<string>> {
    if |cats| == 0 then None
    else if cats[0].category == key then Some(cats[0].values)
    else LookupSkill(cats[1..], key)
  }

  /** `item.skills?.<key>?.join(" ")`. */
  function SkillJoin(e: Entry, key: string): string {
    match e.skills
    case None => ""
    case Some(cats) => OptJoin(LookupSkill(cats, key))
  }

  /**
   * The searchable text of an entry: title, description, summary,
   * technologies, tech stack and the four named skill lists, falsy parts
   * dropped, joined with spaces.
   */
  function SearchableText(e: Entry): string {
    Join(NonEmpty([
      e.title,
      OptText(e.description),
      OptText(e.summary),
      OptJoin(e.technologies),
      OptJoin(e.techStack),
      SkillJoin(e, "languages"),
      SkillJoin(e, "technologies"),
      SkillJoin(e, "system_design_architecture"),
      SkillJoin(e, "tools_platform")]), " ")
  }

  /** The fallback's substring test against the already lowercased query. */
  predicate Matches(e: Entry, lowerQuery: string) {
    Contains(Lower(SearchableText(e)), lowerQuery)
  }

  /** The ids of the matching entries of `s`: what the `foundItems` set holds after scanning `s`. */
  function MatchedIds(s: seq<Entry>, q: string): set<string> {
    set j | 0 <= j < |s| && Matches(s[j], q) :: s[j].id
  }

  /** Index-based reference: entry `i` matches and no earlier matching entry has its id. */
  predicate FirstMatchOfId(kb: seq<Entry>, q: string, i: nat)
    requires i < |kb|
  {
    Matches(kb[i], q) &&
    forall j :: 0 <= j < i ==> !(kb[j].id == kb[i].id && Matches(kb[j], q))
  }

  /** The entries among the first `n` that the fallback keeps, in knowledge-base order. */
  function SearchSelection(kb: seq<Entry>, q: string, n: nat): seq<Entry>
    requires n <= |kb|
  {
    if n == 0 then []
    else SearchSelection(kb, q, n - 1) + (if FirstMatchOfId(kb, q, n - 1) then [kb[n - 1]] else [])
  }

  function IdsOf(s: seq<Entry>): set<string> {
    set k | 0 <= k < |s| :: s[k].id
  }

  /** Growing the scanned prefix by one entry. */
  lemma MatchedIdsStep(kb: seq<Entry>, q: string, i: nat)
    requires i < |kb|
    ensures MatchedIds(kb[..i + 1], q) ==
      MatchedIds(kb[..i], q) + (if Matches(kb[i], q) then {kb[i].id} else {})
    ensures FirstMatchOfId(kb, q, i) <==> Matches(kb[i], q) && kb[i].id !in MatchedIds(kb[..i], q)
  {
    var a := MatchedIds(kb[..i + 1], q);
    var b := MatchedIds(kb[..i], q) + (if Matches(kb[i], q) then {kb[i].id} else {});
    forall x | x in a ensures x in b {
      var j :| 0 <= j < i + 1 && Matches(kb[..i + 1][j], q) && kb[..i + 1][j].id == x;
      if j < i { assert kb[..i][j] == kb[j]; }
    }
    forall x | x in b ensures x in a {
      if x in MatchedIds(kb[..i], q) {
        var j :| 0 <= j < i && Matches(kb[..i][j], q) && kb[..i][j].id == x;
        assert kb[..i + 1][j] == kb[j];
      } else {
        assert kb[..i + 1][i] == kb[i];
      }
    }
    if !FirstMatchOfId(kb, q, i) && Matches(kb[i], q) {
      var j :| 0 <= j < i && kb[j].id == kb[i].id && Matches(kb[j], q);
      assert kb[..i][j] == kb[j];
    }
  }

  /** One pass of the fallback's `filter`: keep the entry exactly when it matches and its id is new. */
  lemma FallbackStep(kb: seq<Entry>, q: string, i: nat)
    requires i < |kb|
    ensures var hit := Matches(kb[i], q) && kb[i].id !in MatchedIds(kb[..i], q);
      && MatchedIds(kb[..i + 1], q) == MatchedIds(kb[..i], q) + (if hit then {kb[i].id} else {})
      && SearchSelection(kb, q, i + 1) == SearchSelection(kb, q, i) + (if hit then [kb[i]] else [])
  {
    MatchedIdsStep(kb, q, i);
    if Matches(kb[i], q) && kb[i].id in MatchedIds(kb[..i], q) {
      assert MatchedIds(kb[..i], q) + {kb[i].id} == MatchedIds(kb[..i], q);
    }
  }

  /** The fallback keeps only matching entries of the scanned prefix. */
  lemma {:induction false} SearchSelectionMatches(kb: seq<Entry>, q: string, n: nat)
    requires n <= |kb|
    ensures forall k :: 0 <= k < |SearchSelection(kb, q, n)| ==>
      SearchSelection(kb, q, n)[k] in kb[..n] && Matches(SearchSelection(kb, q, n)[k], q)
  {
    if n > 0 {
      SearchSelectionMatches(kb, q, n - 1);
      var prev := SearchSelection(kb, q, n - 1);
      var r := SearchSelection(kb, q, n);
      forall k | 0 <= k < |r| ensures r[k] in kb[..n] && Matches(r[k], q) {
        if k < |prev| {
          assert r[k] == prev[k];
          assert prev[k] in kb[..n - 1];
          assert kb[..n - 1] <= kb[..n];
        } else {
          assert r[k] == kb[n - 1] == kb[..n][n - 1];
        }
      }
    }
  }

  /** Every id that has a matching entry is kept, and only those ids. */
  lemma {:induction false} SearchSelectionIds(kb: seq<Entry>, q: string, n: nat)
    requires n <= |kb|
    ensures IdsOf(SearchSelection(kb, q, n)) == MatchedIds(kb[..n], q)
  {
    if n > 0 {
      SearchSelectionIds(kb, q, n - 1);
      FallbackStep(kb, q, n - 1);
      var before := MatchedIds(kb[..n - 1], q);
      IdsStep(SearchSelection(kb, q, n - 1), kb[n - 1], Matches(kb[n - 1], q) && kb[n - 1].id !in before, before);
    }
  }

  /** Keeping `e` or not adds its id to the kept ids or nothing. */
  lemma IdsStep(prev: seq<Entry>, e: Entry, hit: bool, ids: set<string>)
    requires IdsOf(prev) == ids
    ensures IdsOf(prev + (if hit then [e] else [])) == ids + (if hit then {e.id} else {})
  {
    if hit {
      IdsOfSnoc(prev, e);
    } else {
      assert prev + [] == prev;
    }
  }

  lemma IdsOfSnoc(s: seq<Entry>, e: Entry)
    ensures IdsOf(s + [e]) == IdsOf(s) + {e.id}
  {
    var r := s + [e];
    forall x | x in IdsOf(r) ensures x in IdsOf(s) + {e.id} {
      var k :| 0 <= k < |r| && r[k].id == x;
      if k < |s| { assert r[k] == s[k]; }
    }
    forall x | x in IdsOf(s) ensures x in IdsOf(r) {
      var k :| 0 <= k < |s| && s[k].id == x;
      assert r[k] == s[k];
    }
    assert r[|s|] == e;
  }

  /** No id is kept twice: the first matching entry of each id wins. */
  lemma {:induction false} SearchSelectionDistinct(kb: seq<Entry>, q: string, n: nat)
    requires n <= |kb|
    ensures forall a, b :: 0 <= a < b < |SearchSelection(kb, q, n)| ==>
      SearchSelection(kb, q, n)[a].id != SearchSelection(kb, q, n)[b].id
  {
    if n > 0 {
      SearchSelectionDistinct(kb, q, n - 1);
      var prev := SearchSelection(kb, q, n - 1);
      var r := SearchSelection(kb, q, n);
      if FirstMatchOfId(kb, q, n - 1) {
        SearchSelectionIds(kb, q, n - 1);
        MatchedIdsStep(kb, q, n - 1);
        assert r == prev + [kb[n - 1]];
        forall a, b | 0 <= a < b < |r| ensures r[a].id != r[b].id {
          assert r[a] == prev[a];
          if b == |prev| {
            assert r[a].id in IdsOf(prev);
          } else {
            assert r[b] == prev[b];
          }
        }
      } else {
        assert r == prev;
      }
    }
  }

  /** Every string includes the empty string, so the empty query matches every entry. */
  lemma EmptyQueryMatchesAll(e: Entry)
    ensures Matches(e, "")
  {
    ContainsEmpty(Lower(SearchableText(e)));
  }

  /**
   * `retrieveRelevantContext`'s choice of entries: the first intent that
   * fires decides, and the fallback runs only when none does.
   */
  function Selection(kb: seq<Entry>, query: string): seq<Entry> {
    var lq := Lower(query);
    SelectFor(kb, Classify(lq), lq)
  }

  /** The entries one intent selects, given the lower-cased query. */
  function SelectFor(kb: seq<Entry>, intent: Intent, lq: string): seq<Entry> {
    match intent
    case ProjectsIntent => FilterPrefix(kb, ProjectPrefix)
    case WorkIntent => FilterPrefix(kb, WorkPrefix)
    case SkillsIntent => SkillsSelection(kb)
    case SearchIntent => SearchSelection(kb, lq, |kb|)
  }

  /**
   * The empty query fires no intent and selects, through the fallback, the
   * first entry of every id in the knowledge base.
   */
  lemma EmptyQuerySelectsEveryId(kb: seq<Entry>)
    ensures Classify(Lower("")) == SearchIntent
    ensures Selection(kb, "") == SearchSelection(kb, "", |kb|)
    ensures IdsOf(Selection(kb, "")) == IdsOf(kb)
  {
    BlankQuerySearches(kb, "");
    assert Lower("") == "";
    EmptySearchKeepsEveryId(kb);
  }

  /** An empty or all-whitespace query fires no intent, so the fallback search decides. */
  lemma BlankQuerySearches(kb: seq<Entry>, query: string)
    requires IsBlank(query)
    ensures Classify(Lower(query)) == SearchIntent
    ensures Selection(kb, query) == SearchSelection(kb, Lower(query), |kb|)
  {
    BlankQueryIsSearch(query);
    SelectionByIntent(kb, query, SearchIntent);
    SearchIntentSearches(kb, Lower(query));
  }

  lemma BlankQueryIsSearch(query: string)
    requires IsBlank(query)
    ensures Classify(Lower(query)) == SearchIntent
  {
    LowerBlank(query);
    BlankQueryHasNoKeywords(ProjectsProbe, Lower(query));
    BlankQueryHasNoKeywords(WorkProbe, Lower(query));
    BlankQueryHasNoKeywords(SkillsProbe, Lower(query));
  }

  lemma SearchIntentSearches(kb: seq<Entry>, lq: string)
    ensures SelectFor(kb, SearchIntent, lq) == SearchSelection(kb, lq, |kb|)
  {
  }

  lemma SelectionByIntent(kb: seq<Entry>, query: string, intent: Intent)
    requires Classify(Lower(query)) == intent
    ensures Selection(kb, query) == SelectFor(kb, intent, Lower(query))
  {
  }

  lemma EmptySearchKeepsEveryId(kb: seq<Entry>)
    ensures IdsOf(SearchSelection(kb, "", |kb|)) == IdsOf(kb)
  {
    SearchSelectionIds(kb, "", |kb|);
    EmptyQueryMatchesEveryId(kb);
  }

  lemma EmptyQueryMatchesEveryId(kb: seq<Entry>)
    ensures MatchedIds(kb[..|kb|], "") == IdsOf(kb)
  {
    assert kb[..|kb|] == kb;
    forall x | x in IdsOf(kb) ensures x in MatchedIds(kb, "") {
      var k :| 0 <= k < |kb| && kb[k].id == x;
      EmptyQueryMatchesAll(kb[k]);
    }
  }

  /**
   * The argument-order quirk: the one-letter query "i" occurs inside
   * "portfolio", so it selects the project entries.
   */
  lemma QueryIFiresProjects(kb: seq<Entry>)
    ensures Classify(Lower("i")) == ProjectsIntent
    ensures Selection(kb, "i") == FilterPrefix(kb, ProjectPrefix)
  {
    assert Lower("i") == "i";
    WordsOfWord("i");
    ProbesAreLowercase();
    ContainsAt(ProjectsProbe, "i", 16);
  }

  /**
   * The query "a" is in no word of "projects portfolio" but occurs inside
   * "career", so it selects the work entries.
   */
  lemma QueryAFiresWork(kb: seq<Entry>)
    ensures Classify(Lower("a")) == WorkIntent
    ensures Selection(kb, "a") == FilterPrefix(kb, WorkPrefix)
  {
    assert Lower("a") == "a";
    WordsOfWord("a");
    ProbesAreLowercase();
    assert 'a' !in ProjectsProbe;
    NotContainsMissingChar(ProjectsProbe, "a", 0);
    ContainsAt(WorkProbe, "a", 22);
  }

  // ---- rendering ----

  /** A `Label: value` line, emitted only for a truthy (present, non-empty) string. */
  function TextLine(name: string, o: Option<string>): string {
    if o.Some? && o.value != "" then name + o.value + "\n" else ""
  }

  /** A `Label: a, b` line, emitted for any present list, even an empty one (arrays are truthy). */
  function ListLine(name: string, o: Option<seq<string>>): string {
    match o
    case None => ""
    case Some(xs) => name + Join(xs, ", ") + "\n"
  }

  function SkillLine(c: SkillList): string {
    "  - " + c.category + ": " + Join(c.values, ", ") + "\n"
  }

  /** The lines of the skills loop over the first `|cats|` categories. */
  function SkillLines(cats: seq<SkillList>): string {
    if |cats| == 0 then "" else SkillLines(cats[..|cats| - 1]) + SkillLine(cats[|cats| - 1])
  }

  function SkillsBlock(o: Option<seq<SkillList>>): string {
    match o
    case None => ""
    case Some(cats) => "Skills:\n" + SkillLines(cats)
  }

  /** `formatEntry`'s text: the title marker, the present fields in fixed order, a blank line. */
  function EntryText(e: Entry): string {
    FieldLines(e) + SkillsBlock(e.skills) + "\n"
  }

  /** The text of `formatEntry` before its skills block. */
  function FieldLines(e: Entry): string {
    "--- " + e.title + " ---\n"
    + TextLine("Summary: ", e.summary)
    + TextLine("Description: ", e.description)
    + ListLine("Technologies: ", e.technologies)
    + ListLine("Tech Stack: ", e.techStack)
  }

  /** The title marker and one `+=` per truthy field. */
  method AppendFieldLines(e: Entry) returns (s: string)
    ensures s == FieldLines(e)
  {
    s := "--- " + e.title + " ---\n";
    if e.summary.Some? && e.summary.value != "" {
      s := s + ("Summary: " + e.summary.value + "\n");
    }
    assert s == "--- " + e.title + " ---\n" + TextLine("Summary: ", e.summary);
    if e.description.Some? && e.description.value != "" {
      s := s + ("Description: " + e.description.value + "\n");
    }
    assert s == "--- " + e.title + " ---\n" + TextLine("Summary: ", e.summary) + TextLine("Description: ", e.description);
    if e.technologies.Some? {
      s := s + ("Technologies: " + Join(e.technologies.value, ", ") + "\n");
    }
    assert s == "--- " + e.title + " ---\n" + TextLine("Summary: ", e.summary) + TextLine("Description: ", e.description)
      + ListLine("Technologies: ", e.technologies);
    if e.techStack.Some? {
      s := s + ("Tech Stack: " + Join(e.techStack.value, ", ") + "\n");
    }
  }

  /** The `for (const [key, value] of Object.entries(entry.skills))` loop. */
  method AppendSkillLines(s0: string, cats: seq<SkillList>) returns (s: string)
    ensures s == s0 + SkillLines(cats)
  {
    s := s0;
    for i := 0 to |cats|
      invariant s == s0 + SkillLines(cats[..i])
    {
      assert cats[..i + 1][..i] == cats[..i];
      s := s + ("  - " + cats[i].category + ": " + Join(cats[i].values, ", ") + "\n");
    }
    assert cats[..|cats|] == cats;
  }

  /** `formatEntry`: the field lines, the skills block when `skills` is present, a closing newline. */
  method FormatEntry(e: Entry) returns (s: string)
    ensures s == EntryText(e)
  {
    s := AppendFieldLines(e);
    if e.skills.Some? {
      s := AppendSkillLines(s + "Skills:\n", e.skills.value);
    }
    s := s + "\n";
  }

  /** Every formatted entry opens with its title marker and closes with a newline. */
  lemma EntryTextFrame(e: Entry)
    ensures StartsWith(EntryText(e), "--- " + e.title + " ---\n")
    ensures |EntryText(e)| > 0 && EntryText(e)[|EntryText(e)| - 1] == '\n'
  {
  }

  /**
   * Truthiness decides which labels appear: an empty summary is left out
   * like an absent one, but an empty technologies array still gets its
   * "Technologies: " line.
   */
  lemma EntryTextTruthiness(e: Entry)
    ensures EntryText(e.(summary := Some(""))) == EntryText(e.(summary := None))
    ensures var p := "--- " + e.title + " ---\n" + TextLine("Summary: ", e.summary) + TextLine("Description: ", e.description);
      var q := ListLine("Tech Stack: ", e.techStack) + SkillsBlock(e.skills) + "\n";
      && EntryText(e.(technologies := Some([]))) == p + "Technologies: \n" + q
      && EntryText(e.(technologies := None)) == p + q
  {
    var p := "--- " + e.title + " ---\n" + TextLine("Summary: ", e.summary) + TextLine("Description: ", e.description);
    var tail := ListLine("Tech Stack: ", e.techStack);
    var skills := SkillsBlock(e.skills);
    var line: string := "Technologies: \n";
    assert ListLine("Technologies: ", Some([])) == line by {
      assert Join([], ", ") == "";
    }
    RegroupLine(p, line, tail, skills, "\n");
    RegroupLine(p, "", tail, skills, "\n");
    assert p + "" == p;
  }

  lemma RegroupLine(p: string, line: string, a: string, b: string, c: string)
    ensures p + line + a + b + c == p + line + (a + b + c)
  {
  }

  /** The formatted entries of `sel`, in order. */
  function FormattedAll(sel: seq<Entry>): seq<string> {
    seq(|sel|, k requires 0 <= k < |sel| => EntryText(sel[k]))
  }

  /** The concatenated formatted entries of `sel`, in order. */
  function EntryTexts(sel: seq<Entry>): string {
    Concat(FormattedAll(sel))
  }

  /** The context block for a selection: empty, or the header and every formatted entry. */
  function ContextText(sel: seq<Entry>): string {
    if |sel| == 0 then "" else Header + EntryTexts(sel)
  }

  /** `retrieveRelevantContext(query)` as a value. */
  function Context(kb: seq<Entry>, query: string): string {
    ContextText(Selection(kb, query))
  }

  /** Nothing selected gives the empty string; otherwise the context opens with the header. */
  lemma ContextEmptyIffNoSelection(kb: seq<Entry>, query: string)
    ensures Context(kb, query) == "" <==> Selection(kb, query) == []
    ensures Selection(kb, query) != [] ==> StartsWith(Context(kb, query), Header)
  {
  }

  /** The fallback's `filter` with the `foundItems` set it updates as it goes. */
  method SearchFallback(kb: seq<Entry>, lowerQuery: string) returns (sel: seq<Entry>)
    ensures sel == SearchSelection(kb, lowerQuery, |kb|)
  {
    var foundItems: set<string> := {};
    sel := [];
    for i := 0 to |kb|
      invariant foundItems == MatchedIds(kb[..i], lowerQuery)
      invariant sel == SearchSelection(kb, lowerQuery, i)
    {
      var item := kb[i];
      var searchableText := SearchableText(item);
      FallbackStep(kb, lowerQuery, i);
      if Contains(Lower(searchableText), lowerQuery) && item.id !in foundItems {
        foundItems := foundItems + {item.id};
        sel := sel + [item];
      }
    }
  }

  /** The intent chain of `retrieveRelevantContext`, reassigning and pushing into `relevantEntries`. */
  method SelectEntries(kb: seq<Entry>, query: string) returns (relevantEntries: seq<Entry>)
    ensures relevantEntries == Selection(kb, query)
  {
    var lowerCaseQuery := Lower(query);
    relevantEntries := [];
    if ContainsKeywords(ProjectsProbe, lowerCaseQuery) {
      relevantEntries := FilterPrefix(kb, ProjectPrefix);
    } else if ContainsKeywords(WorkProbe, lowerCaseQuery) {
      relevantEntries := FilterPrefix(kb, WorkPrefix);
    } else if ContainsKeywords(SkillsProbe, lowerCaseQuery) {
      var skillsEntry := FindById(kb, OverviewId);
      if skillsEntry.Some? {
        relevantEntries := relevantEntries + [skillsEntry.value];
      }
    } else {
      relevantEntries := SearchFallback(kb, lowerCaseQuery);
    }
  }

  /** The `forEach` that appends each formatted entry after the header. */
  method RenderContext(relevantEntries: seq<Entry>) returns (fullContext: string)
    ensures fullContext == ContextText(relevantEntries)
  {
    if |relevantEntries| == 0 {
      return "";
    }
    ghost var texts := FormattedAll(relevantEntries);
    fullContext := Header;
    for i := 0 to |relevantEntries|
      invariant fullContext == Header + Concat(texts[..i])
    {
      var formatted := FormatEntry(relevantEntries[i]);
      ConcatStep(Header, texts, i);
      fullContext := fullContext + formatted;
    }
    assert texts[..|texts|] == texts;
  }

  /** `retrieveRelevantContext`: select by intent or fallback, then render. */
  method RetrieveRelevantContext(kb: seq<Entry>, query: string) returns (ctx: string)
    ensures ctx == Context(kb, query)
  {
    var relevantEntries := SelectEntries(kb, query);
    ctx := RenderContext(relevantEntries);
  }
}
