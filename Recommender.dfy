/**
 * The recommendation engine: `parseNaturalLanguageQuery` turns free text into
 * `RecommendationFilters`, and `scoreBusinesses` scores each business row
 * against the filters, explains the score with one reason per rule that fired,
 * and ranks the rows by score. The database fetch is replaced by its result,
 * a sequence of `BusinessRow`s.
 */
module Recommender {
  import opened Wrappers
  import opened Text
  import opened ArrayMethods

  datatype Budget = Low | Medium | High

  /** `RecommendationFilters`: every field may be absent. */
  datatype Filters = Filters(
    category: Option<string>,
    neighborhood: Option<string>,
    budget: Option<Budget>,
    tags: Option<seq<string>>,
    dealsOnly: Option<bool>)

  const NoFilters := Filters(None, None, None, None, None)

  // ---------------------------------------------------------------------
  // Keyword tables of the query parser, in the order they are scanned
  // ---------------------------------------------------------------------

  const CategoryTriggers: seq<string> := ["food", "restaurant", "retail", "service", "coffee", "shop", "store"]

  const FoodAndDining := "Food & Dining"
  const Retail := "Retail"
  const Services := "Services"

  const Neighborhoods: seq<string> := [
    "carytown", "short pump", "the fan", "shockoe", "downtown", "scott's addition",
    "museum district", "church hill", "jackson ward", "oregon hill", "west end"]

  const LowBudgetWords: seq<string> := ["cheap", "affordable", "budget"]
  const HighBudgetWords: seq<string> := ["expensive", "upscale"]
  const MediumBudgetWords: seq<string> := ["moderate", "mid"]
  const DealWords: seq<string> := ["deal", "coupon", "discount"]

  datatype TagKeywords = TagKeywords(tag: string, keywords: seq<string>)

  const TagTable: seq<TagKeywords> := [
    TagKeywords("family", ["family", "family-friendly", "kids"]),
    TagKeywords("quiet", ["quiet", "peaceful", "calm"]),
    TagKeywords("study", ["study", "wifi", "work"]),
    TagKeywords("coffee", ["coffee", "cafe", "espresso"]),
    TagKeywords("outdoor", ["outdoor", "patio", "terrace"])]

  /** The position of a tag in `TagTable`, or `|TagTable|` for any other string. */
  function TagRank(tag: string): nat {
    if tag == "family" then 0
    else if tag == "quiet" then 1
    else if tag == "study" then 2
    else if tag == "coffee" then 3
    else if tag == "outdoor" then 4
    else 5
  }

  lemma TagRankOfTable(k: nat)
    requires k < |TagTable|
    ensures TagRank(TagTable[k].tag) == k
  {
    if k == 0 {} else if k == 1 {} else if k == 2 {} else if k == 3 {} else {}
  }

  /** `words.some(w => s.includes(w))`. */
  predicate ContainsAny(s: string, words: seq<string>) {
    exists i :: 0 <= i < |words| && Contains(s, words[i])
  }

  /** The index of the first word of `words` that `s` contains: a scan that stops at the first hit. */
  function FirstMatch(s: string, words: seq<string>): (r: Option<nat>)
    ensures r.Some? ==> r.value < |words| && Contains(s, words[r.value])
    ensures r.Some? ==> forall j :: 0 <= j < r.value ==> !Contains(s, words[j])
    ensures r.None? <==> !ContainsAny(s, words)
  {
    if words == [] then None
    else if Contains(s, words[0]) then Some(0)
    else
      match FirstMatch(s, words[1..])
      case None =>
        assert forall j :: 1 <= j < |words| ==> words[j] == words[1..][j - 1];
        None
      case Some(k) =>
        assert forall j :: 1 <= j < |words| ==> words[j] == words[1..][j - 1];
        Some(k + 1)
  }

  /** `list || []`. */
  function OrEmpty(list: Option<seq<string>>): seq<string> {
    if list.Some? then list.value else []
  }

  /** The category a trigger word selects; "coffee" joins food and restaurant. */
  function CategoryFor(trigger: string): string {
    if trigger == "food" || trigger == "restaurant" then FoodAndDining
    else if trigger == "retail" || trigger == "shop" || trigger == "store" then Retail
    else if trigger == "service" then Services
    else FoodAndDining
  }

  /** The category loop: the category of the first trigger, and the tag list "coffee" pushes. */
  function CategoryStep(lowerQuery: string): (Option<string>, Option<seq<string>>) {
    match FirstMatch(lowerQuery, CategoryTriggers)
    case None => (None, None)
    case Some(i) =>
      (Some(CategoryFor(CategoryTriggers[i])),
       if CategoryTriggers[i] == "coffee" then Some(["coffee"]) else None)
  }

  /** `w.charAt(0).toUpperCase() + w.slice(1)`. */
  function Capitalize(w: string): string {
    if w == [] then [] else [UpperChar(w[0])] + w[1..]
  }

  function CapitalizeAll(words: seq<string>): (r: seq<string>)
    ensures |r| == |words|
  {
    if words == [] then [] else [Capitalize(words[0])] + CapitalizeAll(words[1..])
  }

  /** `s.split(' ').map(capitalize).join(' ')`. */
  function TitleCase(s: string): string {
    Join(CapitalizeAll(Split(s, ' ')), ' ')
  }

  /** The tags of the first `n` rows of `TagTable` one of whose keywords `lowerQuery` contains. */
  function QueryTags(lowerQuery: string, n: nat): (tags: seq<string>)
    requires n <= |TagTable|
    ensures forall i :: 0 <= i < |tags| ==> TagRank(tags[i]) < n
    ensures forall i, j :: 0 <= i < j < |tags| ==> TagRank(tags[i]) < TagRank(tags[j])
    ensures forall k :: 0 <= k < n ==> (TagTable[k].tag in tags <==> ContainsAny(lowerQuery, TagTable[k].keywords))
  {
    if n == 0 then []
    else
      var earlier := QueryTags(lowerQuery, n - 1);
      var entry := TagTable[n - 1];
      TagRankOfTable(n - 1);
      assert forall k :: 0 <= k < n - 1 ==> TagRank(TagTable[k].tag) == k by {
        forall k | 0 <= k < n - 1 { TagRankOfTable(k); }
      }
      earlier + (if ContainsAny(lowerQuery, entry.keywords) then [entry.tag] else [])
  }

  /** The neighbourhood loop: the first gazetteer entry the query contains, title-cased. */
  function NeighborhoodStep(lowerQuery: string): Option<string> {
    match FirstMatch(lowerQuery, Neighborhoods)
    case None => None
    case Some(i) => Some(TitleCase(Neighborhoods[i]))
  }

  /** `parseNaturalLanguageQuery`, stated as one expression per field. */
  function ParseQuery(query: string): Filters {
    var lowerQuery := Lower(query);
    var category := CategoryStep(lowerQuery);
    var neighborhood := NeighborhoodStep(lowerQuery);
    var budget :=
      if ContainsAny(lowerQuery, LowBudgetWords) then Some(Low)
      else if ContainsAny(lowerQuery, HighBudgetWords) then Some(High)
      else if ContainsAny(lowerQuery, MediumBudgetWords) then Some(Medium)
      else None;
    var dealsOnly := if ContainsAny(lowerQuery, DealWords) then Some(true) else None;
    var tags := QueryTags(lowerQuery, |TagTable|);
    Filters(category.0, neighborhood, budget, if |tags| > 0 then Some(tags) else category.1, dealsOnly)
  }

  /**
   * `parseNaturalLanguageQuery` as written: a filters record updated by
   * three scans, two of which stop at their first hit.
   */
  method ParseNaturalLanguageQuery(query: string) returns (filters: Filters)
    ensures filters == ParseQuery(query)
  {
    var lowerQuery := Lower(query);
    filters := ScanCategories(lowerQuery);
    var hood := ScanNeighborhoods(lowerQuery);
    filters := filters.(neighborhood := hood);

    if ContainsAny(lowerQuery, LowBudgetWords) {
      filters := filters.(budget := Some(Low));
    } else if ContainsAny(lowerQuery, HighBudgetWords) {
      filters := filters.(budget := Some(High));
    } else if ContainsAny(lowerQuery, MediumBudgetWords) {
      filters := filters.(budget := Some(Medium));
    }

    if ContainsAny(lowerQuery, DealWords) {
      filters := filters.(dealsOnly := Some(true));
    }

    var tags := ScanTags(lowerQuery);
    if |tags| > 0 {
      filters := filters.(tags := Some(tags));
    }
  }

  /** The category loop: sets the category of the first trigger found and stops. */
  method ScanCategories(lowerQuery: string) returns (filters: Filters)
    ensures filters == NoFilters.(category := CategoryStep(lowerQuery).0, tags := CategoryStep(lowerQuery).1)
  {
    filters := NoFilters;
    for i := 0 to |CategoryTriggers|
      invariant filters == NoFilters
      invariant forall j :: 0 <= j < i ==> !Contains(lowerQuery, CategoryTriggers[j])
    {
      var cat := CategoryTriggers[i];
      if Contains(lowerQuery, cat) {
        assert FirstMatch(lowerQuery, CategoryTriggers) == Some(i);
        if cat == "food" || cat == "restaurant" {
          filters := filters.(category := Some(FoodAndDining));
          assert cat != "coffee";
        } else if cat == "retail" || cat == "shop" || cat == "store" {
          filters := filters.(category := Some(Retail));
          assert cat != "coffee";
        } else if cat == "service" {
          filters := filters.(category := Some(Services));
          assert cat != "coffee";
        } else {
          // the remaining trigger, "coffee"
          assert cat == "coffee";
          filters := filters.(category := Some(FoodAndDining));
          var pushed := OrEmpty(filters.tags);
          filters := filters.(tags := Some(pushed + ["coffee"]));
          assert pushed + ["coffee"] == ["coffee"];
        }
        assert CategoryStep(lowerQuery) == (Some(CategoryFor(cat)), if cat == "coffee" then Some(["coffee"]) else None);
        assert filters == NoFilters.(category := CategoryStep(lowerQuery).0, tags := CategoryStep(lowerQuery).1);
        break;
      }
    }
  }

  /** The neighbourhood loop: the first gazetteer entry found, title-cased. */
  method ScanNeighborhoods(lowerQuery: string) returns (neighborhood: Option<string>)
    ensures neighborhood == NeighborhoodStep(lowerQuery)
  {
    neighborhood := None;
    for i := 0 to |Neighborhoods|
      invariant neighborhood == None
      invariant forall j :: 0 <= j < i ==> !Contains(lowerQuery, Neighborhoods[j])
    {
      var hood := Neighborhoods[i];
      if Contains(lowerQuery, hood) {
        neighborhood := Some(TitleCase(hood));
        assert FirstMatch(lowerQuery, Neighborhoods) == Some(i);
        break;
      }
    }
  }

  /** The tag loop: every tag of `TagTable` one of whose keywords the query contains. */
  method ScanTags(lowerQuery: string) returns (tags: seq<string>)
    ensures tags == QueryTags(lowerQuery, |TagTable|)
  {
    tags := [];
    for i := 0 to |TagTable|
      invariant tags == QueryTags(lowerQuery, i)
    {
      if ContainsAny(lowerQuery, TagTable[i].keywords) {
        tags := tags + [TagTable[i].tag];
      }
    }
  }

  // ---------------------------------------------------------------------
  // What the parser promises
  // ---------------------------------------------------------------------

  /** The category is the one of the first trigger, in table order, that the lower-cased query contains. */
  lemma CategoryIsFirstTrigger(query: string, i: nat)
    requires i < |CategoryTriggers| && Contains(Lower(query), CategoryTriggers[i])
    requires forall j :: 0 <= j < i ==> !Contains(Lower(query), CategoryTriggers[j])
    ensures ParseQuery(query).category == Some(CategoryFor(CategoryTriggers[i]))
  {
    assert FirstMatch(Lower(query), CategoryTriggers) == Some(i);
  }

  /** With no trigger in the query the category is absent, and only then. */
  lemma CategoryAbsent(query: string)
    ensures ParseQuery(query).category == None <==> !ContainsAny(Lower(query), CategoryTriggers)
  {
  }

  /** The neighbourhood is the first gazetteer entry the lower-cased query contains, title-cased. */
  lemma NeighborhoodIsFirstEntry(query: string, i: nat)
    requires i < |Neighborhoods| && Contains(Lower(query), Neighborhoods[i])
    requires forall j :: 0 <= j < i ==> !Contains(Lower(query), Neighborhoods[j])
    ensures ParseQuery(query).neighborhood == Some(TitleCase(Neighborhoods[i]))
  {
    assert FirstMatch(Lower(query), Neighborhoods) == Some(i);
  }

  lemma NeighborhoodAbsent(query: string)
    ensures ParseQuery(query).neighborhood == None <==> !ContainsAny(Lower(query), Neighborhoods)
  {
  }

  /** Title case upper-cases the first character of every space-separated word and keeps the rest. */
  lemma TitleCaseChars(s: string)
    ensures TitleCased(s, TitleCase(s))
  {
    JoinSplit(s, ' ');
    CapitalizeWords(Split(s, ' '));
  }

  /** `dst` is `src` with the first character of every space-separated word upper-cased. */
  predicate TitleCased(src: string, dst: string) {
    |dst| == |src|
    && forall k :: 0 <= k < |src| ==> dst[k] == if k == 0 || src[k - 1] == ' ' then UpperChar(src[k]) else src[k]
  }

  lemma CapitalizeWord(w: string)
    requires ' ' !in w
    ensures TitleCased(w, Capitalize(w))
  {
    forall k | 0 <= k < |w| ensures w[k] != ' ' {
      assert w[k] in w;
    }
  }

  lemma TitleCasedAt(src: string, dst: string, k: nat)
    requires TitleCased(src, dst) && k < |src|
    ensures dst[k] == if k == 0 || src[k - 1] == ' ' then UpperChar(src[k]) else src[k]
  {
  }

  lemma TitleCasedAppend(w: string, cw: string, rest: string, crest: string)
    requires ' ' !in w && TitleCased(w, cw) && TitleCased(rest, crest)
    ensures TitleCased(w + [' '] + rest, cw + [' '] + crest)
  {
    var j, c := w + [' '] + rest, cw + [' '] + crest;
    assert |cw| == |w|;
    assert |crest| == |rest|;
    assert |c| == |j|;
    forall k | 0 <= k < |j|
      ensures c[k] == if k == 0 || j[k - 1] == ' ' then UpperChar(j[k]) else j[k]
    {
      if k < |w| {
        assert c[k] == cw[k] && j[k] == w[k];
        TitleCasedAt(w, cw, k);
        if k > 0 { assert j[k - 1] == w[k - 1]; }
      } else if k == |w| {
        assert c[k] == ' ' == j[k] == UpperChar(' ');
      } else {
        var k' := k - |w| - 1;
        assert 0 <= k' < |rest|;
        TitleCasedAt(rest, crest, k');
        assert c[k] == crest[k'] && j[k] == rest[k'];
        assert crest[k'] == if k' == 0 || rest[k' - 1] == ' ' then UpperChar(rest[k']) else rest[k'];
        if k' > 0 { assert j[k - 1] == rest[k' - 1]; } else { assert j[k - 1] == ' '; }
      }
    }
    assert forall k :: 0 <= k < |j| ==> c[k] == if k == 0 || j[k - 1] == ' ' then UpperChar(j[k]) else j[k];
    assert TitleCased(j, c);
  }

  lemma {:induction false} CapitalizeWords(words: seq<string>)
    requires |words| >= 1
    requires forall i :: 0 <= i < |words| ==> ' ' !in words[i]
    ensures TitleCased(Join(words, ' '), Join(CapitalizeAll(words), ' '))
  {
    CapitalizeWord(words[0]);
    if |words| == 1 {
      assert CapitalizeAll(words) == [Capitalize(words[0])];
    } else {
      var rest := words[1..];
      CapitalizeWords(rest);
      assert CapitalizeAll(words)[1..] == CapitalizeAll(rest);
      TitleCasedAppend(words[0], Capitalize(words[0]), Join(rest, ' '), Join(CapitalizeAll(rest), ' '));
    }
  }

  /** Budget triggers resolve with priority low, then high, then medium. */
  lemma BudgetPriority(query: string)
    ensures var lowerQuery, budget := Lower(query), ParseQuery(query).budget;
      && (budget == Some(Low) <==> ContainsAny(lowerQuery, LowBudgetWords))
      && (budget == Some(High) <==> !ContainsAny(lowerQuery, LowBudgetWords) && ContainsAny(lowerQuery, HighBudgetWords))
      && (budget == Some(Medium) <==> !ContainsAny(lowerQuery, LowBudgetWords) && !ContainsAny(lowerQuery, HighBudgetWords)
                                      && ContainsAny(lowerQuery, MediumBudgetWords))
  {
  }

  /** The deals flag is never false: it is true exactly when a deal word occurs, and absent otherwise. */
  lemma DealsOnlyNeverFalse(query: string)
    ensures ParseQuery(query).dealsOnly != Some(false)
    ensures ParseQuery(query).dealsOnly == Some(true) <==> ContainsAny(Lower(query), DealWords)
  {
  }

  /**
   * The tag field holds the tag-table matches whenever there are any, and is
   * absent otherwise: the list the "coffee" trigger pushes is always replaced,
   * since "coffee" is also a keyword of the tag "coffee".
   */
  lemma TagsFromTable(query: string)
    ensures var tags := QueryTags(Lower(query), |TagTable|);
      ParseQuery(query).tags == if |tags| > 0 then Some(tags) else None
  {
    var lowerQuery := Lower(query);
    var tags := QueryTags(lowerQuery, |TagTable|);
    if CategoryStep(lowerQuery).1.Some? {
      var i :| FirstMatch(lowerQuery, CategoryTriggers) == Some(i);
      assert CategoryTriggers[i] == "coffee";
      assert TagTable[3].keywords[0] == "coffee";
      assert ContainsAny(lowerQuery, TagTable[3].keywords);
      assert TagTable[3].tag in tags;
    }
  }

  /** Every word of the list is non-empty and starts with a visible character. */
  predicate StartVisible(words: seq<string>) {
    forall i :: 0 <= i < |words| ==> words[i] != [] && !IsSpace(words[i][0])
  }

  lemma NoWordInBlank(s: string, words: seq<string>)
    requires AllSpace(s) && StartVisible(words)
    ensures !ContainsAny(s, words)
  {
    forall i | 0 <= i < |words| ensures !Contains(s, words[i]) {
      if Contains(s, words[i]) {
        ContainsFirstChar(s, words[i]);
        assert false;
      }
    }
  }

  /** A query containing none of the keywords gives a record with every field absent. */
  lemma NoKeywordNoFilters(query: string)
    requires var lowerQuery := Lower(query);
      && !ContainsAny(lowerQuery, CategoryTriggers) && !ContainsAny(lowerQuery, Neighborhoods)
      && !ContainsAny(lowerQuery, LowBudgetWords) && !ContainsAny(lowerQuery, HighBudgetWords)
      && !ContainsAny(lowerQuery, MediumBudgetWords) && !ContainsAny(lowerQuery, DealWords)
      && forall k :: 0 <= k < |TagTable| ==> !ContainsAny(lowerQuery, TagTable[k].keywords)
    ensures ParseQuery(query) == NoFilters
  {
    NoKeywordNoTags(Lower(query), |TagTable|);
  }

  lemma {:induction false} NoKeywordNoTags(lowerQuery: string, n: nat)
    requires n <= |TagTable|
    requires forall k :: 0 <= k < n ==> !ContainsAny(lowerQuery, TagTable[k].keywords)
    ensures QueryTags(lowerQuery, n) == []
  {
    if n > 0 {
      NoKeywordNoTags(lowerQuery, n - 1);
    }
  }

  lemma NeighborhoodsStartVisible()
    ensures StartVisible(Neighborhoods)
  {
  }

  lemma WordListsStartVisible()
    ensures StartVisible(CategoryTriggers)
    ensures StartVisible(LowBudgetWords) && StartVisible(HighBudgetWords)
    ensures StartVisible(MediumBudgetWords) && StartVisible(DealWords)
  {
  }

  lemma TagKeywordsStartVisible()
    ensures forall k :: 0 <= k < |TagTable| ==> StartVisible(TagTable[k].keywords)
  {
  }

  /** An empty or white-space-only query gives a record with every field absent. */
  lemma BlankQueryNoFilters(query: string)
    requires AllSpace(query)
    ensures ParseQuery(query) == NoFilters
  {
    var lowerQuery := Lower(query);
    assert AllSpace(lowerQuery);
    WordListsStartVisible();
    NeighborhoodsStartVisible();
    TagKeywordsStartVisible();
    NoWordInBlank(lowerQuery, CategoryTriggers);
    NoWordInBlank(lowerQuery, Neighborhoods);
    NoWordInBlank(lowerQuery, LowBudgetWords);
    NoWordInBlank(lowerQuery, HighBudgetWords);
    NoWordInBlank(lowerQuery, MediumBudgetWords);
    NoWordInBlank(lowerQuery, DealWords);
    forall k | 0 <= k < |TagTable| ensures !ContainsAny(lowerQuery, TagTable[k].keywords) {
      NoWordInBlank(lowerQuery, TagTable[k].keywords);
    }
    NoKeywordNoFilters(query);
  }

  // ---------------------------------------------------------------------
  // Scoring
  // ---------------------------------------------------------------------

  /** One row of the candidate query: a business with its aggregates. */
  datatype BusinessRow = BusinessRow(
    id: int,
    tagsCsv: Option<string>,
    avgRating: real,
    reviewCount: int,
    hasActiveDeals: bool)

  /** Why a rule added to the score; the display text is its formatting. */
  datatype Reason =
    | HighlyRated(rating: real)
    | WellReviewed(reviews: int)
    | Established(reviews: int)
    | HasActiveDeals
    | OffersDeals
    | MatchesPreferences(tags: seq<string>)
    | AffordablePricing

  datatype BusinessScore = BusinessScore(businessId: int, score: real, reasons: seq<Reason>)

  const AffordableWords: seq<string> := ["affordable", "cheap", "budget"]

  /** The points a reason stands for, on top of ten points per star. */
  function Points(r: Reason): real {
    match r
    case HighlyRated(_) => 0.0
    case WellReviewed(_) => 20.0
    case Established(_) => 10.0
    case HasActiveDeals => 30.0
    case OffersDeals => 15.0
    case MatchesPreferences(tags) => 10.0 * |tags| as real
    case AffordablePricing => 15.0
  }

  function TotalPoints(reasons: seq<Reason>): real {
    if reasons == [] then 0.0 else Points(reasons[0]) + TotalPoints(reasons[1..])
  }

  lemma {:induction false} TotalPointsAppend(a: seq<Reason>, b: seq<Reason>)
    ensures TotalPoints(a + b) == TotalPoints(a) + TotalPoints(b)
  {
    if a == [] {
      assert a + b == b;
    } else {
      assert (a + b)[1..] == a[1..] + b;
      TotalPointsAppend(a[1..], b);
    }
  }

  /** The rule that produces a reason; rules run in this order. */
  function RuleIndex(r: Reason): nat {
    match r
    case HighlyRated(_) => 0
    case WellReviewed(_) => 1
    case Established(_) => 1
    case HasActiveDeals => 2
    case OffersDeals => 2
    case MatchesPreferences(_) => 3
    case AffordablePricing => 4
  }

  predicate InRuleOrder(reasons: seq<Reason>) {
    forall i, j :: 0 <= i < j < |reasons| ==> RuleIndex(reasons[i]) < RuleIndex(reasons[j])
  }

  /** The comma-separated tags of a business, lower-cased and trimmed. */
  function BusinessTags(tagsCsv: string): seq<string> {
    var pieces := Split(Lower(tagsCsv), ',');
    seq(|pieces|, i requires 0 <= i < |pieces| => Trim(pieces[i]))
  }

  /** Some business tag contains the wanted tag, compared in lower case. */
  predicate TagMatches(tag: string, businessTags: seq<string>) {
    exists i :: 0 <= i < |businessTags| && Contains(businessTags[i], Lower(tag))
  }

  /** The wanted tags, in their order, that the business tag list matches. */
  function MatchedTags(filters: Filters, b: BusinessRow): seq<string> {
    if filters.tags.Some? && |filters.tags.value| > 0 && b.tagsCsv.Some? && b.tagsCsv.value != [] then
      var businessTags := BusinessTags(b.tagsCsv.value);
      Filter(filters.tags.value, tag => TagMatches(tag, businessTags))
    else []
  }

  /** The business tag text mentions an affordability word. */
  predicate Affordable(tagsCsv: Option<string>) {
    tagsCsv.Some? && ContainsAny(Lower(tagsCsv.value), AffordableWords)
  }

  /** What one rule contributes: its points and, when it fires, its reason. */
  datatype RuleOutcome = RuleOutcome(points: real, reasons: seq<Reason>)

  /** At most one reason, produced by rule `k`, and the points it stands for. */
  predicate FromRule(o: RuleOutcome, k: nat) {
    |o.reasons| <= 1
    && (forall x :: x in o.reasons ==> RuleIndex(x) == k)
    && o.points == TotalPoints(o.reasons)
  }

  /** Ratings of four stars and up are called out; the points come from the rating itself. */
  function RatingRule(b: BusinessRow): (o: RuleOutcome)
    ensures FromRule(o, 0)
    ensures o.reasons == [] <==> b.avgRating < 4.0
  {
    if b.avgRating >= 4.0 then RuleOutcome(0.0, [HighlyRated(b.avgRating)]) else RuleOutcome(0.0, [])
  }

  function ReviewRule(b: BusinessRow): (o: RuleOutcome)
    ensures FromRule(o, 1)
    ensures o.points == if b.reviewCount >= 10 then 20.0 else if b.reviewCount >= 5 then 10.0 else 0.0
  {
    if b.reviewCount >= 10 then RuleOutcome(20.0, [WellReviewed(b.reviewCount)])
    else if b.reviewCount >= 5 then RuleOutcome(10.0, [Established(b.reviewCount)])
    else RuleOutcome(0.0, [])
  }

  /** Deals are worth double when the filters ask for deals only. */
  function DealRule(filters: Filters, b: BusinessRow): (o: RuleOutcome)
    ensures FromRule(o, 2)
    ensures o.points == if !b.hasActiveDeals then 0.0 else if filters.dealsOnly == Some(true) then 30.0 else 15.0
  {
    if b.hasActiveDeals && filters.dealsOnly == Some(true) then RuleOutcome(30.0, [HasActiveDeals])
    else if b.hasActiveDeals then RuleOutcome(15.0, [OffersDeals])
    else RuleOutcome(0.0, [])
  }

  function TagRule(filters: Filters, b: BusinessRow): (o: RuleOutcome)
    ensures FromRule(o, 3)
    ensures o.points == 10.0 * |MatchedTags(filters, b)| as real
  {
    var matching := MatchedTags(filters, b);
    if |matching| > 0 then
      var reason := MatchesPreferences(matching);
      assert TotalPoints([reason]) == Points(reason) == |matching| as real * 10.0;
      RuleOutcome(|matching| as real * 10.0, [reason])
    else RuleOutcome(0.0, [])
  }

  function BudgetRule(filters: Filters, b: BusinessRow): (o: RuleOutcome)
    ensures FromRule(o, 4)
    ensures o.points == if filters.budget == Some(Low) && Affordable(b.tagsCsv) then 15.0 else 0.0
  {
    if filters.budget == Some(Low) && Affordable(b.tagsCsv) then RuleOutcome(15.0, [AffordablePricing])
    else RuleOutcome(0.0, [])
  }

  /**
   * The score of one row: ten points per star, then the review, deal, tag and
   * budget rules in turn, each adding points and, when it fires, a reason.
   */
  function ScoreRow(filters: Filters, b: BusinessRow): (s: BusinessScore)
    ensures s.businessId == b.id
    ensures s.score == 10.0 * b.avgRating + TotalPoints(s.reasons)
    ensures InRuleOrder(s.reasons) && |s.reasons| <= 5
  {
    var o0, o1, o2, o3, o4 := RatingRule(b), ReviewRule(b), DealRule(filters, b), TagRule(filters, b), BudgetRule(filters, b);
    Assemble(o0, o1, o2, o3, o4);
    BusinessScore(
      b.id,
      b.avgRating * 10.0 + o1.points + o2.points + o3.points + o4.points,
      o0.reasons + o1.reasons + o2.reasons + o3.reasons + o4.reasons)
  }

  /** Rule outcomes in rule order concatenate to reasons in rule order whose points add up. */
  lemma Assemble(o0: RuleOutcome, o1: RuleOutcome, o2: RuleOutcome, o3: RuleOutcome, o4: RuleOutcome)
    requires FromRule(o0, 0) && FromRule(o1, 1) && FromRule(o2, 2) && FromRule(o3, 3) && FromRule(o4, 4)
    ensures var reasons := o0.reasons + o1.reasons + o2.reasons + o3.reasons + o4.reasons;
      && TotalPoints(reasons) == o0.points + o1.points + o2.points + o3.points + o4.points
      && InRuleOrder(reasons) && |reasons| <= 5
  {
    var r01 := o0.reasons + o1.reasons;
    var r012 := r01 + o2.reasons;
    var r0123 := r012 + o3.reasons;
    TotalPointsAppend(o0.reasons, o1.reasons);
    TotalPointsAppend(r01, o2.reasons);
    TotalPointsAppend(r012, o3.reasons);
    TotalPointsAppend(r0123, o4.reasons);
    OrderAppend(o0.reasons, o1.reasons, 1);
    OrderAppend(r01, o2.reasons, 2);
    OrderAppend(r012, o3.reasons, 3);
    OrderAppend(r0123, o4.reasons, 4);
  }

  /** Appending a reason of rule `k` to reasons of earlier rules keeps rule order. */
  lemma OrderAppend(a: seq<Reason>, b: seq<Reason>, k: nat)
    requires InRuleOrder(a) && (forall x :: x in a ==> RuleIndex(x) < k)
    requires |b| <= 1 && (forall x :: x in b ==> RuleIndex(x) == k)
    ensures InRuleOrder(a + b) && (forall x :: x in a + b ==> RuleIndex(x) < k + 1)
  {
    var ab := a + b;
    forall i, j | 0 <= i < j < |ab| ensures RuleIndex(ab[i]) < RuleIndex(ab[j]) {
      assert ab[i] == a[i];
      if j < |a| { assert ab[j] == a[j]; } else { assert ab[j] in b; assert a[i] in a; }
    }
  }

  /** The reasons of a row are the rule outcomes' reasons, in rule order. */
  lemma ReasonsOfRules(filters: Filters, b: BusinessRow)
    ensures forall x :: x in ScoreRow(filters, b).reasons <==>
      x in RatingRule(b).reasons || x in ReviewRule(b).reasons || x in DealRule(filters, b).reasons
      || x in TagRule(filters, b).reasons || x in BudgetRule(filters, b).reasons
  {
    var o0, o1, o2, o3, o4 := RatingRule(b), ReviewRule(b), DealRule(filters, b), TagRule(filters, b), BudgetRule(filters, b);
    assert ScoreRow(filters, b).reasons == o0.reasons + o1.reasons + o2.reasons + o3.reasons + o4.reasons;
  }

  /** The outcome of rule `k` for this row. */
  function RuleOf(filters: Filters, b: BusinessRow, k: nat): RuleOutcome {
    if k == 0 then RatingRule(b)
    else if k == 1 then ReviewRule(b)
    else if k == 2 then DealRule(filters, b)
    else if k == 3 then TagRule(filters, b)
    else BudgetRule(filters, b)
  }

  /** A reason appears in a row's reasons exactly when the rule it belongs to gave it. */
  lemma ReasonFromItsRule(filters: Filters, b: BusinessRow, x: Reason)
    ensures x in ScoreRow(filters, b).reasons <==> x in RuleOf(filters, b, RuleIndex(x)).reasons
  {
    var o0, o1, o2, o3, o4 := RatingRule(b), ReviewRule(b), DealRule(filters, b), TagRule(filters, b), BudgetRule(filters, b);
    var reasons := o0.reasons + o1.reasons + o2.reasons + o3.reasons + o4.reasons;
    assert ScoreRow(filters, b).reasons == reasons;
    assert x in reasons <==> x in o0.reasons || x in o1.reasons || x in o2.reasons || x in o3.reasons || x in o4.reasons;
  }

  /** Every reason is the one its rule produces for this row. */
  lemma ReasonsAreRuleReasons(filters: Filters, b: BusinessRow)
    ensures forall x :: x in ScoreRow(filters, b).reasons ==>
      x in [HighlyRated(b.avgRating), WellReviewed(b.reviewCount), Established(b.reviewCount),
            HasActiveDeals, OffersDeals, MatchesPreferences(MatchedTags(filters, b)), AffordablePricing]
  {
    ReasonsOfRules(filters, b);
  }

  /** The rating and review reasons appear exactly when their rule's condition holds. */
  lemma RatingReviewReasons(filters: Filters, b: BusinessRow)
    ensures var reasons := ScoreRow(filters, b).reasons;
      && (HighlyRated(b.avgRating) in reasons <==> b.avgRating >= 4.0)
      && (WellReviewed(b.reviewCount) in reasons <==> b.reviewCount >= 10)
      && (Established(b.reviewCount) in reasons <==> 5 <= b.reviewCount < 10)
  {
    ReasonFromItsRule(filters, b, HighlyRated(b.avgRating));
    ReasonFromItsRule(filters, b, WellReviewed(b.reviewCount));
    ReasonFromItsRule(filters, b, Established(b.reviewCount));
  }

  /** The deal reasons: the stronger one under deals-only filters, the weaker one otherwise. */
  lemma DealReasons(filters: Filters, b: BusinessRow)
    ensures var reasons := ScoreRow(filters, b).reasons;
      && (HasActiveDeals in reasons <==> b.hasActiveDeals && filters.dealsOnly == Some(true))
      && (OffersDeals in reasons <==> b.hasActiveDeals && filters.dealsOnly != Some(true))
  {
    ReasonFromItsRule(filters, b, HasActiveDeals);
    ReasonFromItsRule(filters, b, OffersDeals);
  }

  /** The tag reason lists the matched tags whenever there are any; the budget reason needs a low budget and an affordability word. */
  lemma TagBudgetReasons(filters: Filters, b: BusinessRow)
    ensures var reasons, matching := ScoreRow(filters, b).reasons, MatchedTags(filters, b);
      && (MatchesPreferences(matching) in reasons <==> |matching| > 0)
      && (AffordablePricing in reasons <==> filters.budget == Some(Low) && Affordable(b.tagsCsv))
  {
    ReasonFromItsRule(filters, b, MatchesPreferences(MatchedTags(filters, b)));
    ReasonFromItsRule(filters, b, AffordablePricing);
  }

  /** The score is at least ten points per star, and the rules add at most 65 points plus ten per wanted tag. */
  lemma ScoreBounds(filters: Filters, b: BusinessRow)
    ensures var score := ScoreRow(filters, b).score;
      10.0 * b.avgRating <= score <= 10.0 * b.avgRating + 65.0 + 10.0 * |OrEmpty(filters.tags)| as real
  {
    assert |MatchedTags(filters, b)| <= |OrEmpty(filters.tags)|;
  }

  /** Only a low budget affects the score: a medium or high budget scores like no budget at all. */
  lemma OnlyLowBudgetScores(filters: Filters, b: BusinessRow)
    requires filters.budget != Some(Low)
    ensures ScoreRow(filters, b) == ScoreRow(filters.(budget := None), b)
  {
  }

  /** Asking for deals only never lowers a score; it raises it by 15 exactly for businesses with deals. */
  lemma DealsOnlyRaisesScore(filters: Filters, b: BusinessRow)
    requires filters.dealsOnly != Some(true)
    ensures ScoreRow(filters.(dealsOnly := Some(true)), b).score
            == ScoreRow(filters, b).score + (if b.hasActiveDeals then 15.0 else 0.0)
  {
    var deals := filters.(dealsOnly := Some(true));
    assert TagRule(deals, b) == TagRule(filters, b);
    assert BudgetRule(deals, b) == BudgetRule(filters, b);
    assert DealRule(deals, b).points == DealRule(filters, b).points + (if b.hasActiveDeals then 15.0 else 0.0);
  }

  /**
   * The matched tags are the wanted tags some business tag contains, with
   * their multiplicities; none of them matters without wanted tags or tag text.
   */
  lemma MatchedTagsSpec(filters: Filters, b: BusinessRow)
    ensures var m := MatchedTags(filters, b);
      if filters.tags.Some? && b.tagsCsv.Some? && b.tagsCsv.value != [] then
        var wanted, businessTags := filters.tags.value, BusinessTags(b.tagsCsv.value);
        forall t :: multiset(m)[t] == if TagMatches(t, businessTags) then multiset(wanted)[t] else 0
      else m == []
  {
    if filters.tags.Some? && b.tagsCsv.Some? && b.tagsCsv.value != [] {
      var wanted, businessTags := filters.tags.value, BusinessTags(b.tagsCsv.value);
      if wanted == [] {
        assert MatchedTags(filters, b) == [];
      } else {
        assert MatchedTags(filters, b) == Filter(wanted, tag => TagMatches(tag, businessTags));
      }
    }
  }

  /** Matching keeps the order of the wanted tags: matching a concatenation matches each part in turn. */
  lemma MatchedTagsInOrder(filters: Filters, b: BusinessRow, first: seq<string>, second: seq<string>)
    requires filters.tags == Some(first + second)
    ensures MatchedTags(filters, b)
            == MatchedTags(filters.(tags := Some(first)), b) + MatchedTags(filters.(tags := Some(second)), b)
  {
    if b.tagsCsv.Some? && b.tagsCsv.value != [] {
      var businessTags := BusinessTags(b.tagsCsv.value);
      var keep := (tag: string) => TagMatches(tag, businessTags);
      FilterAppend(first, second, keep);
      if first == [] {
        assert first + second == second;
      }
      if second == [] {
        assert first + second == first;
      }
    }
  }

  /** The worked example: 4.5 stars, 12 reviews and a deal, when deals are asked for. */
  lemma DealSeekerExample()
    ensures var b := BusinessRow(1, None, 4.5, 12, true);
      ScoreRow(NoFilters.(dealsOnly := Some(true)), b)
        == BusinessScore(1, 95.0, [HighlyRated(4.5), WellReviewed(12), HasActiveDeals])
  {
  }

  /** Every row scored, in input order. */
  function ScoreEach(filters: Filters, rows: seq<BusinessRow>): (scored: seq<BusinessScore>)
    ensures |scored| == |rows|
    ensures forall i :: 0 <= i < |rows| ==> scored[i] == ScoreRow(filters, rows[i])
  {
    seq(|rows|, i requires 0 <= i < |rows| => ScoreRow(filters, rows[i]))
  }

  /** The comparator of the final sort: higher scores first. */
  function ByScore(a: BusinessScore, b: BusinessScore): real {
    b.score - a.score
  }

  function ScoreOf(s: BusinessScore): real {
    s.score
  }

  /** `scoreBusinesses` after the query: score every row, then sort by score, highest first. */
  function ScoreAll(filters: Filters, rows: seq<BusinessRow>): (ranked: seq<BusinessScore>)
    ensures |ranked| == |rows|
    ensures multiset(ranked) == multiset(ScoreEach(filters, rows))
  {
    SortBy(ScoreEach(filters, rows), ByScore)
  }

  /**
   * The ranking is by non-increasing score, and rows with equal scores keep
   * their query order (the sort is stable).
   */
  lemma ScoreAllRanked(filters: Filters, rows: seq<BusinessRow>)
    ensures NonIncreasing(ScoreAll(filters, rows), ScoreOf)
    ensures forall k :: WithKey(ScoreAll(filters, rows), ScoreOf, k) == WithKey(ScoreEach(filters, rows), ScoreOf, k)
  {
    assert DescendingBy(ByScore, ScoreOf);
    SortByDescending(ScoreEach(filters, rows), ByScore, ScoreOf);
  }
}
