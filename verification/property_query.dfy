/**
 * The filter query of `getAllProperties`: from an options bag and a limit it
 * builds the SQL text and the ordered list of positional parameters that are
 * handed to the connection pool. Every optional filter that is present adds a
 * WHERE clause whose `$n` placeholders point at the parameters it pushed;
 * the limit is always the last parameter.
 */
module PropertyQuery {
  import opened Wrappers
  import opened SqlText

  /** The options bag; a field the caller did not send is `None`. */
  datatype PropertyOptions = PropertyOptions(
    city: Option<string>,
    ownerId: Option<int>,
    minimumPricePerNight: Option<int>,
    maximumPricePerNight: Option<int>,
    minimumRating: Option<int>)

  /** JavaScript truthiness of an optional string: present and not empty. */
  predicate TextGiven(o: Option<string>) {
    o.Some? && o.value != ""
  }

  /** JavaScript truthiness of an optional number: present and not zero. */
  predicate NumberGiven(o: Option<int>) {
    o.Some? && o.value != 0
  }

  /** The price range filters only when both bounds are truthy. */
  predicate PriceRangeGiven(options: PropertyOptions) {
    NumberGiven(options.minimumPricePerNight) && NumberGiven(options.maximumPricePerNight)
  }

  /** A value bound to a positional parameter. */
  datatype Param = Text(text: string) | Number(number: int)

  /** The four kinds of filter, in the order in which they are considered. */
  datatype Filter = ByCity | ByOwner | ByPrice | ByRating

  function Rank(f: Filter): nat {
    match f
    case ByCity => 0
    case ByOwner => 1
    case ByPrice => 2
    case ByRating => 3
  }

  /** Whether the options ask for filter `f`. */
  predicate Requested(options: PropertyOptions, f: Filter) {
    match f
    case ByCity => TextGiven(options.city)
    case ByOwner => NumberGiven(options.ownerId)
    case ByPrice => PriceRangeGiven(options)
    case ByRating => NumberGiven(options.minimumRating)
  }

  /** A WHERE condition; its fields are the (1-based) placeholder indexes it uses. */
  datatype Clause =
    | CityLike(i: nat)
    | OwnerEq(i: nat)
    | PriceBetween(lo: nat, hi: nat)
    | RatingAtLeast(i: nat)

  function Kind(c: Clause): Filter {
    match c
    case CityLike(_) => ByCity
    case OwnerEq(_) => ByOwner
    case PriceBetween(_, _) => ByPrice
    case RatingAtLeast(_) => ByRating
  }

  /** The placeholder indexes of one clause, in the order they appear in its text. */
  function ClausePlaceholders(c: Clause): seq<nat> {
    match c
    case PriceBetween(lo, hi) => [lo, hi]
    case CityLike(i) => [i]
    case OwnerEq(i) => [i]
    case RatingAtLeast(i) => [i]
  }

  /** The placeholder indexes of a clause list, in order. */
  function AllPlaceholders(cs: seq<Clause>): seq<nat>
    decreases |cs|
  {
    if cs == [] then [] else AllPlaceholders(cs[..|cs| - 1]) + ClausePlaceholders(cs[|cs| - 1])
  }

  /** Placeholder k (counting from 0) is `$k+1`. */
  predicate NumberedFromOne(ph: seq<nat>) {
    forall k :: 0 <= k < |ph| ==> ph[k] == k + 1
  }

  /** Clause `c` refers to parameters that hold the option values it filters on. */
  predicate Binds(c: Clause, options: PropertyOptions, ps: seq<Param>) {
    match c
    case CityLike(i) =>
      1 <= i <= |ps| && options.city.Some? && ps[i - 1] == Text("%" + options.city.value + "%")
    case OwnerEq(i) =>
      1 <= i <= |ps| && options.ownerId.Some? && ps[i - 1] == Number(options.ownerId.value)
    case PriceBetween(lo, hi) =>
      1 <= lo && hi == lo + 1 && hi <= |ps|
      && options.minimumPricePerNight.Some? && options.maximumPricePerNight.Some?
      && ps[lo - 1] == Number(options.minimumPricePerNight.value * 100)
      && ps[hi - 1] == Number(options.maximumPricePerNight.value * 100)
    case RatingAtLeast(i) =>
      1 <= i <= |ps| && options.minimumRating.Some? && ps[i - 1] == Number(options.minimumRating.value)
  }

  predicate HasFilter(cs: seq<Clause>, f: Filter) {
    exists k :: 0 <= k < |cs| && Kind(cs[k]) == f
  }

  /** Clause kinds strictly follow the order city, owner, price, rating (so none repeats). */
  predicate InFilterOrder(cs: seq<Clause>) {
    forall i, j :: 0 <= i < j < |cs| ==> Rank(Kind(cs[i])) < Rank(Kind(cs[j]))
  }

  /** How many filter parameters the options call for: one per filter, two for a price range. */
  function FilterParamCount(options: PropertyOptions): nat {
    (if TextGiven(options.city) then 1 else 0)
    + (if NumberGiven(options.ownerId) then 1 else 0)
    + (if PriceRangeGiven(options) then 2 else 0)
    + (if NumberGiven(options.minimumRating) then 1 else 0)
  }

  const DEFAULT_LIMIT := 10

  /** The limit a call uses: the JavaScript default parameter applies when it is absent. */
  function LimitOrDefault(limit: Option<int>): int {
    if limit.Some? then limit.value else DEFAULT_LIMIT
  }

  // ---------------------------------------------------------------------------
  // Rendering to SQL text

  /** The statement's fixed head (SELECT with the review join), written in short pieces. */
  const SELECT_HEAD := "\n"
    + "    SELECT properties.*, " + "avg(property_reviews.rating) " + "as average_rating\n"
    + "    FROM properties\n"
    + "    LEFT JOIN property_reviews " + "ON properties.id = property_id\n"
    + "  "

  /** The fixed text between the conditions and the limit's placeholder. */
  const GROUP_ORDER_LIMIT := "\n"
    + "    GROUP BY properties.id\n"
    + "    ORDER BY cost_per_night\n"
    + "    LIMIT "

  const AND_SEPARATOR := " AND "

  const WHERE_KEYWORD := " WHERE "

  /** The text of one WHERE condition; each opens with a lower-case column name. */
  function ClauseText(c: Clause): (t: string)
    ensures |t| > 0 && 'a' <= t[0] <= 'z'
  {
    match c
    case CityLike(i) => "city LIKE " + Placeholder(i)
    case OwnerEq(i) => "owner_id = " + Placeholder(i)
    case PriceBetween(lo, hi) => "cost_per_night BETWEEN " + Placeholder(lo) + AND_SEPARATOR + Placeholder(hi)
    case RatingAtLeast(i) => "property_reviews.rating >= " + Placeholder(i)
  }

  /** The condition texts, one per clause, in clause order. */
  function ClauseTexts(cs: seq<Clause>): (texts: seq<string>)
    ensures |texts| == |cs|
    ensures forall k :: 0 <= k < |cs| ==> texts[k] == ClauseText(cs[k])
    decreases |cs|
  {
    if cs == [] then [] else ClauseTexts(cs[..|cs| - 1]) + [ClauseText(cs[|cs| - 1])]
  }

  /** The conditions joined with AND, as `whereClauses.join(' AND ')`. */
  function WhereText(cs: seq<Clause>): (t: string)
    ensures cs != [] ==> StartsWith(t, ClauseText(cs[0]))
  {
    Join(ClauseTexts(cs), AND_SEPARATOR)
  }

  function LimitSection(n: nat): string {
    GROUP_ORDER_LIMIT + Placeholder(n) + ";\n  "
  }

  /** ` WHERE ` and the conjunction, present only when there is a condition. */
  function WhereSection(cs: seq<Clause>): (t: string)
    ensures t == [] <==> cs == []
    ensures cs != [] ==> StartsWith(t, WHERE_KEYWORD)
  {
    if cs != [] then WHERE_KEYWORD + WhereText(cs) else ""
  }

  /** The complete statement for clauses `cs` when the limit is parameter `$n`. */
  function QueryText(cs: seq<Clause>, n: nat): string {
    SELECT_HEAD + WhereSection(cs) + LimitSection(n)
  }

  // ---------------------------------------------------------------------------
  // What the text says

  /** The text of one clause holds exactly that clause's placeholders. */
  lemma ClauseTextPlaceholders(c: Clause)
    ensures PlaceholderNumbers(ClauseText(c)) == ClausePlaceholders(c)
  {
    match c
    case CityLike(i) => LiteralThenPlaceholder("city LIKE ", i);
    case OwnerEq(i) => LiteralThenPlaceholder("owner_id = ", i);
    case RatingAtLeast(i) => LiteralThenPlaceholder("property_reviews.rating >= ", i);
    case PriceBetween(lo, hi) => BetweenPlaceholders("cost_per_night BETWEEN ", lo, hi);
  }

  /** `literal $lo AND $hi` holds the placeholders lo, then hi. */
  lemma BetweenPlaceholders(literal: string, lo: nat, hi: nat)
    requires '$' !in literal
    ensures PlaceholderNumbers(literal + Placeholder(lo) + AND_SEPARATOR + Placeholder(hi)) == [lo, hi]
  {
    var first := literal + Placeholder(lo);
    LiteralThenPlaceholder(literal, lo);
    PlaceholderNumbersAppend(first, AND_SEPARATOR);
    PlaceholderNumbersNoDollar(AND_SEPARATOR);
    PlaceholderNumbersAppend(first + AND_SEPARATOR, Placeholder(hi));
    PlaceholderReadsBack(hi);
  }

  /** The joined conditions hold the placeholders of all clauses, in clause order. */
  lemma {:induction false} WhereTextPlaceholders(cs: seq<Clause>)
    ensures PlaceholderNumbers(WhereText(cs)) == AllPlaceholders(cs)
    decreases |cs|
  {
    if |cs| == 0 {
    } else if |cs| == 1 {
      assert cs[..0] == [];
      ClauseTextPlaceholders(cs[0]);
    } else {
      var init, last := cs[..|cs| - 1], cs[|cs| - 1];
      var texts := ClauseTexts(cs);
      assert texts[..|texts| - 1] == ClauseTexts(init);
      assert WhereText(cs) == WhereText(init) + AND_SEPARATOR + ClauseText(last);
      WhereTextPlaceholders(init);
      PlaceholderNumbersAppend(WhereText(init) + AND_SEPARATOR, ClauseText(last));
      PlaceholderNumbersAppend(WhereText(init), AND_SEPARATOR);
      PlaceholderNumbersNoDollar(AND_SEPARATOR);
      ClauseTextPlaceholders(last);
    }
  }

  /** The fixed texts of the statement contain no `$`, so they hold no placeholder. */
  lemma FixedTextsHoldNoPlaceholder()
    ensures '$' !in SELECT_HEAD && '$' !in WHERE_KEYWORD && '$' !in GROUP_ORDER_LIMIT
    ensures PlaceholderNumbers(SELECT_HEAD) == []
    ensures PlaceholderNumbers(WHERE_KEYWORD) == []
    ensures PlaceholderNumbers(GROUP_ORDER_LIMIT) == []
  {
    SelectHeadHasNoDollar();
    LimitTextHasNoDollar();
    PlaceholderNumbersNoDollar(SELECT_HEAD);
    PlaceholderNumbersNoDollar(WHERE_KEYWORD);
    PlaceholderNumbersNoDollar(GROUP_ORDER_LIMIT);
  }

  lemma SelectHeadHasNoDollar()
    ensures '$' !in SELECT_HEAD
  {
  }

  lemma LimitTextHasNoDollar()
    ensures '$' !in GROUP_ORDER_LIMIT
  {
  }

  /** The limit section holds the one placeholder `$n`. */
  lemma LimitSectionPlaceholders(n: nat)
    ensures PlaceholderNumbers(LimitSection(n)) == [n]
    ensures StartsWithNonDigit(LimitSection(n))
  {
    FixedTextsHoldNoPlaceholder();
    PlaceholderNumbersAppend(GROUP_ORDER_LIMIT + Placeholder(n), ";\n  ");
    PlaceholderNumbersNoDollar(";\n  ");
    LiteralThenPlaceholder(GROUP_ORDER_LIMIT, n);
  }

  /** The WHERE section holds the placeholders of all clauses, in clause order. */
  lemma WhereSectionPlaceholders(cs: seq<Clause>)
    ensures PlaceholderNumbers(WhereSection(cs)) == AllPlaceholders(cs)
    ensures StartsWithNonDigit(WhereSection(cs))
  {
    if cs != [] {
      FixedTextsHoldNoPlaceholder();
      PlaceholderNumbersAppend(WHERE_KEYWORD, WhereText(cs));
      WhereTextPlaceholders(cs);
    }
  }

  /** Read left to right, the statement's placeholders are those of its clauses followed by the limit's. */
  lemma QueryTextPlaceholders(cs: seq<Clause>, n: nat)
    ensures PlaceholderNumbers(QueryText(cs, n)) == AllPlaceholders(cs) + [n]
  {
    LimitSectionPlaceholders(n);
    WhereSectionPlaceholders(cs);
    FixedTextsHoldNoPlaceholder();
    HeadThenPartsPlaceholders(SELECT_HEAD, WhereSection(cs), LimitSection(n));
  }

  /** Right after the SELECT ... JOIN head the statement continues with WHERE exactly when there are clauses. */
  lemma QueryTextWhere(cs: seq<Clause>, n: nat)
    ensures StartsWith(QueryText(cs, n)[|SELECT_HEAD|..], WHERE_KEYWORD) <==> cs != []
  {
    var section, tail := WhereSection(cs), LimitSection(n);
    TailAfterHead(SELECT_HEAD, section, tail);
    if cs == [] {
      assert section + tail == tail;
      assert tail[0] == GROUP_ORDER_LIMIT[0] == '\n' != WHERE_KEYWORD[0];
    }
  }

  // ---------------------------------------------------------------------------
  // The builder

  /** The two arrays of the builder: WHERE conditions and positional parameters. */
  datatype Built = Built(clauses: seq<Clause>, params: seq<Param>)

  /** The clause filter `f` appends when `n` parameters were pushed before its own. */
  function ClauseFor(f: Filter, n: nat): (c: Clause)
    ensures Kind(c) == f
  {
    match f
    case ByCity => CityLike(n + 1)
    case ByOwner => OwnerEq(n + 1)
    case ByPrice => PriceBetween(n + 1, n + 2)
    case ByRating => RatingAtLeast(n + 1)
  }

  /** The parameters filter `f` pushes; prices are converted from dollars to cents. */
  function ParamsFor(f: Filter, options: PropertyOptions): (ps: seq<Param>)
    requires Requested(options, f)
    ensures |ps| == Width(f)
  {
    match f
    case ByCity => [Text("%" + options.city.value + "%")]
    case ByOwner => [Number(options.ownerId.value)]
    case ByPrice => [Number(options.minimumPricePerNight.value * 100), Number(options.maximumPricePerNight.value * 100)]
    case ByRating => [Number(options.minimumRating.value)]
  }

  /**
   * The arrays after the first `stage` filter steps: each step considers one
   * filter and, when the options request it, pushes its parameters and then a
   * clause that points at them.
   */
  function AfterSteps(options: PropertyOptions, stage: nat): (b: Built)
    requires stage <= 4
    ensures |b.clauses| <= stage && |b.clauses| <= |b.params|
    decreases stage
  {
    if stage == 0 then Built([], [])
    else
      var before := AfterSteps(options, stage - 1);
      var f := FilterAt(stage - 1);
      if Requested(options, f) then
        Built(before.clauses + [ClauseFor(f, |before.params|)], before.params + ParamsFor(f, options))
      else before
  }

  /**
   * `getAllProperties(options, limit)` up to the call of `pool.query`: the
   * statement text and the parameter list it passes there, together with the
   * WHERE conditions that went into the text.
   */
  method GetAllProperties(options: PropertyOptions, limit: Option<int>)
    returns (queryString: string, queryParams: seq<Param>, whereClauses: seq<Clause>)
    ensures whereClauses == AfterSteps(options, 4).clauses
    ensures queryParams == AfterSteps(options, 4).params + [Number(LimitOrDefault(limit))]
    ensures queryString == QueryText(whereClauses, |queryParams|)
    ensures NumberedFromOne(PlaceholderNumbers(queryString)) && |PlaceholderNumbers(queryString)| == |queryParams|
    ensures StartsWith(queryString[|SELECT_HEAD|..], WHERE_KEYWORD) <==> exists f :: Requested(options, f)
  {
    queryString := SELECT_HEAD;
    queryParams, whereClauses := CollectFilters(options);

    if |whereClauses| > 0 {
      queryString := queryString + (WHERE_KEYWORD + WhereText(whereClauses));
    }
    assert queryString == SELECT_HEAD + WhereSection(whereClauses);

    queryParams := queryParams + [Number(LimitOrDefault(limit))];
    queryString := queryString + LimitSection(|queryParams|);

    QueryOfSteps(options, whereClauses, |queryParams|);
  }

  /** The four filter steps of `getAllProperties`: push the parameters of each requested filter, then its clause. */
  method CollectFilters(options: PropertyOptions) returns (queryParams: seq<Param>, whereClauses: seq<Clause>)
    ensures Built(whereClauses, queryParams) == AfterSteps(options, 4)
  {
    queryParams := [];
    whereClauses := [];

    if TextGiven(options.city) {
      queryParams := queryParams + [Text("%" + options.city.value + "%")];
      whereClauses := whereClauses + [CityLike(|queryParams|)];
    }
    assert Built(whereClauses, queryParams) == AfterSteps(options, 1);

    if NumberGiven(options.ownerId) {
      queryParams := queryParams + [Number(options.ownerId.value)];
      whereClauses := whereClauses + [OwnerEq(|queryParams|)];
    }
    assert Built(whereClauses, queryParams) == AfterSteps(options, 2);

    if NumberGiven(options.minimumPricePerNight) && NumberGiven(options.maximumPricePerNight) {
      queryParams := queryParams + [Number(options.minimumPricePerNight.value * 100)];
      queryParams := queryParams + [Number(options.maximumPricePerNight.value * 100)];
      whereClauses := whereClauses + [PriceBetween(|queryParams| - 1, |queryParams|)];
    }
    assert Built(whereClauses, queryParams) == AfterSteps(options, 3);

    if NumberGiven(options.minimumRating) {
      queryParams := queryParams + [Number(options.minimumRating.value)];
      whereClauses := whereClauses + [RatingAtLeast(|queryParams|)];
    }
  }

  /** The statement for the built arrays numbers its placeholders from 1 up to the parameter count. */
  lemma QueryOfSteps(options: PropertyOptions, clauses: seq<Clause>, n: nat)
    requires clauses == AfterSteps(options, 4).clauses && n == |AfterSteps(options, 4).params| + 1
    ensures NumberedFromOne(PlaceholderNumbers(QueryText(clauses, n)))
    ensures |PlaceholderNumbers(QueryText(clauses, n))| == n
    ensures StartsWith(QueryText(clauses, n)[|SELECT_HEAD|..], WHERE_KEYWORD) <==> exists f :: Requested(options, f)
  {
    AfterAllSteps(options);
    NumberedQuery(clauses, n);
    WhereWhenRequested(options, clauses, n);
  }

  /** Clauses numbered from 1, then the limit: the statement reads `$1 … $n`. */
  lemma NumberedQuery(clauses: seq<Clause>, n: nat)
    requires NumberedFromOne(AllPlaceholders(clauses)) && |AllPlaceholders(clauses)| + 1 == n
    ensures NumberedFromOne(PlaceholderNumbers(QueryText(clauses, n)))
    ensures |PlaceholderNumbers(QueryText(clauses, n))| == n
  {
    QueryTextPlaceholders(clauses, n);
    NumberedAppend(AllPlaceholders(clauses), n);
  }

  /** The statement has a WHERE part exactly when some filter is requested. */
  lemma WhereWhenRequested(options: PropertyOptions, clauses: seq<Clause>, n: nat)
    requires forall f :: HasFilter(clauses, f) <==> Requested(options, f)
    ensures StartsWith(QueryText(clauses, n)[|SELECT_HEAD|..], WHERE_KEYWORD) <==> exists f :: Requested(options, f)
  {
    QueryTextWhere(clauses, n);
    if clauses != [] {
      assert HasFilter(clauses, Kind(clauses[0]));
    } else {
      assert forall f :: !HasFilter(clauses, f);
    }
  }

  /**
   * What the builder guarantees of its arrays: placeholders are numbered
   * from 1 and there is one parameter per placeholder; the count follows the
   * options; every clause points at the option values it filters on; a
   * clause is present exactly when its filter is requested; and the clauses
   * follow the order city, owner, price, rating.
   */
  lemma AfterAllSteps(options: PropertyOptions)
    ensures var b := AfterSteps(options, 4);
      && NumberedFromOne(AllPlaceholders(b.clauses)) && |AllPlaceholders(b.clauses)| == |b.params|
      && |b.params| == FilterParamCount(options)
      && (forall k :: 0 <= k < |b.clauses| ==> Binds(b.clauses[k], options, b.params))
      && (forall f :: HasFilter(b.clauses, f) <==> Requested(options, f))
      && InFilterOrder(b.clauses)
  {
    AfterStepsInvariant(options, 4);
    StageParamCountComplete(options);
  }

  /** With no filter requested there is no clause and no filter parameter, so the limit is the only parameter. */
  lemma NoOptionsOnlyLimit(options: PropertyOptions)
    requires forall f :: !Requested(options, f)
    ensures AfterSteps(options, 4) == Built([], [])
  {
  }

  /**
   * A price range with a missing or zero bound is ignored: the arrays are
   * those built when neither bound is sent.
   */
  lemma LonePriceBoundIgnored(options: PropertyOptions)
    requires !PriceRangeGiven(options)
    ensures AfterSteps(options, 4)
         == AfterSteps(options.(minimumPricePerNight := None, maximumPricePerNight := None), 4)
  {
  }

  /** Every prefix of the steps keeps the builder's invariant. */
  lemma {:induction false} AfterStepsInvariant(options: PropertyOptions, stage: nat)
    requires stage <= 4
    ensures Stage(options, AfterSteps(options, stage).clauses, AfterSteps(options, stage).params, stage)
    decreases stage
  {
    if stage > 0 {
      var before := AfterSteps(options, stage - 1);
      var f := FilterAt(stage - 1);
      AfterStepsInvariant(options, stage - 1);
      if Requested(options, f) {
        StageStep(options, before.clauses, before.params, stage - 1);
      } else {
        StageSkip(options, before.clauses, before.params, stage - 1);
      }
    }
  }

  // ---------------------------------------------------------------------------
  // The state between the steps of the builder

  /** The filter considered at step `stage` (counting from 0). */
  function FilterAt(stage: nat): (f: Filter)
    requires stage < 4
    ensures Rank(f) == stage
  {
    if stage == 0 then ByCity else if stage == 1 then ByOwner else if stage == 2 then ByPrice else ByRating
  }

  /** How many parameters a filter pushes. */
  function Width(f: Filter): nat {
    if f == ByPrice then 2 else 1
  }

  /** Parameters pushed by the first `stage` steps. */
  function StageParamCount(options: PropertyOptions, stage: nat): nat
    requires stage <= 4
  {
    if stage == 0 then 0
    else
      var f := FilterAt(stage - 1);
      StageParamCount(options, stage - 1) + (if Requested(options, f) then Width(f) else 0)
  }

  /** What holds of the two arrays after the first `stage` steps of the builder. */
  predicate Stage(options: PropertyOptions, cs: seq<Clause>, ps: seq<Param>, stage: nat) {
    && stage <= 4
    && NumberedFromOne(AllPlaceholders(cs)) && |AllPlaceholders(cs)| == |ps|
    && (forall k :: 0 <= k < |cs| ==> Binds(cs[k], options, ps))
    && (forall f :: HasFilter(cs, f) <==> Rank(f) < stage && Requested(options, f))
    && (forall k :: 0 <= k < |cs| ==> Rank(Kind(cs[k])) < stage)
    && InFilterOrder(cs)
    && |ps| == StageParamCount(options, stage)
  }

  lemma NumberedAppend(ph: seq<nat>, n: nat)
    requires NumberedFromOne(ph) && |ph| + 1 == n
    ensures NumberedFromOne(ph + [n])
  {
  }

  lemma HasFilterAppend(cs: seq<Clause>, c: Clause, f: Filter)
    ensures HasFilter(cs + [c], f) <==> HasFilter(cs, f) || Kind(c) == f
  {
    if HasFilter(cs, f) {
      var k :| 0 <= k < |cs| && Kind(cs[k]) == f;
      assert (cs + [c])[k] == cs[k];
    }
    if Kind(c) == f {
      assert (cs + [c])[|cs|] == c;
    }
  }

  /** A step whose filter is not requested leaves both arrays as they are. */
  lemma StageSkip(options: PropertyOptions, cs: seq<Clause>, ps: seq<Param>, stage: nat)
    requires stage < 4 && Stage(options, cs, ps, stage)
    requires !Requested(options, FilterAt(stage))
    ensures Stage(options, cs, ps, stage + 1)
  {
  }

  /** The step for a requested filter, as the builder performs it. */
  lemma StageStep(options: PropertyOptions, cs: seq<Clause>, ps: seq<Param>, stage: nat)
    requires stage < 4 && Stage(options, cs, ps, stage)
    requires Requested(options, FilterAt(stage))
    ensures var f := FilterAt(stage);
      Stage(options, cs + [ClauseFor(f, |ps|)], ps + ParamsFor(f, options), stage + 1)
  {
    var f := FilterAt(stage);
    var c, pushed := ClauseFor(f, |ps|), ParamsFor(f, options);
    assert |pushed| == Width(f) == |ClausePlaceholders(c)|;
    assert forall k :: 0 <= k < |ClausePlaceholders(c)| ==> ClausePlaceholders(c)[k] == |ps| + 1 + k;
    assert Binds(c, options, ps + pushed);
    StageAdd(options, cs, ps, stage, pushed, c);
  }

  /** A step whose filter is requested pushes its parameters, then a clause pointing at them. */
  lemma StageAdd(options: PropertyOptions, cs: seq<Clause>, ps: seq<Param>, stage: nat,
                 pushed: seq<Param>, c: Clause)
    requires stage < 4 && Stage(options, cs, ps, stage)
    requires Requested(options, FilterAt(stage)) && Kind(c) == FilterAt(stage)
    requires |pushed| == Width(Kind(c))
    requires forall k :: 0 <= k < |ClausePlaceholders(c)| ==> ClausePlaceholders(c)[k] == |ps| + 1 + k
    requires |ClausePlaceholders(c)| == |pushed|
    requires Binds(c, options, ps + pushed)
    ensures Stage(options, cs + [c], ps + pushed, stage + 1)
  {
    AddKeepsNumbering(cs, ps, pushed, c);
    AddKeepsBinds(options, cs, ps, pushed, c);
    AddKeepsFilters(options, cs, stage, c);
    AddKeepsOrder(cs, stage, c);
    assert |ps + pushed| == StageParamCount(options, stage + 1);
  }

  lemma AddKeepsNumbering(cs: seq<Clause>, ps: seq<Param>, pushed: seq<Param>, c: Clause)
    requires NumberedFromOne(AllPlaceholders(cs)) && |AllPlaceholders(cs)| == |ps|
    requires forall k :: 0 <= k < |ClausePlaceholders(c)| ==> ClausePlaceholders(c)[k] == |ps| + 1 + k
    requires |ClausePlaceholders(c)| == |pushed|
    ensures NumberedFromOne(AllPlaceholders(cs + [c])) && |AllPlaceholders(cs + [c])| == |ps + pushed|
  {
  }

  lemma AddKeepsBinds(options: PropertyOptions, cs: seq<Clause>, ps: seq<Param>, pushed: seq<Param>, c: Clause)
    requires forall k :: 0 <= k < |cs| ==> Binds(cs[k], options, ps)
    requires Binds(c, options, ps + pushed)
    ensures forall k :: 0 <= k < |cs + [c]| ==> Binds((cs + [c])[k], options, ps + pushed)
  {
  }

  lemma AddKeepsFilters(options: PropertyOptions, cs: seq<Clause>, stage: nat, c: Clause)
    requires stage < 4 && Kind(c) == FilterAt(stage) && Requested(options, FilterAt(stage))
    requires forall f :: HasFilter(cs, f) <==> Rank(f) < stage && Requested(options, f)
    ensures forall f :: HasFilter(cs + [c], f) <==> Rank(f) < stage + 1 && Requested(options, f)
  {
    forall f ensures HasFilter(cs + [c], f) <==> Rank(f) < stage + 1 && Requested(options, f) {
      HasFilterAppend(cs, c, f);
      if Rank(f) == stage {
        assert f == FilterAt(stage);
      }
    }
  }

  lemma AddKeepsOrder(cs: seq<Clause>, stage: nat, c: Clause)
    requires InFilterOrder(cs) && Rank(Kind(c)) == stage
    requires forall k :: 0 <= k < |cs| ==> Rank(Kind(cs[k])) < stage
    ensures InFilterOrder(cs + [c])
    ensures forall k :: 0 <= k < |cs + [c]| ==> Rank(Kind((cs + [c])[k])) < stage + 1
  {
  }

  /** After the four steps, the step-by-step count is the per-option count. */
  lemma StageParamCountComplete(options: PropertyOptions)
    ensures StageParamCount(options, 4) == FilterParamCount(options)
  {
    assert StageParamCount(options, 1) == if TextGiven(options.city) then 1 else 0;
    assert StageParamCount(options, 2) == StageParamCount(options, 1) + if NumberGiven(options.ownerId) then 1 else 0;
    assert StageParamCount(options, 3) == StageParamCount(options, 2) + if PriceRangeGiven(options) then 2 else 0;
  }
}
