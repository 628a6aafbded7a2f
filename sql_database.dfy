/**
 * The database-backed variant of the data-access layer: the dynamic
 * property-search query of `getAllProperties`. It starts from a fixed
 * SELECT/JOIN text, adds one parameter and one `WHERE`/`AND` clause per
 * filter option that is set, in a fixed order, and ends with the limit.
 * Sending the query to the database is not modelled.
 */
module SqlDatabase {
  import opened Wrappers
  import opened Decimal
  import opened Search

  /** A value bound to a positional parameter. */
  datatype Param = Num(n: int) | Text(s: string)

  /** The five filters, in the order the query builder examines them. */
  datatype Filter = Owner | City | MinimumPrice | MaximumPrice | MinimumRating

  datatype Keyword = Where | And

  /** One filter clause: its keyword, its condition, and the number `n` of its `$n`. */
  datatype Clause = Clause(keyword: Keyword, filter: Filter, placeholder: nat)

  /** JavaScript truthiness of an optional number: missing, null and 0 are falsy. */
  predicate NumberSet(v: Option<int>) {
    v.Some? && v.value != 0
  }

  /** JavaScript truthiness of an optional string: missing, null and "" are falsy. */
  predicate TextSet(v: Option<string>) {
    v.Some? && v.value != ""
  }

  /** Whether the option behind filter `f` is truthy, so that the filter applies. */
  predicate IsSet(o: SearchOptions, f: Filter) {
    match f
    case Owner => NumberSet(o.ownerId)
    case City => TextSet(o.city)
    case MinimumPrice => NumberSet(o.minimumPricePerNight)
    case MaximumPrice => NumberSet(o.maximumPricePerNight)
    case MinimumRating => NumberSet(o.minimumRating)
  }

  /** The position of a filter in the fixed examination order. */
  function Rank(f: Filter): nat {
    match f
    case Owner => 0
    case City => 1
    case MinimumPrice => 2
    case MaximumPrice => 3
    case MinimumRating => 4
  }

  /**
   * The value bound for an applied filter: the city is wrapped in `%`
   * wildcards for LIKE, and both prices are converted to cents.
   */
  function Bound(o: SearchOptions, f: Filter): Param
    requires IsSet(o, f)
  {
    match f
    case Owner => Num(o.ownerId.value)
    case City => Text("%" + o.city.value + "%")
    case MinimumPrice => Num(o.minimumPricePerNight.value * 100)
    case MaximumPrice => Num(o.maximumPricePerNight.value * 100)
    case MinimumRating => Num(o.minimumRating.value)
  }

  function Indicator(b: bool): nat {
    if b then 1 else 0
  }

  /** How many applied filters come before `f` in the fixed order. */
  function Before(o: SearchOptions, f: Filter): nat {
    match f
    case Owner => 0
    case City => Indicator(IsSet(o, Owner))
    case MinimumPrice => Indicator(IsSet(o, Owner)) + Indicator(IsSet(o, City))
    case MaximumPrice => Indicator(IsSet(o, Owner)) + Indicator(IsSet(o, City)) + Indicator(IsSet(o, MinimumPrice))
    case MinimumRating =>
      Indicator(IsSet(o, Owner)) + Indicator(IsSet(o, City)) + Indicator(IsSet(o, MinimumPrice))
      + Indicator(IsSet(o, MaximumPrice))
  }

  /** Each filter is preceded by the applied filters before the previous one, and that one if applied. */
  lemma BeforeSteps(o: SearchOptions)
    ensures Before(o, City) == Before(o, Owner) + Indicator(IsSet(o, Owner))
    ensures Before(o, MinimumPrice) == Before(o, City) + Indicator(IsSet(o, City))
    ensures Before(o, MaximumPrice) == Before(o, MinimumPrice) + Indicator(IsSet(o, MinimumPrice))
    ensures Before(o, MinimumRating) == Before(o, MaximumPrice) + Indicator(IsSet(o, MaximumPrice))
  {
  }

  /** How many of the five options are truthy. */
  function SetCount(o: SearchOptions): nat {
    Before(o, MinimumRating) + Indicator(IsSet(o, MinimumRating))
  }

  /** The parameter an option contributes: its bound value if it applies, nothing otherwise. */
  function ParamOf(o: SearchOptions, f: Filter): seq<Param> {
    if IsSet(o, f) then [Bound(o, f)] else []
  }

  /**
   * The clause an option contributes if it applies: `WHERE` when no applied
   * filter precedes it and `AND` otherwise, numbered one past the applied
   * filters before it.
   */
  function ClauseOf(o: SearchOptions, f: Filter): seq<Clause> {
    if IsSet(o, f) then [Clause(if Before(o, f) == 0 then Where else And, f, Before(o, f) + 1)] else []
  }

  /** The parameters of the search: one per applied filter in the fixed order, then the limit. */
  function SearchParams(o: SearchOptions, limit: int): seq<Param> {
    ParamOf(o, Owner) + ParamOf(o, City) + ParamOf(o, MinimumPrice) + ParamOf(o, MaximumPrice)
    + ParamOf(o, MinimumRating) + [Num(limit)]
  }

  /** The filter clauses of the search, one per applied filter in the fixed order. */
  function SearchClauses(o: SearchOptions): seq<Clause> {
    ClauseOf(o, Owner) + ClauseOf(o, City) + ClauseOf(o, MinimumPrice) + ClauseOf(o, MaximumPrice)
    + ClauseOf(o, MinimumRating)
  }

  // ---- the text of the query ----

  // The fixed text before the clauses, spelled in short pieces so that the
  // verifier can read each piece character by character.
  const SelectLine: string := "\n    SELECT properties.*, "
  const AverageRating: string := "AVG(property_reviews.rating)"
  const AverageAlias: string := " AS average_rating"
  const FromLine: string := "\n    FROM properties"
  const JoinLine: string := "\n    LEFT JOIN property_reviews"
  const JoinCondition: string := " ON properties.id = property_id"
  const LineBreak: string := "\n  "

  const SelectText: string :=
    SelectLine + AverageRating + AverageAlias + FromLine + JoinLine + JoinCondition + LineBreak

  function KeywordText(k: Keyword): string {
    match k
    case Where => "WHERE"
    case And => "AND"
  }

  /** The text of a filter's condition, between its keyword and its placeholder. */
  function ConditionText(f: Filter): string {
    match f
    case Owner => " owner_id = "
    case City => " city LIKE "
    case MinimumPrice => " cost_per_night >= "
    case MaximumPrice => " cost_per_night <= "
    case MinimumRating => " property_reviews.rating >= "
  }

  /** The text one clause appends: keyword, condition, placeholder and a separating space. */
  function ClauseText(c: Clause): string {
    KeywordText(c.keyword) + ConditionText(c.filter) + "$" + NatText(c.placeholder) + " "
  }

  function ClausesText(cs: seq<Clause>): string {
    if cs == [] then "" else ClauseText(cs[0]) + ClausesText(cs[1..])
  }

  const GroupLine: string := "\n    GROUP BY properties.id"
  const OrderLine: string := "\n    ORDER BY cost_per_night"
  const LimitLine: string := "\n    LIMIT "

  /** The fixed text after the clauses, up to the limit's placeholder. */
  const GroupText: string := GroupLine + OrderLine + LimitLine

  const EndText: string := ";\n  "

  /** Grouping, ordering and the limit, whose placeholder number is `n`. */
  function TailText(n: nat): string {
    GroupText + "$" + NatText(n) + EndText
  }

  /** The full query text for the given filter clauses and limit placeholder number. */
  function Render(cs: seq<Clause>, limitPlaceholder: nat): string {
    SelectText + ClausesText(cs) + TailText(limitPlaceholder)
  }

  /** Appending a clause to the list appends its text to the query. */
  lemma {:induction false} ClausesTextSnoc(cs: seq<Clause>, c: Clause)
    ensures ClausesText(cs + [c]) == ClausesText(cs) + ClauseText(c)
  {
    if cs != [] {
      assert (cs + [c])[1..] == cs[1..] + [c];
      ClausesTextSnoc(cs[1..], c);
    }
  }

  /** The same, behind any leading text. */
  lemma QuerySnoc(head: string, cs: seq<Clause>, c: Clause)
    ensures head + ClausesText(cs + [c]) == head + ClausesText(cs) + ClauseText(c)
  {
    ClausesTextSnoc(cs, c);
  }

  /**
   * One of the five filter blocks of `getAllProperties`: when the option
   * behind `f` is truthy, push its bound value, then append its clause, whose
   * keyword is `WHERE` for the first parameter and `AND` otherwise and whose
   * placeholder is the new length of the parameter list.
   */
  method ApplyFilter(o: SearchOptions, f: Filter, params: seq<Param>, clauses: seq<Clause>, query: string, ghost head: string)
    returns (params': seq<Param>, clauses': seq<Clause>, query': string)
    requires |params| == Before(o, f) && query == head + ClausesText(clauses)
    ensures params' == params + ParamOf(o, f)
    ensures |params'| == Before(o, f) + Indicator(IsSet(o, f))
    ensures clauses' == clauses + ClauseOf(o, f)
    ensures query' == head + ClausesText(clauses')
  {
    params', clauses', query' := params, clauses, query;
    if IsSet(o, f) {
      params' := params' + [Bound(o, f)];
      var clause := Clause(if |params'| == 1 then Where else And, f, |params'|);
      QuerySnoc(head, clauses', clause);
      query' := query' + ClauseText(clause);
      clauses' := clauses' + [clause];
    }
  }

  /**
   * `getAllProperties` of the database variant, up to the call into the
   * database: the parameter list, the filter clauses in the order the source
   * appends them, and the query text. `limit` is `None` when the caller
   * omits it.
   */
  method BuildPropertyQuery(options: SearchOptions, limit: Option<int>)
    returns (params: seq<Param>, clauses: seq<Clause>, query: string)
    ensures params == SearchParams(options, if limit.Some? then limit.value else DefaultLimit)
    ensures clauses == SearchClauses(options)
    ensures query == Render(clauses, |params|)
  {
    BeforeSteps(options);
    params, clauses, query := [], [], SelectText;
    assert query == SelectText + ClausesText([]);
    params, clauses, query := ApplyFilter(options, Owner, params, clauses, query, SelectText);
    assert params == ParamOf(options, Owner) && clauses == ClauseOf(options, Owner);
    params, clauses, query := ApplyFilter(options, City, params, clauses, query, SelectText);
    params, clauses, query := ApplyFilter(options, MinimumPrice, params, clauses, query, SelectText);
    params, clauses, query := ApplyFilter(options, MaximumPrice, params, clauses, query, SelectText);
    params, clauses, query := ApplyFilter(options, MinimumRating, params, clauses, query, SelectText);
    var lim := if limit.Some? then limit.value else DefaultLimit;
    params := params + [Num(lim)];
    query := query + TailText(|params|);
  }

  // ---- properties of the parameters and clauses ----

  /** One parameter per truthy option, then the limit; one clause per truthy option. */
  lemma ParamCount(o: SearchOptions, limit: int)
    ensures |SearchClauses(o)| == SetCount(o)
    ensures |SearchParams(o, limit)| == SetCount(o) + 1
    ensures SearchParams(o, limit)[SetCount(o)] == Num(limit)
  {
  }

  /** The placeholders are `$1`, `$2`, ... in order, and only the first clause says `WHERE`. */
  lemma ClauseNumbering(o: SearchOptions)
    ensures forall k :: 0 <= k < |SearchClauses(o)| ==>
      SearchClauses(o)[k].placeholder == k + 1 && (SearchClauses(o)[k].keyword == Where <==> k == 0)
  {
  }

  /** Clause `k` belongs to a truthy option, and parameter `$k+1` is that option's bound value. */
  lemma ClauseBinding(o: SearchOptions, limit: int)
    ensures forall k :: 0 <= k < |SearchClauses(o)| ==>
      IsSet(o, SearchClauses(o)[k].filter) && SearchParams(o, limit)[k] == Bound(o, SearchClauses(o)[k].filter)
  {
  }

  /** A truthy option's clause sits at the position counting the applied filters before it. */
  lemma ClauseAt(o: SearchOptions, f: Filter)
    requires IsSet(o, f)
    ensures Before(o, f) < |SearchClauses(o)| && SearchClauses(o)[Before(o, f)] == ClauseOf(o, f)[0]
  {
  }

  /** A filter has a clause exactly when its option is truthy. */
  lemma ClauseIffSet(o: SearchOptions, f: Filter)
    ensures (exists k :: 0 <= k < |SearchClauses(o)| && SearchClauses(o)[k].filter == f) <==> IsSet(o, f)
  {
    if IsSet(o, f) {
      ClauseAt(o, f);
    }
  }

  /** The clauses follow the fixed order of the filters. */
  lemma ClausesOrdered(o: SearchOptions)
    ensures forall i, j :: 0 <= i < j < |SearchClauses(o)| ==>
      Rank(SearchClauses(o)[i].filter) < Rank(SearchClauses(o)[j].filter)
  {
  }
}
