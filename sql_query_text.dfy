/**
 * The property-search query read back from its text: the placeholders it
 * contains are `$1`, `$2`, ... up to the number of parameters, in order, and
 * the keyword `WHERE` occurs once when some filter applies and not at all
 * otherwise.
 */
module SqlQueryText {
  import opened Decimal
  import opened QueryScan
  import opened Search
  import opened SqlDatabase

  /** The placeholder numbers of a list of clauses, in order. */
  function Numbers(cs: seq<Clause>): seq<nat> {
    seq(|cs|, k requires 0 <= k < |cs| => cs[k].placeholder)
  }

  /** How many clauses of a list start with `WHERE`. */
  function WhereCount(cs: seq<Clause>): nat {
    if cs == [] then 0 else (if cs[0].keyword == Where then 1 else 0) + WhereCount(cs[1..])
  }

  /** Text with neither a placeholder marker `$` nor a capital `W`, with which `WHERE` begins. */
  predicate Plain(s: string) {
    '$' !in s && 'W' !in s
  }

  lemma SelectLinePlain() ensures Plain(SelectLine) {}
  lemma AverageRatingPlain() ensures Plain(AverageRating) {}
  lemma AverageAliasPlain() ensures Plain(AverageAlias) {}
  lemma FromLinePlain() ensures Plain(FromLine) {}
  lemma JoinLinePlain() ensures Plain(JoinLine) {}
  lemma JoinConditionPlain() ensures Plain(JoinCondition) {}
  lemma GroupLinePlain() ensures Plain(GroupLine) {}
  lemma OrderLinePlain() ensures Plain(OrderLine) {}

  /** The fixed text before the clauses holds no placeholder and no `WHERE`. */
  lemma SelectTextPlain()
    ensures Plain(SelectText)
  {
    SelectLinePlain();
    AverageRatingPlain();
    AverageAliasPlain();
    FromLinePlain();
    JoinLinePlain();
    JoinConditionPlain();
  }

  /** The fixed text after the clauses holds no placeholder and no `WHERE`. */
  lemma GroupTextPlain()
    ensures Plain(GroupText) && Plain(EndText)
  {
    GroupLinePlain();
    OrderLinePlain();
  }

  /** The conditions hold no placeholder and no `WHERE`. */
  lemma ConditionPlain(f: Filter)
    ensures Plain(ConditionText(f))
  {
    match f
    case Owner => OwnerConditionPlain();
    case City => CityConditionPlain();
    case MinimumPrice => MinimumPriceConditionPlain();
    case MaximumPrice => MaximumPriceConditionPlain();
    case MinimumRating => MinimumRatingConditionPlain();
  }

  lemma OwnerConditionPlain() ensures Plain(ConditionText(Owner)) {}
  lemma CityConditionPlain() ensures Plain(ConditionText(City)) {}
  lemma MinimumPriceConditionPlain() ensures Plain(ConditionText(MinimumPrice)) {}
  lemma MaximumPriceConditionPlain() ensures Plain(ConditionText(MaximumPrice)) {}
  lemma MinimumRatingConditionPlain() ensures Plain(ConditionText(MinimumRating)) {}

  /** The text of a non-empty list of clauses starts with the text of its first clause. */
  lemma ClausesTextCons(cs: seq<Clause>, t: string)
    requires cs != []
    ensures ClausesText(cs) + t == ClauseText(cs[0]) + (ClausesText(cs[1..]) + t)
  {
  }

  lemma NumbersCons(cs: seq<Clause>, ns: seq<nat>)
    requires cs != []
    ensures [cs[0].placeholder] + (Numbers(cs[1..]) + ns) == Numbers(cs) + ns
  {
    assert Numbers(cs) == [cs[0].placeholder] + Numbers(cs[1..]);
  }

  /** Where the placeholder of a clause sits in its text. */
  lemma ClauseTextSplit(c: Clause, t: string)
    ensures ClauseText(c) + t
            == (KeywordText(c.keyword) + ConditionText(c.filter)) + ("$" + (NatText(c.placeholder) + (" " + t)))
  {
  }

  /** The text of a clause holds exactly one placeholder, its own. */
  lemma ClausePlaceholders(c: Clause, t: string)
    ensures Placeholders(ClauseText(c) + t) == [c.placeholder] + Placeholders(t)
  {
    var head := KeywordText(c.keyword) + ConditionText(c.filter);
    ConditionPlain(c.filter);
    ClauseTextSplit(c, t);
    PlaceholdersSkip(head, "$" + (NatText(c.placeholder) + (" " + t)));
    PlaceholdersMarker(c.placeholder, " " + t);
    PlaceholdersSkip(" ", t);
  }

  /** The text of a list of clauses holds their placeholders, in list order. */
  lemma {:induction false} ClausesPlaceholders(cs: seq<Clause>, t: string)
    ensures Placeholders(ClausesText(cs) + t) == Numbers(cs) + Placeholders(t)
  {
    if cs == [] {
      assert ClausesText(cs) + t == t;
    } else {
      ClausesTextCons(cs, t);
      ClausePlaceholders(cs[0], ClausesText(cs[1..]) + t);
      ClausesPlaceholders(cs[1..], t);
      NumbersCons(cs, Placeholders(t));
    }
  }

  /** Where the limit's placeholder sits in the tail of the query. */
  lemma TailTextSplit(n: nat)
    ensures TailText(n) == GroupText + ("$" + (NatText(n) + EndText))
  {
  }

  /** The tail of the query holds one placeholder, the limit's. */
  lemma TailPlaceholders(n: nat)
    ensures Placeholders(TailText(n)) == [n]
  {
    GroupTextPlain();
    TailTextSplit(n);
    PlaceholdersSkip(GroupText, "$" + (NatText(n) + EndText));
    PlaceholdersMarker(n, EndText);
    PlaceholdersNone(EndText);
  }

  /** A rendered query is the fixed head, then the clauses, then the tail. */
  lemma RenderSplit(cs: seq<Clause>, n: nat)
    ensures Render(cs, n) == SelectText + (ClausesText(cs) + TailText(n))
  {
    Regroup(SelectText, ClausesText(cs), TailText(n));
  }

  lemma Regroup(a: string, b: string, c: string)
    ensures a + b + c == a + (b + c)
  {
  }

  /** A rendered query holds the clauses' placeholders and then the limit's, and no others. */
  lemma RenderPlaceholders(cs: seq<Clause>, n: nat)
    ensures Placeholders(Render(cs, n)) == Numbers(cs) + [n]
  {
    SelectTextPlain();
    RenderSplit(cs, n);
    PlaceholdersSkip(SelectText, ClausesText(cs) + TailText(n));
    ClausesPlaceholders(cs, TailText(n));
    TailPlaceholders(n);
  }

  /** Clauses numbered from 1 in order, followed by the next number, count 1, 2, 3, ... */
  lemma NumbersConsecutive(cs: seq<Clause>)
    requires forall k :: 0 <= k < |cs| ==> cs[k].placeholder == k + 1
    ensures Numbers(cs) + [|cs| + 1] == seq(|cs| + 1, k => k + 1)
  {
  }

  /**
   * The search query numbers its placeholders `$1` to `$N` from left to
   * right, with no gap and no repetition, where `N` is the number of
   * parameters: every parameter is referred to, in the order it was pushed.
   */
  lemma SearchPlaceholders(o: SearchOptions, limit: int)
    ensures Placeholders(Render(SearchClauses(o), |SearchParams(o, limit)|))
            == seq(|SearchParams(o, limit)|, k => k + 1)
  {
    var cs := SearchClauses(o);
    ParamCount(o, limit);
    ClauseNumbering(o);
    RenderPlaceholders(cs, |cs| + 1);
    NumbersConsecutive(cs);
  }

  /** A clause says `WHERE` once if it is a `WHERE` clause and not at all otherwise. */
  lemma ClauseWheres(c: Clause, t: string)
    ensures Occurrences(ClauseText(c) + t, "WHERE")
            == (if c.keyword == Where then 1 else 0) + Occurrences(t, "WHERE")
  {
    var rest := ConditionText(c.filter) + "$" + NatText(c.placeholder) + " ";
    ConditionPlain(c.filter);
    assert ClauseText(c) + t == KeywordText(c.keyword) + (rest + t);
    OccurrencesSkip(rest, t, "WHERE");
    if c.keyword == Where {
      OccurrencesWord("WHERE", rest + t);
    } else {
      OccurrencesSkip("AND", rest + t, "WHERE");
    }
  }

  /** The text of a list of clauses says `WHERE` once per `WHERE` clause. */
  lemma {:induction false} ClausesWheres(cs: seq<Clause>, t: string)
    ensures Occurrences(ClausesText(cs) + t, "WHERE") == WhereCount(cs) + Occurrences(t, "WHERE")
  {
    if cs == [] {
      assert ClausesText(cs) + t == t;
    } else {
      ClausesTextCons(cs, t);
      ClauseWheres(cs[0], ClausesText(cs[1..]) + t);
      ClausesWheres(cs[1..], t);
    }
  }

  /** The tail of the query holds no `WHERE`. */
  lemma TailNoWhere(n: nat)
    ensures 'W' !in TailText(n)
  {
    GroupTextPlain();
    TailTextSplit(n);
  }

  /** Only the clauses can contribute a `WHERE` to a rendered query. */
  lemma RenderWheres(cs: seq<Clause>, n: nat)
    ensures Occurrences(Render(cs, n), "WHERE") == WhereCount(cs)
  {
    SelectTextPlain();
    RenderSplit(cs, n);
    OccurrencesSkip(SelectText, ClausesText(cs) + TailText(n), "WHERE");
    ClausesWheres(cs, TailText(n));
    TailNoWhere(n);
    OccurrencesNone(TailText(n), "WHERE");
  }

  /** A list whose clauses all say `AND` has no `WHERE` clause. */
  lemma {:induction false} NoWhereClause(cs: seq<Clause>)
    requires forall k :: 0 <= k < |cs| ==> cs[k].keyword == And
    ensures WhereCount(cs) == 0
  {
    if cs != [] {
      NoWhereClause(cs[1..]);
    }
  }

  /**
   * The search query says `WHERE` exactly once when at least one option is
   * truthy, and not at all when none is.
   */
  lemma SearchWheres(o: SearchOptions, limit: int)
    ensures Occurrences(Render(SearchClauses(o), |SearchParams(o, limit)|), "WHERE")
            == if SetCount(o) > 0 then 1 else 0
  {
    var cs := SearchClauses(o);
    ParamCount(o, limit);
    ClauseNumbering(o);
    RenderWheres(cs, |SearchParams(o, limit)|);
    if cs != [] {
      NoWhereClause(cs[1..]);
    }
  }
}
