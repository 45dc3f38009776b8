/**
 * The expense summary: grand total, per-category totals listed by amount
 * descending, and the most recent records, newest first. Amounts are exact
 * reals; the two-decimal and percentage rendering is not modelled.
 */
module Aggregation {
  import opened Wrappers
  import opened Text

  /** One data row of a user's sheet (the header row is not a record). */
  datatype Row = Row(date: string, category: string, amount: real)

  /** A line of the recent-expenses section: the date part of the timestamp. */
  datatype RecentLine = RecentLine(day: string, category: string, amount: real)

  /** A line of the by-category section. */
  datatype CategoryLine = CategoryLine(category: string, amount: real)

  datatype Summary =
    | NoExpenses                  // "No expenses recorded yet."
    | Report(recent: seq<RecentLine>, byCategory: seq<CategoryLine>, total: real)
    | Failed                      // "Error generating summary: ..."

  /** The number of recent records the router asks for. */
  const SUMMARY_LIMIT: nat := 5

  /** Sum of all amounts. */
  function Total(rs: seq<Row>): real {
    if rs == [] then 0.0 else Total(rs[..|rs| - 1]) + rs[|rs| - 1].amount
  }

  /** Sum of the amounts of the records of category `c`. */
  function CategoryTotal(rs: seq<Row>, c: string): real {
    if rs == [] then 0.0
    else CategoryTotal(rs[..|rs| - 1], c) + (if rs[|rs| - 1].category == c then rs[|rs| - 1].amount else 0.0)
  }

  predicate HasCategory(rs: seq<Row>, c: string) {
    exists i :: 0 <= i < |rs| && rs[i].category == c
  }

  predicate NoDuplicates(cs: seq<string>) {
    forall i, j :: 0 <= i < j < |cs| ==> cs[i] != cs[j]
  }

  /**
   * The distinct categories in order of first appearance: the key order of
   * the insertion-ordered dictionary the totals are accumulated in.
   */
  function Categories(rs: seq<Row>): (cs: seq<string>)
    ensures NoDuplicates(cs)
    ensures forall c :: c in cs <==> HasCategory(rs, c)
  {
    if rs == [] then []
    else
      var prefix := rs[..|rs| - 1];
      var c := rs[|rs| - 1].category;
      var cs := Categories(prefix);
      assert forall d :: HasCategory(rs, d) <==> HasCategory(prefix, d) || d == c by {
        forall d ensures HasCategory(rs, d) <==> HasCategory(prefix, d) || d == c {
          if HasCategory(rs, d) {
            var i :| 0 <= i < |rs| && rs[i].category == d;
            if i < |prefix| { assert prefix[i].category == d; }
          }
          if HasCategory(prefix, d) {
            var i :| 0 <= i < |prefix| && prefix[i].category == d;
            assert rs[i].category == d;
          }
        }
      }
      if c in cs then cs else cs + [c]
  }

  /** One more record adds its category at the end, unless it is already listed. */
  lemma CategoriesSnoc(rs: seq<Row>, r: Row)
    ensures Categories(rs + [r])
            == if r.category in Categories(rs) then Categories(rs) else Categories(rs) + [r.category]
  {
    assert (rs + [r])[..|rs|] == rs;
  }

  /** One more record adds its amount to its own category only. */
  lemma CategoryTotalSnoc(rs: seq<Row>, r: Row)
    ensures forall c :: CategoryTotal(rs + [r], c)
                        == CategoryTotal(rs, c) + (if r.category == c then r.amount else 0.0)
  {
    assert (rs + [r])[..|rs|] == rs;
  }

  /** A category that never occurs totals zero. */
  lemma {:induction false} AbsentCategoryTotal(rs: seq<Row>, c: string)
    requires !HasCategory(rs, c)
    ensures CategoryTotal(rs, c) == 0.0
  {
    if rs != [] {
      AbsentCategoryTotal(rs[..|rs| - 1], c);
    }
  }

  /** The category lines for the categories `cs`, in that order. */
  function CategoryLines(cs: seq<string>, rs: seq<Row>): (ls: seq<CategoryLine>)
    ensures |ls| == |cs|
    ensures forall i :: 0 <= i < |cs| ==> ls[i] == CategoryLine(cs[i], CategoryTotal(rs, cs[i]))
  {
    if cs == [] then [] else [CategoryLine(cs[0], CategoryTotal(rs, cs[0]))] + CategoryLines(cs[1..], rs)
  }

  function SumLines(ls: seq<CategoryLine>): real {
    if ls == [] then 0.0 else ls[0].amount + SumLines(ls[1..])
  }

  lemma {:induction false} SumLinesConcat(a: seq<CategoryLine>, b: seq<CategoryLine>)
    ensures SumLines(a + b) == SumLines(a) + SumLines(b)
  {
    if a == [] {
      assert a + b == b;
    } else {
      assert (a + b)[0] == a[0];
      assert (a + b)[1..] == a[1..] + b;
      SumLinesConcat(a[1..], b);
    }
  }

  /**
   * Adding one record `r` to the data changes the sum of the lines of
   * distinct categories `cs` by the record's amount if its category is
   * among them, and not at all otherwise.
   */
  lemma {:induction false} SumLinesAppend(cs: seq<string>, rs: seq<Row>, r: Row)
    requires NoDuplicates(cs)
    ensures SumLines(CategoryLines(cs, rs + [r]))
            == SumLines(CategoryLines(cs, rs)) + (if r.category in cs then r.amount else 0.0)
  {
    if cs != [] {
      assert (rs + [r])[..|rs|] == rs;
      assert NoDuplicates(cs[1..]) by {
        forall i, j | 0 <= i < j < |cs[1..]| ensures cs[1..][i] != cs[1..][j] {
          assert cs[1..][i] == cs[i + 1] && cs[1..][j] == cs[j + 1];
        }
      }
      SumLinesAppend(cs[1..], rs, r);
      assert r.category in cs <==> r.category == cs[0] || r.category in cs[1..];
    }
  }

  /** The per-category totals add up to the grand total. */
  lemma {:induction false} CategoryTotalsSum(rs: seq<Row>)
    ensures SumLines(CategoryLines(Categories(rs), rs)) == Total(rs)
  {
    if rs != [] {
      var prefix := rs[..|rs| - 1];
      var r := rs[|rs| - 1];
      assert rs == prefix + [r];
      var cs := Categories(prefix);
      CategoryTotalsSum(prefix);
      SumLinesAppend(cs, prefix, r);
      if r.category !in cs {
        assert Categories(rs) == cs + [r.category];
        assert CategoryLines(cs + [r.category], rs)
               == CategoryLines(cs, rs) + [CategoryLine(r.category, CategoryTotal(rs, r.category))];
        SumLinesConcat(CategoryLines(cs, rs), [CategoryLine(r.category, CategoryTotal(rs, r.category))]);
        AbsentCategoryTotal(prefix, r.category);
      }
    }
  }

  predicate NonIncreasing(ls: seq<CategoryLine>) {
    forall i, j :: 0 <= i < j < |ls| ==> ls[i].amount >= ls[j].amount
  }

  /**
   * Puts `x` before the first line whose amount is not larger: inserting the
   * earlier line in front of equal ones keeps the sort stable.
   */
  function Insert(ls: seq<CategoryLine>, x: CategoryLine): seq<CategoryLine> {
    if ls == [] then [x]
    else if ls[0].amount > x.amount then
      [ls[0]] + Insert(ls[1..], x)
    else [x] + ls
  }

  /** Insertion into a list sorted by amount, descending, keeps it sorted. */
  lemma {:induction false} InsertSorted(ls: seq<CategoryLine>, x: CategoryLine)
    requires NonIncreasing(ls)
    ensures |Insert(ls, x)| == |ls| + 1
    ensures Insert(ls, x)[0] == x || (ls != [] && Insert(ls, x)[0] == ls[0])
    ensures NonIncreasing(Insert(ls, x))
  {
    if ls != [] && ls[0].amount > x.amount {
      var rest := Insert(ls[1..], x);
      assert NonIncreasing(ls[1..]) by {
        forall i, j | 0 <= i < j < |ls[1..]| ensures ls[1..][i].amount >= ls[1..][j].amount {
          assert ls[1..][i] == ls[i + 1] && ls[1..][j] == ls[j + 1];
        }
      }
      InsertSorted(ls[1..], x);
      var r := [ls[0]] + rest;
      assert Insert(ls, x) == r;
      forall i, j | 0 <= i < j < |r| ensures r[i].amount >= r[j].amount {
        if i == 0 {
          assert rest[0] == x || rest[0] == ls[1..][0];
          if j > 1 {
            assert r[j] == rest[j - 1];
            assert rest[0].amount >= rest[j - 1].amount;
          }
        }
      }
    } else if ls != [] {
      var r := [x] + ls;
      forall i, j | 0 <= i < j < |r| ensures r[i].amount >= r[j].amount {
        if i == 0 {
          assert r[j] == ls[j - 1];
          assert ls[0].amount >= ls[j - 1].amount || j == 1;
        }
      }
    }
  }

  /** Insertion adds exactly the new line, as a multiset, and its amount. */
  lemma {:induction false} InsertKeeps(ls: seq<CategoryLine>, x: CategoryLine)
    ensures multiset(Insert(ls, x)) == multiset(ls) + multiset{x}
    ensures SumLines(Insert(ls, x)) == SumLines(ls) + x.amount
  {
    if ls != [] && ls[0].amount > x.amount {
      InsertKeeps(ls[1..], x);
      assert ls == [ls[0]] + ls[1..];
    }
  }

  /** Insertion sort, descending by amount: `sorted(..., key=amount, reverse=True)`. */
  function SortDescending(ls: seq<CategoryLine>): seq<CategoryLine> {
    if ls == [] then [] else Insert(SortDescending(ls[1..]), ls[0])
  }

  /** The category listing is in non-increasing amount order. */
  lemma {:induction false} SortDescendingSorted(ls: seq<CategoryLine>)
    ensures NonIncreasing(SortDescending(ls))
  {
    if ls != [] {
      SortDescendingSorted(ls[1..]);
      InsertSorted(SortDescending(ls[1..]), ls[0]);
    }
  }

  /** Sorting is a permutation and keeps the sum. */
  lemma {:induction false} SortDescendingKeeps(ls: seq<CategoryLine>)
    ensures multiset(SortDescending(ls)) == multiset(ls)
    ensures SumLines(SortDescending(ls)) == SumLines(ls)
  {
    if ls != [] {
      SortDescendingKeeps(ls[1..]);
      InsertKeeps(SortDescending(ls[1..]), ls[0]);
      assert ls == [ls[0]] + ls[1..];
    }
  }

  /** `rs[-limit:] if len(rs) > limit else rs`; note `rs[-0:]` is all of `rs`. */
  function Window(rs: seq<Row>, limit: nat): seq<Row> {
    if |rs| > limit then (if limit == 0 then rs else rs[|rs| - limit..]) else rs
  }

  function Reverse<T>(s: seq<T>): seq<T> {
    if s == [] then [] else Reverse(s[1..]) + [s[0]]
  }

  lemma {:induction false} ReverseAt<T>(s: seq<T>)
    ensures |Reverse(s)| == |s|
    ensures forall i :: 0 <= i < |s| ==> Reverse(s)[i] == s[|s| - 1 - i]
  {
    if s != [] {
      ReverseAt(s[1..]);
    }
  }

  /** The records shown as recent, newest first. */
  function Recent(rs: seq<Row>, limit: nat): seq<Row> {
    Reverse(Window(rs, limit))
  }

  /**
   * For a positive limit, the recent records are the last min(limit, n)
   * records in reverse order.
   */
  lemma RecentIsNewestFirst(rs: seq<Row>, limit: nat)
    requires limit > 0
    ensures |Recent(rs, limit)| == if |rs| < limit then |rs| else limit
    ensures forall i :: 0 <= i < |Recent(rs, limit)| ==> Recent(rs, limit)[i] == rs[|rs| - 1 - i]
  {
    ReverseAt(Window(rs, limit));
  }

  /** With limit 0 the slice `rs[-0:]` keeps every record. */
  lemma RecentZeroLimit(rs: seq<Row>)
    ensures |Recent(rs, 0)| == |rs|
    ensures forall i :: 0 <= i < |rs| ==> Recent(rs, 0)[i] == rs[|rs| - 1 - i]
  {
    ReverseAt(rs);
  }

  /** The first word of `date`: the date part of "YYYY-MM-DD HH:MM:SS". */
  function Day(date: string): Option<string> {
    var w := FirstWord(date);
    if w == [] then None else Some(w)
  }

  /** `Day` is `date.split()[0]`, and None exactly where that raises IndexError. */
  lemma DayIsFirstWord(date: string)
    ensures Day(date).None? <==> Split(date) == []
    ensures Day(date).Some? ==> Day(date).value == Split(date)[0]
  {
    FirstWordOfSplit(date);
  }

  /** Every record has a date with a day in it. */
  predicate AllDated(rs: seq<Row>) {
    forall i :: 0 <= i < |rs| ==> Day(rs[i].date).Some?
  }

  /** The recent-expense lines, one per record, in the same order. */
  function RecentLines(rs: seq<Row>): seq<RecentLine>
    requires AllDated(rs)
  {
    seq(|rs|, i requires 0 <= i < |rs| => RecentLine(Day(rs[i].date).value, rs[i].category, rs[i].amount))
  }

  /** `get_expense_summary(sheet, limit)` on the fetched records. */
  function SummaryOf(records: seq<Row>, limit: nat): (s: Summary)
    ensures s == NoExpenses <==> records == []
  {
    if records == [] then NoExpenses
    else
      var recent := Recent(records, limit);
      if !AllDated(recent) || Total(records) == 0.0 then Failed
      else Report(RecentLines(recent), SortDescending(CategoryLines(Categories(records), records)), Total(records))
  }

  /**
   * A report's total is the sum of all amounts, and its category lines are
   * in non-increasing order and add up to that total.
   */
  lemma ReportTotals(records: seq<Row>, limit: nat)
    requires SummaryOf(records, limit).Report?
    ensures SummaryOf(records, limit).total == Total(records)
    ensures NonIncreasing(SummaryOf(records, limit).byCategory)
    ensures SumLines(SummaryOf(records, limit).byCategory) == Total(records)
  {
    var lines := CategoryLines(Categories(records), records);
    assert SummaryOf(records, limit).byCategory == SortDescending(lines);
    CategoryTotalsSum(records);
    SortDescendingKeeps(lines);
    SortDescendingSorted(lines);
  }

  /**
   * A report lists exactly the categories that occur, each once, with the
   * sum of that category's amounts.
   */
  lemma ReportCategories(records: seq<Row>, limit: nat)
    requires SummaryOf(records, limit).Report?
    ensures |SummaryOf(records, limit).byCategory| == |Categories(records)|
    ensures forall l :: l in SummaryOf(records, limit).byCategory <==>
              HasCategory(records, l.category) && l.amount == CategoryTotal(records, l.category)
  {
    var cs := Categories(records);
    var lines := CategoryLines(cs, records);
    var sorted := SortDescending(lines);
    SortDescendingKeeps(lines);
    assert SummaryOf(records, limit).byCategory == sorted;
    assert |sorted| == |lines| by {
      assert |multiset(sorted)| == |multiset(lines)|;
    }
    forall l
      ensures l in sorted <==> HasCategory(records, l.category) && l.amount == CategoryTotal(records, l.category)
    {
      assert l in sorted <==> l in multiset(lines);
      if l in lines {
        var i :| 0 <= i < |lines| && lines[i] == l;
        assert cs[i] == l.category;
      }
      if HasCategory(records, l.category) && l.amount == CategoryTotal(records, l.category) {
        var i :| 0 <= i < |cs| && cs[i] == l.category;
        assert lines[i] == l;
      }
    }
  }

  /** A report's recent lines are the last min(limit, n) records, newest first. */
  lemma ReportRecent(records: seq<Row>, limit: nat)
    requires SummaryOf(records, limit).Report? && limit > 0
    ensures |SummaryOf(records, limit).recent| == (if |records| < limit then |records| else limit)
    ensures forall i :: 0 <= i < |SummaryOf(records, limit).recent| ==>
              SummaryOf(records, limit).recent[i].category == records[|records| - 1 - i].category
              && SummaryOf(records, limit).recent[i].amount == records[|records| - 1 - i].amount
              && Day(records[|records| - 1 - i].date) == Some(SummaryOf(records, limit).recent[i].day)
  {
    RecentIsNewestFirst(records, limit);
  }

  /**
   * The summary fails exactly when there are records and either a recent
   * record's date has no day (`split()[0]` raises) or the amounts total zero
   * (the percentage divides by the total).
   */
  lemma SummaryFails(records: seq<Row>, limit: nat)
    ensures SummaryOf(records, limit) == Failed <==>
              records != [] && ((exists r :: r in Recent(records, limit) && Day(r.date).None?)
                                || Total(records) == 0.0)
  {
  }

  /** The order of the insertion-ordered dictionary's own values. */
  function Items(order: seq<string>, totals: map<string, real>): seq<CategoryLine>
    requires forall c :: c in order ==> c in totals
  {
    if order == [] then [] else [CategoryLine(order[0], totals[order[0]])] + Items(order[1..], totals)
  }

  lemma {:induction false} ItemsAgree(order: seq<string>, totals: map<string, real>, rs: seq<Row>)
    requires forall c :: c in order ==> c in totals && totals[c] == CategoryTotal(rs, c)
    ensures Items(order, totals) == CategoryLines(order, rs)
  {
    if order != [] {
      ItemsAgree(order[1..], totals, rs);
    }
  }

  /**
   * The `defaultdict` loop: category totals accumulated record by record,
   * with the dictionary's keys in insertion order.
   */
  method AccumulateCategories(records: seq<Row>) returns (order: seq<string>, totals: map<string, real>)
    ensures order == Categories(records)
    ensures forall c :: c in totals <==> c in order
    ensures forall c :: c in totals ==> totals[c] == CategoryTotal(records, c)
  {
    order, totals := [], map[];
    var i := 0;
    while i < |records|
      invariant 0 <= i <= |records|
      invariant order == Categories(records[..i])
      invariant forall c :: c in totals <==> c in order
      invariant forall c :: c in totals ==> totals[c] == CategoryTotal(records[..i], c)
    {
      var r := records[i];
      var prefix := records[..i];
      assert records[..i + 1] == prefix + [r];
      CategoriesSnoc(prefix, r);
      CategoryTotalSnoc(prefix, r);
      var sofar := 0.0;
      if r.category in totals {
        sofar := totals[r.category];
      } else {
        AbsentCategoryTotal(prefix, r.category);
        order := order + [r.category];
      }
      // `categories[c] += amount` on a defaultdict(float)
      totals := totals[r.category := sofar + r.amount];
      i := i + 1;
    }
    assert records[..i] == records;
  }

  /** The loop over the recent records, taking the day of each date. */
  method RenderRecent(recent: seq<Row>) returns (lines: Option<seq<RecentLine>>)
    ensures lines == if AllDated(recent) then Some(RecentLines(recent)) else None
  {
    var acc: seq<RecentLine> := [];
    var j := 0;
    while j < |recent|
      invariant 0 <= j <= |recent| && |acc| == j
      invariant forall k :: 0 <= k < j ==>
                  Day(recent[k].date).Some?
                  && acc[k] == RecentLine(Day(recent[k].date).value, recent[k].category, recent[k].amount)
    {
      var day := Day(recent[j].date);
      if day.None? {
        return None;
      }
      acc := acc + [RecentLine(day.value, recent[j].category, recent[j].amount)];
      j := j + 1;
    }
    assert acc == RecentLines(recent);
    return Some(acc);
  }

  /**
   * `get_expense_summary` step by step: the total, the category totals, the
   * sorted listing, and the recent lines.
   */
  method Summarize(records: seq<Row>, limit: nat) returns (s: Summary)
    ensures s == SummaryOf(records, limit)
  {
    if records == [] {
      return NoExpenses;
    }
    var total := Total(records);
    var order, totals := AccumulateCategories(records);
    ItemsAgree(order, totals, records);
    var byCategory := SortDescending(Items(order, totals));
    var recent := Recent(records, limit);
    var lines := RenderRecent(recent);
    if lines.None? {
      return Failed;
    }
    if total == 0.0 {
      // every category line computes its percentage as amount / total
      return Failed;
    }
    s := Report(lines.value, byCategory, total);
  }

  /**
   * Two food records of 100 and 50, each dated: the summary lists both,
   * newest first, one category line Food 150, and total 150.
   */
  lemma TwoFoodRecords(d1: string, d2: string)
    requires Day(d1).Some? && Day(d2).Some?
    ensures var rs := [Row(d1, "Food", 100.0), Row(d2, "Food", 50.0)];
            SummaryOf(rs, SUMMARY_LIMIT)
            == Report([RecentLine(Day(d2).value, "Food", 50.0), RecentLine(Day(d1).value, "Food", 100.0)],
                      [CategoryLine("Food", 150.0)], 150.0)
  {
    var rs := [Row(d1, "Food", 100.0), Row(d2, "Food", 50.0)];
    assert rs[..1] == [rs[0]];
    assert [rs[0]][..0] == [];
    assert Categories([rs[0]]) == ["Food"];
    assert Categories(rs) == ["Food"];
    assert CategoryTotal([rs[0]], "Food") == 100.0;
    assert CategoryTotal(rs, "Food") == 150.0;
    assert Total([rs[0]]) == 100.0;
    assert Total(rs) == 150.0;
    assert Window(rs, SUMMARY_LIMIT) == rs;
    assert Reverse(rs[1..]) == [rs[1]] by {
      assert rs[1..][1..] == [];
    }
    assert Recent(rs, SUMMARY_LIMIT) == [rs[1], rs[0]];
    assert AllDated([rs[1], rs[0]]);
    var lines := CategoryLines(Categories(rs), rs);
    assert lines == [CategoryLine("Food", 150.0)];
    assert SortDescending(lines) == lines;
  }

}
