/**
 * The home page: the catalogue of calculators, the search over it, and the
 * catalogue grouped by category.  Case mapping is ASCII only.
 */
module Catalog {
  datatype Entry = Entry(name: string, href: string, category: string, keywords: seq<string>)

  /** The catalogue, in display order. */
  const Calculators: seq<Entry> := [
    Entry("Mortgage Calculator", "/mortgage-calculator", "Financial", ["mortgage", "home", "loan", "house", "property"]),
    Entry("Loan Calculator", "/loan-calculator", "Financial", ["loan", "borrow", "debt", "payment"]),
    Entry("Auto Loan Calculator", "/auto-loan-calculator", "Financial", ["auto", "car", "vehicle", "loan"]),
    Entry("Interest Calculator", "/interest-calculator", "Financial", ["interest", "compound", "simple", "investment"]),
    Entry("Payment Calculator", "/payment-calculator", "Financial", ["payment", "monthly", "installment"]),
    Entry("Retirement Calculator", "/retirement-calculator", "Financial", ["retirement", "pension", "401k", "savings"]),
    Entry("Amortization Calculator", "/amortization-calculator", "Financial", ["amortization", "schedule", "principal"]),
    Entry("Investment Calculator", "/investment-calculator", "Financial", ["investment", "return", "profit", "portfolio"]),
    Entry("Inflation Calculator", "/inflation-calculator", "Financial", ["inflation", "purchasing", "power", "value"]),
    Entry("Finance Calculator", "/finance-calculator", "Financial", ["finance", "financial", "money"]),
    Entry("Income Tax Calculator", "/income-tax-calculator", "Financial", ["tax", "income", "federal", "state"]),
    Entry("Compound Interest Calculator", "/compound-interest-calculator", "Financial", ["compound", "interest", "growth"]),
    Entry("Salary Calculator", "/salary-calculator", "Financial", ["salary", "wage", "hourly", "annual"]),
    Entry("Interest Rate Calculator", "/interest-rate-calculator", "Financial", ["rate", "interest", "apr"]),
    Entry("Sales Tax Calculator", "/sales-tax-calculator", "Financial", ["sales", "tax", "purchase"]),
    Entry("BMI Calculator", "/bmi-calculator", "Fitness & Health", ["bmi", "body", "mass", "index", "weight", "height"]),
    Entry("Calorie Calculator", "/calorie-calculator", "Fitness & Health", ["calorie", "calories", "diet", "nutrition", "tdee"]),
    Entry("Body Fat Calculator", "/body-fat-calculator", "Fitness & Health", ["body", "fat", "percentage", "composition"]),
    Entry("BMR Calculator", "/bmr-calculator", "Fitness & Health", ["bmr", "basal", "metabolic", "rate"]),
    Entry("Ideal Weight Calculator", "/ideal-weight-calculator", "Fitness & Health", ["ideal", "weight", "healthy", "target"]),
    Entry("Pace Calculator", "/pace-calculator", "Fitness & Health", ["pace", "running", "speed", "marathon"]),
    Entry("Pregnancy Calculator", "/pregnancy-calculator", "Fitness & Health", ["pregnancy", "pregnant", "baby", "due"]),
    Entry("Pregnancy Conception Calculator", "/pregnancy-conception-calculator", "Fitness & Health", ["conception", "ovulation", "fertility"]),
    Entry("Due Date Calculator", "/due-date-calculator", "Fitness & Health", ["due", "date", "birth", "delivery"]),
    Entry("Scientific Calculator", "/scientific-calculator", "Math", ["scientific", "calculator", "math", "trigonometry"]),
    Entry("Fraction Calculator", "/fraction-calculator", "Math", ["fraction", "fractions", "numerator", "denominator"]),
    Entry("Percentage Calculator", "/percentage-calculator", "Math", ["percentage", "percent", "ratio", "proportion"]),
    Entry("Random Number Generator", "/random-number-generator", "Math", ["random", "number", "generator", "lottery"]),
    Entry("Triangle Calculator", "/triangle-calculator", "Math", ["triangle", "geometry", "area", "perimeter"]),
    Entry("Standard Deviation Calculator", "/standard-deviation-calculator", "Math", ["standard", "deviation", "statistics", "variance"]),
    Entry("Age Calculator", "/age-calculator", "Other", ["age", "birthday", "years", "old"]),
    Entry("Date Calculator", "/date-calculator", "Other", ["date", "calendar", "days", "difference"]),
    Entry("Time Calculator", "/time-calculator", "Other", ["time", "hours", "minutes", "duration"]),
    Entry("Hours Calculator", "/hours-calculator", "Other", ["hours", "work", "timesheet", "payroll"]),
    Entry("GPA Calculator", "/gpa-calculator", "Other", ["gpa", "grade", "point", "average", "school"]),
    Entry("Grade Calculator", "/grade-calculator", "Other", ["grade", "test", "exam", "score"]),
    Entry("Concrete Calculator", "/concrete-calculator", "Other", ["concrete", "cement", "construction", "volume"]),
    Entry("Subnet Calculator", "/subnet-calculator", "Other", ["subnet", "network", "ip", "cidr"]),
    Entry("Password Generator", "/password-generator", "Other", ["password", "generator", "security", "random"]),
    Entry("Conversion Calculator", "/conversion-calculator", "Other", ["conversion", "convert", "units", "metric"])
  ]

  /** The lowercase form of an ASCII capital; any other character is kept. */
  function LowerChar(c: char): char
  {
    if 'A' <= c <= 'Z' then (c as int + 32) as char else c
  }

  /** toLowerCase, character by character. */
  function Lower(s: string): (r: string)
    ensures |r| == |s|
    ensures forall i :: 0 <= i < |s| ==> r[i] == LowerChar(s[i])
  {
    if s == [] then [] else [LowerChar(s[0])] + Lower(s[1..])
  }

  /** Lowercasing twice is lowercasing once. */
  lemma LowerIdempotent(s: string)
    ensures Lower(Lower(s)) == Lower(s)
  {
  }

  /** sub occurs in s at some position (the meaning of includes). */
  ghost predicate Contains(s: string, sub: string)
  {
    exists i :: OccursAt(s, sub, i)
  }

  predicate OccursAt(s: string, sub: string, i: int)
  {
    0 <= i <= |s| - |sub| && s[i..i + |sub|] == sub
  }

  /** includes, as a scan: sub starts here or somewhere further on. */
  predicate Includes(s: string, sub: string)
    decreases |s|
  {
    sub <= s || (s != [] && Includes(s[1..], sub))
  }

  /** The scan finds sub exactly when it occurs. */
  lemma {:induction false} IncludesContains(s: string, sub: string)
    ensures Includes(s, sub) <==> Contains(s, sub)
    decreases |s|
  {
    if sub <= s {
      assert OccursAt(s, sub, 0);
    } else if s != [] {
      IncludesContains(s[1..], sub);
      TailOccurrence(s, sub);
      OccurrenceInTail(s, sub);
    }
  }

  /** An occurrence in the tail is an occurrence one position further on. */
  lemma TailOccurrence(s: string, sub: string)
    requires s != []
    ensures Contains(s[1..], sub) ==> Contains(s, sub)
  {
    if Contains(s[1..], sub) {
      var i :| OccursAt(s[1..], sub, i);
      SliceOfTail(s, i, i + |sub|);
      assert OccursAt(s, sub, i + 1);
    }
  }

  /** An occurrence past the start is an occurrence in the tail. */
  lemma OccurrenceInTail(s: string, sub: string)
    requires s != [] && !(sub <= s)
    ensures Contains(s, sub) ==> Contains(s[1..], sub)
  {
    if Contains(s, sub) {
      var i :| OccursAt(s, sub, i);
      if i > 0 {
        SliceOfTail(s, i - 1, i - 1 + |sub|);
        assert OccursAt(s[1..], sub, i - 1);
      }
    }
  }

  /** A slice of the tail is the slice one position further on. */
  lemma SliceOfTail(s: string, i: int, j: int)
    requires 0 <= i <= j < |s|
    ensures s[1..][i..j] == s[i + 1..j + 1]
  {
    forall k | 0 <= k < j - i
      ensures s[1..][i..j][k] == s[i + 1..j + 1][k]
    {
    }
  }

  /** The characters String.prototype.trim removes: white space and line terminators. */
  predicate IsSpace(c: char)
  {
    c in {'\t', '\n', '\U{000B}', '\U{000C}', '\r', ' ', '\U{00A0}', '\U{1680}', '\U{2000}', '\U{2001}',
          '\U{2002}', '\U{2003}', '\U{2004}', '\U{2005}', '\U{2006}', '\U{2007}', '\U{2008}', '\U{2009}',
          '\U{200A}', '\U{2028}', '\U{2029}', '\U{202F}', '\U{205F}', '\U{3000}', '\U{FEFF}'}
  }

  function TrimStart(s: string): (r: string)
    ensures r == [] || !IsSpace(r[0])
    ensures |r| <= |s| && r == s[|s| - |r|..]
  {
    if s != [] && IsSpace(s[0]) then TrimStart(s[1..]) else s
  }

  function TrimEnd(s: string): (r: string)
    ensures r == [] || !IsSpace(r[|r| - 1])
    ensures |r| <= |s| && r == s[..|r|]
  {
    if s != [] && IsSpace(s[|s| - 1]) then TrimEnd(s[..|s| - 1]) else s
  }

  function Trim(s: string): string
  {
    TrimEnd(TrimStart(s))
  }

  /** Every character is space. */
  predicate Blank(s: string)
  {
    forall i :: 0 <= i < |s| ==> IsSpace(s[i])
  }

  /** Trimming leaves nothing exactly when the text is all space. */
  lemma TrimEmpty(s: string)
    ensures Trim(s) == "" <==> Blank(s)
  {
    var t := TrimStart(s);
    if Blank(s) {
      BlankTrimStart(s);
    } else {
      var i :| 0 <= i < |s| && !IsSpace(s[i]);
      TrimStartKeeps(s, i);
      TrimEndKeeps(t);
    }
  }

  lemma {:induction false} TrimEndKeeps(s: string)
    requires s != [] && !IsSpace(s[0])
    ensures TrimEnd(s) != []
  {
    if IsSpace(s[|s| - 1]) {
      TrimEndKeeps(s[..|s| - 1]);
    }
  }

  lemma {:induction false} BlankTrimStart(s: string)
    requires Blank(s)
    ensures TrimStart(s) == []
  {
    if s != [] {
      BlankTrimStart(s[1..]);
    }
  }

  lemma {:induction false} TrimStartKeeps(s: string, i: int)
    requires 0 <= i < |s| && !IsSpace(s[i])
    ensures TrimStart(s) != []
  {
    if IsSpace(s[0]) {
      TrimStartKeeps(s[1..], i - 1);
    }
  }

  /** The entries of cs that satisfy p, in their order. */
  function Select(cs: seq<Entry>, p: Entry -> bool): (r: seq<Entry>)
    ensures |r| <= |cs|
  {
    if cs == [] then []
    else Select(cs[..|cs| - 1], p) + (if p(cs[|cs| - 1]) then [cs[|cs| - 1]] else [])
  }

  /** a is b with some entries left out, the rest in their order. */
  predicate Sublist(a: seq<Entry>, b: seq<Entry>)
    decreases |b|
  {
    a == [] || (b != [] && ((a[|a| - 1] == b[|b| - 1] && Sublist(a[..|a| - 1], b[..|b| - 1]))
                            || Sublist(a, b[..|b| - 1])))
  }

  /** Selecting keeps exactly the entries that satisfy p, as a sub-list. */
  lemma {:induction false} SelectMembers(cs: seq<Entry>, p: Entry -> bool)
    ensures forall e :: e in Select(cs, p) <==> e in cs && p(e)
    ensures Sublist(Select(cs, p), cs)
  {
    if cs != [] {
      var init := cs[..|cs| - 1];
      SelectMembers(init, p);
      assert cs == init + [cs[|cs| - 1]];
      var r := Select(cs, p);
      if p(cs[|cs| - 1]) {
        assert r[..|r| - 1] == Select(init, p);
      } else {
        assert r == Select(init, p);
      }
    }
  }

  /** The matching rule of the search, for an already lowercased query. */
  predicate Matches(e: Entry, query: string)
  {
    Includes(Lower(e.name), query) || Includes(Lower(e.category), query)
    || exists k :: k in e.keywords && Includes(Lower(k), query)
  }

  /** The entries of cs matching an already lowercased query. */
  function Filter(cs: seq<Entry>, query: string): seq<Entry>
  {
    Select(cs, (e: Entry) => Matches(e, query))
  }

  lemma FilterMembers(cs: seq<Entry>, query: string)
    ensures forall e :: e in Filter(cs, query) <==> e in cs && Matches(e, query)
    ensures Sublist(Filter(cs, query), cs)
  {
    SelectMembers(cs, (e: Entry) => Matches(e, query));
  }

  /** The search results over a catalogue: none for a blank query, otherwise the entries matching the lowercased query. */
  function SearchIn(cs: seq<Entry>, query: string): seq<Entry>
  {
    if Trim(query) == "" then [] else Filter(cs, Lower(query))
  }

  /** The search of the home page, over its catalogue. */
  function Search(query: string): seq<Entry>
  {
    SearchIn(Calculators, query)
  }

  /**
   * A blank query finds nothing; otherwise an entry is found exactly when the
   * lowercased query, untrimmed, occurs in its lowercased name, category or a
   * keyword, and the results keep catalogue order.
   */
  lemma SearchResults(cs: seq<Entry>, query: string)
    ensures Blank(query) ==> SearchIn(cs, query) == []
    ensures !Blank(query) ==> Sublist(SearchIn(cs, query), cs)
    ensures !Blank(query) ==> forall e :: e in SearchIn(cs, query) <==>
      e in cs
      && (Contains(Lower(e.name), Lower(query)) || Contains(Lower(e.category), Lower(query))
          || exists k :: k in e.keywords && Contains(Lower(k), Lower(query)))
  {
    TrimEmpty(query);
    if !Blank(query) {
      var q := Lower(query);
      FilterMembers(cs, q);
      forall e: Entry
        ensures Matches(e, q) <==>
          (Contains(Lower(e.name), q) || Contains(Lower(e.category), q)
           || exists k :: k in e.keywords && Contains(Lower(k), q))
      {
        IncludesContains(Lower(e.name), q);
        IncludesContains(Lower(e.category), q);
        forall k ensures Includes(Lower(k), q) <==> Contains(Lower(k), q) {
          IncludesContains(Lower(k), q);
        }
      }
    }
  }

  /** Lowercasing neither makes nor removes space. */
  lemma LowerSpace(c: char)
    ensures IsSpace(LowerChar(c)) <==> IsSpace(c)
  {
  }

  /** Capitals in the query make no difference. */
  lemma SearchIgnoresCase(cs: seq<Entry>, query: string)
    ensures SearchIn(cs, Lower(query)) == SearchIn(cs, query)
  {
    var q := Lower(query);
    LowerIdempotent(query);
    TrimEmpty(query);
    TrimEmpty(q);
    forall i | 0 <= i < |query| ensures IsSpace(q[i]) <==> IsSpace(query[i]) {
      LowerSpace(query[i]);
    }
    assert Blank(q) <==> Blank(query);
    assert Lower(q) == q;
  }

  /** The set of categories that occur in cs. */
  function Categories(cs: seq<Entry>): set<string>
  {
    set i | 0 <= i < |cs| :: cs[i].category
  }

  /** The entries of cs in category c, in their order. */
  function InCategory(cs: seq<Entry>, c: string): seq<Entry>
  {
    Select(cs, (e: Entry) => e.category == c)
  }

  lemma InCategoryMembers(cs: seq<Entry>, c: string)
    ensures forall e :: e in InCategory(cs, c) <==> e in cs && e.category == c
    ensures Sublist(InCategory(cs, c), cs)
  {
    SelectMembers(cs, (e: Entry) => e.category == c);
  }

  lemma NoneInCategory(cs: seq<Entry>, c: string)
    requires c !in Categories(cs)
    ensures InCategory(cs, c) == []
  {
    InCategoryMembers(cs, c);
  }

  /** The grouping: one group per category present, holding that category's entries in catalogue order. */
  function Grouped(cs: seq<Entry>): map<string, seq<Entry>>
  {
    map c | c in Categories(cs) :: InCategory(cs, c)
  }

  /** Grouping one more entry appends it to its category's group, creating the group if needed. */
  lemma GroupStep(cs: seq<Entry>, e: Entry)
    ensures var g := Grouped(cs);
      Grouped(cs + [e]) == g[e.category := (if e.category in g then g[e.category] else []) + [e]]
  {
    var g := Grouped(cs);
    var ext := cs + [e];
    assert ext[..|ext| - 1] == cs;
    assert Categories(ext) == Categories(cs) + {e.category} by {
      forall c | c in Categories(ext) ensures c in Categories(cs) + {e.category} {
        var i :| 0 <= i < |ext| && ext[i].category == c;
        if i < |cs| {
          assert cs[i] == ext[i];
        }
      }
      forall c | c in Categories(cs) ensures c in Categories(ext) {
        var i :| 0 <= i < |cs| && cs[i].category == c;
        assert ext[i] == cs[i];
      }
      assert ext[|cs|] == e;
    }
    if e.category !in Categories(cs) {
      NoneInCategory(cs, e.category);
    }
    var target := g[e.category := (if e.category in g then g[e.category] else []) + [e]];
    forall c | c in Categories(ext)
      ensures Grouped(ext)[c] == target[c]
    {
      assert InCategory(ext, c) == InCategory(cs, c) + (if e.category == c then [e] else []);
    }
    assert Grouped(ext).Keys == target.Keys;
  }

  /** The loop of groupedCalculators: each entry pushed onto its category's group. */
  method GroupByCategory(cs: seq<Entry>) returns (groups: map<string, seq<Entry>>)
    ensures groups == Grouped(cs)
  {
    groups := map[];
    assert cs[..0] == [];
    assert Grouped(cs[..0]) == map[];
    for i := 0 to |cs|
      invariant groups == Grouped(cs[..i])
    {
      var entry := cs[i];
      GroupStep(cs[..i], entry);
      assert cs[..i + 1] == cs[..i] + [entry];
      groups := Push(groups, entry);
    }
    assert cs[..|cs|] == cs;
  }

  /** One step of the loop: the category's group is created when missing, then the entry pushed onto it. */
  method Push(groups: map<string, seq<Entry>>, entry: Entry) returns (r: map<string, seq<Entry>>)
    ensures r == groups[entry.category := (if entry.category in groups then groups[entry.category] else []) + [entry]]
  {
    r := groups;
    if entry.category !in r {
      r := r[entry.category := []];
    }
    r := r[entry.category := r[entry.category] + [entry]];
  }

  /** Every entry lies in the group of its own category and in no other, and groups keep catalogue order. */
  lemma GroupMembers(cs: seq<Entry>, c: string)
    requires c in Grouped(cs)
    ensures forall e :: e in Grouped(cs)[c] <==> e in cs && e.category == c
    ensures Sublist(Grouped(cs)[c], cs) && Grouped(cs)[c] != []
  {
    InCategoryMembers(cs, c);
    var i :| 0 <= i < |cs| && cs[i].category == c;
    assert cs[i] in Grouped(cs)[c];
  }

  /** The number of entries over all groups. */
  ghost function TotalSize(m: map<string, seq<Entry>>): nat
    decreases |m.Keys|
  {
    if m == map[] then 0
    else
      var k :| k in m;
      |m[k]| + TotalSize(m - {k})
  }

  /** The total can be taken apart at any key. */
  lemma {:induction false} TotalSizeRemove(m: map<string, seq<Entry>>, k: string)
    requires k in m
    ensures TotalSize(m) == |m[k]| + TotalSize(m - {k})
    decreases |m.Keys|
  {
    var j :| j in m && TotalSize(m) == |m[j]| + TotalSize(m - {j});
    if j != k {
      assert (m - {j}).Keys == m.Keys - {j};
      assert (m - {k}).Keys == m.Keys - {k};
      TotalSizeRemove(m - {j}, k);
      TotalSizeRemove(m - {k}, j);
      assert m - {j} - {k} == m - {k} - {j};
    }
  }

  lemma TotalSizeUpdate(m: map<string, seq<Entry>>, k: string, v: seq<Entry>)
    ensures TotalSize(m[k := v]) == TotalSize(m) - (if k in m then |m[k]| else 0) + |v|
  {
    TotalSizeRemove(m[k := v], k);
    if k in m {
      TotalSizeRemove(m, k);
      assert m[k := v] - {k} == m - {k};
    } else {
      assert m[k := v] - {k} == m;
    }
  }

  /** The group sizes add up to the number of entries. */
  lemma {:induction false} GroupSizes(cs: seq<Entry>)
    ensures TotalSize(Grouped(cs)) == |cs|
  {
    if cs == [] {
      assert Grouped(cs) == map[];
    } else {
      var init := cs[..|cs| - 1];
      var e := cs[|cs| - 1];
      GroupSizes(init);
      GroupStep(init, e);
      assert init + [e] == cs;
      var g := Grouped(init);
      TotalSizeUpdate(g, e.category, (if e.category in g then g[e.category] else []) + [e]);
    }
  }

  /** The page's search state. */
  class HomePage {
    var searchQuery: string
    var showSearchResults: bool

    constructor ()
      ensures searchQuery == "" && !showSearchResults
    {
      searchQuery := "";
      showSearchResults := false;
    }

    /** Typing in the search box. */
    method SetSearchQuery(query: string)
      modifies this
      ensures searchQuery == query && showSearchResults == old(showSearchResults)
    {
      searchQuery := query;
    }

    /** The search button: results are shown only for a query that is not blank. */
    method HandleSearch()
      modifies this
      ensures searchQuery == old(searchQuery)
      ensures showSearchResults == (old(showSearchResults) || !Blank(searchQuery))
    {
      TrimEmpty(searchQuery);
      if Trim(searchQuery) != "" {
        showSearchResults := true;
      }
    }

    /** Enter in the search box searches; other keys do nothing. */
    method HandleKeyPress(key: string)
      modifies this
      ensures searchQuery == old(searchQuery)
      ensures showSearchResults == (old(showSearchResults) || (key == "Enter" && !Blank(searchQuery)))
    {
      if key == "Enter" {
        HandleSearch();
      }
    }

    /** The clear button. */
    method ClearSearch()
      modifies this
      ensures searchQuery == "" && !showSearchResults
    {
      searchQuery := "";
      showSearchResults := false;
    }
  }
}
