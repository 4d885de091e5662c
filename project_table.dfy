/**
 * The project list (`ProjectTable` in ProjectTable.tsx): the topic search,
 * the ten-row page window, the page count, the Previous and Next page
 * updaters, and how a status is shown.  Everything here is a value derived
 * from the component's two state variables, the query and the page.
 */
module ProjectTable {
  import opened Text

  datatype Project = Project(id: string, topic: string, status: string, created: string, duration: string)

  const ITEMS_PER_PAGE := 10

  /** The five sample projects the table lists. */
  const MockProjects := [
    Project("p1a2b3c4", "Quantum Mechanics", "completed", "2023-12-01", "5:32"),
    Project("p2d3e4f5", "DNA Structure", "processing", "2023-12-05", "In progress"),
    Project("p3g4h5i6", "Climate Change", "completed", "2023-12-10", "8:15"),
    Project("p4j5k6l7", "Artificial Intelligence", "draft", "2023-12-15", "Not started"),
    Project("p5m6n7o8", "Solar System", "completed", "2023-12-20", "6:45")
  ]

  /** The search keeps a project when its lower-cased topic contains the lower-cased query. */
  predicate Matches(p: Project, query: string) {
    Contains(Lower(p.topic), Lower(query))
  }

  /** `projects.filter(...)` with `Matches`. */
  function Filter(projects: seq<Project>, query: string): (r: seq<Project>)
    ensures |r| <= |projects|
    ensures forall p :: p in r <==> p in projects && Matches(p, query)
  {
    if projects == [] then []
    else if Matches(projects[0], query) then [projects[0]] + Filter(projects[1..], query)
    else Filter(projects[1..], query)
  }

  /** The filter keeps the original order: filtering a concatenation concatenates the filtered parts. */
  lemma {:induction false} FilterAppend(a: seq<Project>, b: seq<Project>, query: string)
    ensures Filter(a + b, query) == Filter(a, query) + Filter(b, query)
  {
    if a == [] {
      assert a + b == b;
    } else {
      assert (a + b)[0] == a[0] && (a + b)[1..] == a[1..] + b;
      FilterAppend(a[1..], b, query);
    }
  }

  /** An empty query keeps every project, in order. */
  lemma {:induction false} EmptyQueryKeepsAll(projects: seq<Project>)
    ensures Filter(projects, "") == projects
  {
    if projects != [] {
      ContainsEmpty(Lower(projects[0].topic));
      assert Lower("") == "";
      EmptyQueryKeepsAll(projects[1..]);
    }
  }

  /** The search ignores ASCII case: a query and its lower-cased form select the same projects. */
  lemma QueryCaseIgnored(projects: seq<Project>, query: string)
    ensures Filter(projects, Lower(query)) == Filter(projects, query)
  {
    assert Lower(Lower(query)) == Lower(query);
    FilterSameMatches(projects, Lower(query), query);
  }

  lemma {:induction false} FilterSameMatches(projects: seq<Project>, q1: string, q2: string)
    requires Lower(q1) == Lower(q2)
    ensures Filter(projects, q1) == Filter(projects, q2)
  {
    if projects != [] {
      FilterSameMatches(projects[1..], q1, q2);
    }
  }

  /** Where `Array.prototype.slice` puts an index: negatives count from the end, and both clamp to the length. */
  function SliceIndex(i: int, len: nat): (r: nat)
    ensures r <= len
    ensures 0 <= i ==> r == if i < len then i else len
  {
    if i < 0 then (if len + i < 0 then 0 else len + i)
    else if i < len then i else len
  }

  /** `s.slice(start, end)`. */
  function Slice<T>(s: seq<T>, start: int, end: int): seq<T> {
    var a := SliceIndex(start, |s|);
    var b := SliceIndex(end, |s|);
    if a < b then s[a..b] else []
  }

  /** The rows on a page: `slice(page * 10 - 10, page * 10)` of the filtered list. */
  function CurrentPage<T>(filtered: seq<T>, page: int): (r: seq<T>)
    ensures page >= 1 ==> |r| <= ITEMS_PER_PAGE
    ensures page >= 1 ==> |r| == if |filtered| <= (page - 1) * ITEMS_PER_PAGE then 0
                                 else if |filtered| < page * ITEMS_PER_PAGE then |filtered| - (page - 1) * ITEMS_PER_PAGE
                                 else ITEMS_PER_PAGE
    ensures page >= 1 ==> forall i | 0 <= i < |r| :: r[i] == filtered[(page - 1) * ITEMS_PER_PAGE + i]
  {
    Slice(filtered, page * ITEMS_PER_PAGE - ITEMS_PER_PAGE, page * ITEMS_PER_PAGE)
  }

  /** `Math.ceil(n / 10)`. */
  function TotalPages(n: nat): (r: nat)
    ensures r * ITEMS_PER_PAGE >= n
    ensures n > 0 ==> (r - 1) * ITEMS_PER_PAGE < n
    ensures r == 0 <==> n == 0
  {
    (n + ITEMS_PER_PAGE - 1) / ITEMS_PER_PAGE
  }

  /** Every filtered project appears on exactly the page its position gives, and that page exists. */
  lemma EveryItemOnItsPage<T>(filtered: seq<T>, i: int)
    requires 0 <= i < |filtered|
    ensures var page := i / ITEMS_PER_PAGE + 1;
            && 1 <= page <= TotalPages(|filtered|)
            && i % ITEMS_PER_PAGE < |CurrentPage(filtered, page)|
            && CurrentPage(filtered, page)[i % ITEMS_PER_PAGE] == filtered[i]
  {
    var page := i / ITEMS_PER_PAGE + 1;
    assert (page - 1) * ITEMS_PER_PAGE + i % ITEMS_PER_PAGE == i;
  }

  /**
   * A page past the last one (the query narrowed the list without resetting
   * the page) shows no rows, so the table shows "No projects found.".
   */
  lemma PastLastPageEmpty<T>(filtered: seq<T>, page: int)
    requires page > TotalPages(|filtered|) && page >= 1
    ensures CurrentPage(filtered, page) == []
  {
  }

  /** The Previous button's updater `p => Math.max(1, p - 1)`. */
  function PreviousPage(p: int): (r: int)
    ensures r >= 1
    ensures p > 1 ==> r == p - 1
    ensures p <= 1 ==> r == 1
  {
    if p - 1 > 1 then p - 1 else 1
  }

  /** The Next button's updater `p => Math.min(totalPages, p + 1)`. */
  function NextPage(totalPages: nat, p: int): (r: int)
    ensures r <= totalPages
    ensures p < totalPages ==> r == p + 1
    ensures p >= totalPages ==> r == totalPages
  {
    if totalPages < p + 1 then totalPages else p + 1
  }

  /**
   * The buttons are shown only when there is more than one page; pressing
   * either from a page in range keeps the page in range.
   */
  lemma PagingStaysInRange(totalPages: nat, p: int)
    requires totalPages > 1 && 1 <= p <= totalPages
    ensures 1 <= PreviousPage(p) <= totalPages
    ensures 1 <= NextPage(totalPages, p) <= totalPages
  {
  }

  /** `getStatusColor`: green for completed, blue for processing, gray for draft and anything else. */
  function StatusColor(status: string): (r: string)
    ensures status == "completed" <==> r == "bg-green-100 text-green-800"
    ensures status == "processing" <==> r == "bg-blue-100 text-blue-800"
    ensures status != "completed" && status != "processing" <==> r == "bg-gray-100 text-gray-800"
  {
    match status
    case "completed" => "bg-green-100 text-green-800"
    case "processing" => "bg-blue-100 text-blue-800"
    case "draft" => "bg-gray-100 text-gray-800"
    case _ => "bg-gray-100 text-gray-800"
  }

  /** The status label: `s.charAt(0).toUpperCase() + s.slice(1)`. */
  function Capitalize(s: string): (r: string)
    ensures |r| == |s|
    ensures s != [] ==> r[0] == UpperChar(s[0]) && r[1..] == s[1..]
  {
    if s == [] then [] else [UpperChar(s[0])] + s[1..]
  }

  /** Capitalising a label twice gives the same label. */
  lemma CapitalizeIdempotent(s: string)
    ensures Capitalize(Capitalize(s)) == Capitalize(s)
  {
    if s != [] {
      assert UpperChar(UpperChar(s[0])) == UpperChar(s[0]);
    }
  }

  /** Up to ten rows fit on one page: page 1 shows them all and it is the only page. */
  lemma SinglePage<T>(rows: seq<T>)
    requires 0 < |rows| <= ITEMS_PER_PAGE
    ensures TotalPages(|rows|) == 1
    ensures CurrentPage(rows, 1) == rows
  {
    assert CurrentPage(rows, 1) == rows[0..|rows|];
  }

  /** With the sample data and an empty query the table shows all five projects on a single page. */
  lemma SampleDataOnePage()
    ensures Filter(MockProjects, "") == MockProjects
    ensures TotalPages(|Filter(MockProjects, "")|) == 1
    ensures CurrentPage(Filter(MockProjects, ""), 1) == MockProjects
  {
    EmptyQueryKeepsAll(MockProjects);
    SinglePage(MockProjects);
  }

  /** The labels of the three statuses the sample data uses. */
  lemma StatusLabels()
    ensures Capitalize("completed") == "Completed"
    ensures Capitalize("processing") == "Processing"
    ensures Capitalize("draft") == "Draft"
  {
    assert Capitalize("completed") == [UpperChar('c')] + "ompleted";
    assert Capitalize("processing") == [UpperChar('p')] + "rocessing";
    assert Capitalize("draft") == [UpperChar('d')] + "raft";
  }
}
