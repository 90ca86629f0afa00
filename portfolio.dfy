/** The portfolio gallery: a fixed catalog of projects, a row of category
    buttons and the list of projects shown for the active category. */
module Portfolio {

  datatype Project = Project(
    id: int,
    title: string,
    category: string,
    description: string,
    image: string,
    tags: seq<string>,
    github: string,
    demo: string)

  /** The filter value under which the whole catalog is shown. */
  const All: string := "All"

  /** The labels of the filter buttons, in the order they are drawn. */
  const Categories: seq<string> :=
    ["All", "Web Development", "UI/UX Design", "Mobile App", "Branding"]

  /** The label of the design button. */
  const UiUx: string := "UI/UX Design"

  /** The project catalog, in display order. */
  const Projects: seq<Project> := [
    Project(1, "E-Commerce Platform", "Web Development",
      "Modern e-commerce solution with React & Node.js",
      "https://images.unsplash.com/photo-1556742049-0cfed4f6a45d?ixlib=rb-4.0.3&auto=format&fit=crop&w=800&q=80",
      ["React", "Node.js", "MongoDB"], "#", "#"),
    Project(2, "Banking App Design", "UI/UX Design",
      "Clean and intuitive banking mobile app interface",
      "https://images.unsplash.com/photo-1551650975-87deedd944c3?ixlib=rb-4.0.3&auto=format&fit=crop&w=800&q=80",
      ["Figma", "UI/UX", "Mobile"], "#", "#"),
    Project(3, "Restaurant Website", "Web Development",
      "Responsive restaurant website with online ordering",
      "https://images.unsplash.com/photo-1517248135467-4c7edcad34c4?ixlib=rb-4.0.3&auto=format&fit=crop&w=800&q=80",
      ["Vue.js", "CSS3", "JavaScript"], "#", "#"),
    Project(4, "Fitness Mobile App", "Mobile App",
      "Workout tracking app with social features",
      "https://images.unsplash.com/photo-1571019613454-1cb2f99b2d8b?ixlib=rb-4.0.3&auto=format&fit=crop&w=800&q=80",
      ["React Native", "Firebase", "Redux"], "#", "#"),
    Project(5, "Tech Startup Branding", "Branding",
      "Complete brand identity for tech startup",
      "https://images.unsplash.com/photo-1611224923853-80b023f02d71?ixlib=rb-4.0.3&auto=format&fit=crop&w=800&q=80",
      ["Brand Identity", "Logo Design", "Guidelines"], "#", "#"),
    Project(6, "Portfolio Dashboard", "UI/UX Design",
      "Admin dashboard for portfolio management",
      "https://images.unsplash.com/photo-1551288049-bebda4e38f71?ixlib=rb-4.0.3&auto=format&fit=crop&w=800&q=80",
      ["Dashboard", "Analytics", "Charts"], "#", "#")
  ]

  /** `xs` can be obtained from `ys` by deleting elements, so it keeps
      the relative order of what it retains. */
  predicate IsSubsequence<T(==)>(xs: seq<T>, ys: seq<T>)
  {
    xs == [] ||
    (ys != [] &&
     ((xs[0] == ys[0] && IsSubsequence(xs[1..], ys[1..])) || IsSubsequence(xs, ys[1..])))
  }

  /** The number of occurrences of `p` in `catalog`. */
  function Occurrences(catalog: seq<Project>, p: Project): nat
  {
    multiset(catalog)[p]
  }

  /** The catalog entries whose category is exactly `category`, in catalog
      order (a left-to-right pass of the array filter with a strict string
      comparison). */
  function FilterByCategory(catalog: seq<Project>, category: string): (r: seq<Project>)
    ensures |r| <= |catalog|
    ensures forall p :: p in r ==> p in catalog && p.category == category
  {
    if catalog == [] then []
    else if catalog[0].category == category then
      [catalog[0]] + FilterByCategory(catalog[1..], category)
    else FilterByCategory(catalog[1..], category)
  }

  /** Completeness with multiplicity: every matching entry is kept exactly as
      often as it occurs in the catalog, and nothing else is kept. */
  lemma {:induction false} FilterExactOccurrences(catalog: seq<Project>, category: string, p: Project)
    ensures Occurrences(FilterByCategory(catalog, category), p)
         == if p.category == category then Occurrences(catalog, p) else 0
  {
    if catalog != [] {
      FilterExactOccurrences(catalog[1..], category, p);
      assert catalog == [catalog[0]] + catalog[1..];
      assert multiset(catalog) == multiset{catalog[0]} + multiset(catalog[1..]);
    }
  }

  /** Completeness: a catalog entry of the selected category is visible. */
  lemma FilterComplete(catalog: seq<Project>, category: string, p: Project)
    requires p in catalog && p.category == category
    ensures p in FilterByCategory(catalog, category)
  {
    FilterExactOccurrences(catalog, category, p);
  }

  /** Order preservation: the filtered list is a subsequence of the catalog. */
  lemma {:induction false} FilterIsSubsequence(catalog: seq<Project>, category: string)
    ensures IsSubsequence(FilterByCategory(catalog, category), catalog)
  {
    if catalog != [] {
      FilterIsSubsequence(catalog[1..], category);
      var r := FilterByCategory(catalog, category);
      if catalog[0].category == category {
        assert r[1..] == FilterByCategory(catalog[1..], category);
      }
    }
  }

  /** A filter value that no catalog entry carries, "All" included, yields an
      empty list; conversely an empty list means no entry matches. */
  lemma {:induction false} FilterEmptyIffNoMatch(catalog: seq<Project>, category: string)
    ensures FilterByCategory(catalog, category) == []
        <==> forall p :: p in catalog ==> p.category != category
  {
    if catalog != [] {
      FilterEmptyIffNoMatch(catalog[1..], category);
      assert catalog == [catalog[0]] + catalog[1..];
    }
  }

  /** The list drawn under filter value `activeFilter`: the whole catalog for
      "All", otherwise the category filter. The value is not validated. */
  function VisibleProjects(catalog: seq<Project>, activeFilter: string): (r: seq<Project>)
    ensures IsSubsequence(r, catalog)
    ensures activeFilter == All ==> r == catalog
    ensures forall p :: p in r <==> p in catalog && (activeFilter == All || p.category == activeFilter)
  {
    if activeFilter == All then
      SubsequenceOfItself(catalog);
      catalog
    else
      FilterIsSubsequence(catalog, activeFilter);
      forall p | p in catalog && p.category == activeFilter
        ensures p in FilterByCategory(catalog, activeFilter)
      {
        FilterComplete(catalog, activeFilter, p);
      }
      FilterByCategory(catalog, activeFilter)
  }

  lemma {:induction false} SubsequenceOfItself<T>(s: seq<T>)
    ensures IsSubsequence(s, s)
  {
    if s != [] {
      SubsequenceOfItself(s[1..]);
    }
  }

  /** The ids of a list of projects, in order. */
  function Ids(ps: seq<Project>): (r: seq<int>)
    ensures |r| == |ps|
  {
    if ps == [] then [] else [ps[0].id] + Ids(ps[1..])
  }

  /** One step of the filter: the head is kept exactly when it matches. */
  lemma FilterCons(p: Project, rest: seq<Project>, category: string)
    ensures FilterByCategory([p] + rest, category)
         == (if p.category == category then [p] else []) + FilterByCategory(rest, category)
  {
    assert ([p] + rest)[1..] == rest;
  }

  /** On the shipped catalog, the "UI/UX Design" filter keeps the second and
      the sixth entry. */
  lemma UiUxFilter()
    ensures FilterByCategory(Projects, UiUx) == [Projects[1], Projects[5]]
  {
    var ui := UiUx;
    var p := Projects;
    CatalogCategories();
    var tail := [p[1], p[2], p[3], p[4], p[5]];
    assert p == [p[0]] + tail;
    FilterCons(p[0], tail, ui);
    UiUxFilterLastFive();
  }

  lemma UiUxFilterLastFive()
    ensures FilterByCategory([Projects[1], Projects[2], Projects[3], Projects[4], Projects[5]], UiUx)
         == [Projects[1], Projects[5]]
  {
    var ui := UiUx;
    var p := Projects;
    CatalogCategories();
    assert [p[1], p[2], p[3], p[4], p[5]] == [p[1]] + [p[2], p[3], p[4], p[5]];
    FilterCons(p[1], [p[2], p[3], p[4], p[5]], ui);
    UiUxFilterLastFour();
  }

  lemma UiUxFilterLastFour()
    ensures FilterByCategory([Projects[2], Projects[3], Projects[4], Projects[5]], UiUx) == [Projects[5]]
  {
    var ui := UiUx;
    var p := Projects;
    CatalogCategories();
    assert [p[2], p[3], p[4], p[5]] == [p[2]] + [p[3], p[4], p[5]];
    FilterCons(p[2], [p[3], p[4], p[5]], ui);
    assert [p[3], p[4], p[5]] == [p[3]] + [p[4], p[5]];
    FilterCons(p[3], [p[4], p[5]], ui);
    assert [p[4], p[5]] == [p[4]] + [p[5]];
    FilterCons(p[4], [p[5]], ui);
    assert [p[5]] == [p[5]] + [];
    FilterCons(p[5], [], ui);
  }

  /** The categories of the shipped catalog, entry by entry. */
  lemma CatalogCategories()
    ensures |Projects| == 6
    ensures Projects[0].category == "Web Development" && Projects[1].category == "UI/UX Design"
    ensures Projects[2].category == "Web Development" && Projects[3].category == "Mobile App"
    ensures Projects[4].category == "Branding" && Projects[5].category == "UI/UX Design"
  {
  }

  /** On the shipped catalog, "UI/UX Design" shows projects 2 and 6, in that order. */
  lemma UiUxShowsTwoAndSix()
    ensures Ids(VisibleProjects(Projects, UiUx)) == [2, 6]
  {
    UiUxFilter();
    var shown := [Projects[1], Projects[5]];
    assert Ids(shown) == [Projects[1].id] + Ids([Projects[5]]);
  }

  /** On the shipped catalog, every button other than "All" shows at least one project. */
  lemma EveryButtonShowsSomething(c: string)
    requires c in Categories && c != All
    ensures VisibleProjects(Projects, c) != []
  {
    var shown :=
      if c == "Web Development" then Projects[0]
      else if c == "UI/UX Design" then Projects[1]
      else if c == "Mobile App" then Projects[3]
      else Projects[4];
    assert shown in Projects && shown.category == c;
  }

  /** The shipped catalog has pairwise distinct ids. */
  lemma ProjectIdsUnique()
    ensures forall i, j :: 0 <= i < j < |Projects| ==> Projects[i].id != Projects[j].id
  {
  }

  /** The portfolio section's state: the active filter value. */
  class PortfolioSection {
    const projects: seq<Project>
    var activeFilter: string

    /** The section starts with every project shown. */
    constructor ()
      ensures projects == Projects
      ensures activeFilter == All
      ensures Visible() == Projects
    {
      projects := Projects;
      activeFilter := All;
    }

    /** The projects currently drawn. */
    function Visible(): seq<Project>
      reads this
    {
      VisibleProjects(projects, activeFilter)
    }

    /** A click on a filter button sets the filter to that button's label;
        the catalog is untouched and the label is not validated. */
    method SelectFilter(category: string)
      modifies this
      ensures activeFilter == category
      ensures Visible() == VisibleProjects(projects, category)
    {
      activeFilter := category;
    }
  }
}
