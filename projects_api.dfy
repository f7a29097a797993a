/** `fetchProjects` of `src/lib/api/projects.ts`: the projects query joined
    with the images query into before/after galleries. Both query results
    are parameters. */
module ProjectsApi {
  import opened Wrappers

  /** `'before' | 'after'` */
  datatype ImageLabel = BeforeImage | AfterImage

  /** A row of `projects`; a `null` description is `None`. */
  datatype ProjectRow = ProjectRow(id: string, title: string, category: string, description: Option<string>)

  /** A row of `project_images`. */
  datatype ImageRow = ImageRow(projectId: string, url: string, kind: ImageLabel, sortOrder: int)

  /** `Project` of `src/lib/types.ts`. */
  datatype Project = Project(id: string, category: string, title: string,
                             before: seq<string>, after: seq<string>, description: string)

  /** `images.filter((i) => i.project_id === id && i.label === side)` */
  function Select(images: seq<ImageRow>, id: string, side: ImageLabel): (r: seq<ImageRow>)
    ensures |r| <= |images|
    ensures forall x :: x in r ==> x in images && x.projectId == id && x.kind == side
    ensures forall x :: x in images && x.projectId == id && x.kind == side ==> x in r
  {
    if images == [] then []
    else (if images[0].projectId == id && images[0].kind == side then [images[0]] else [])
         + Select(images[1..], id, side)
  }

  /** Each selected image occurs as many times as in the list. */
  lemma {:induction false} SelectCounts(images: seq<ImageRow>, id: string, side: ImageLabel, x: ImageRow)
    ensures multiset(Select(images, id, side))[x]
         == if x.projectId == id && x.kind == side then multiset(images)[x] else 0
  {
    if images != [] {
      SelectCounts(images[1..], id, side, x);
      var head := if images[0].projectId == id && images[0].kind == side then [images[0]] else [];
      assert Select(images, id, side) == head + Select(images[1..], id, side);
      assert images == [images[0]] + images[1..];
      assert multiset(images) == multiset{images[0]} + multiset(images[1..]);
    }
  }

  /** The filter keeps the images' order: selecting from two lists one
      after the other is selecting from their concatenation. */
  lemma {:induction false} SelectConcat(a: seq<ImageRow>, b: seq<ImageRow>, id: string, side: ImageLabel)
    ensures Select(a + b, id, side) == Select(a, id, side) + Select(b, id, side)
  {
    if a == [] {
      assert a + b == b;
    } else {
      assert (a + b)[1..] == a[1..] + b;
      SelectConcat(a[1..], b, id, side);
    }
  }

  /** Ascending by `sort_order`. */
  ghost predicate SortedByOrder(s: seq<ImageRow>) {
    forall i, j :: 0 <= i < j < |s| ==> s[i].sortOrder <= s[j].sortOrder
  }

  /** The rows of `s` whose `sort_order` is `k`, in order. */
  function WithOrder(s: seq<ImageRow>, k: int): seq<ImageRow> {
    if s == [] then [] else (if s[0].sortOrder == k then [s[0]] else []) + WithOrder(s[1..], k)
  }

  /** Put `x` into `s` just before the first row that does not sort below
      it. */
  function Insert(x: ImageRow, s: seq<ImageRow>): (r: seq<ImageRow>)
    ensures multiset(r) == multiset{x} + multiset(s)
  {
    if s == [] || x.sortOrder <= s[0].sortOrder then [x] + s
    else
      assert s == [s[0]] + s[1..];
      [s[0]] + Insert(x, s[1..])
  }

  /** Inserting into a sorted list keeps it sorted. */
  lemma {:induction false} InsertSorted(x: ImageRow, s: seq<ImageRow>)
    requires SortedByOrder(s)
    ensures SortedByOrder(Insert(x, s))
  {
    if s != [] && x.sortOrder > s[0].sortOrder {
      InsertSorted(x, s[1..]);
      InsertLowerBound(x, s[1..], s[0].sortOrder);
      SortedCons(s[0], Insert(x, s[1..]));
    }
  }

  /** A bound below `x` and every row of `s` stays below every row after
      the insert. */
  lemma {:induction false} InsertLowerBound(x: ImageRow, s: seq<ImageRow>, b: int)
    requires b <= x.sortOrder
    requires forall i :: 0 <= i < |s| ==> b <= s[i].sortOrder
    ensures forall j :: 0 <= j < |Insert(x, s)| ==> b <= Insert(x, s)[j].sortOrder
  {
    if s != [] && x.sortOrder > s[0].sortOrder {
      InsertLowerBound(x, s[1..], b);
    }
  }

  lemma SortedCons(h: ImageRow, t: seq<ImageRow>)
    requires SortedByOrder(t)
    requires forall j :: 0 <= j < |t| ==> h.sortOrder <= t[j].sortOrder
    ensures SortedByOrder([h] + t)
  {
  }

  /** `rows.sort((a, b) => a.sort_order - b.sort_order)`: ascending, and
      stable (rows with the same `sort_order` keep their order). */
  function SortByOrder(s: seq<ImageRow>): (r: seq<ImageRow>)
    ensures SortedByOrder(r)
    ensures multiset(r) == multiset(s)
  {
    if s == [] then []
    else
      assert s == [s[0]] + s[1..];
      InsertSorted(s[0], SortByOrder(s[1..]));
      Insert(s[0], SortByOrder(s[1..]))
  }

  /** Inserting `x` adds it in front of the rows with its own key and
      leaves the order of every key's rows alone. */
  lemma {:induction false} InsertKeepsKeyOrder(x: ImageRow, s: seq<ImageRow>, k: int)
    ensures WithOrder(Insert(x, s), k) == (if x.sortOrder == k then [x] else []) + WithOrder(s, k)
  {
    if s == [] || x.sortOrder <= s[0].sortOrder {
      assert ([x] + s)[1..] == s;
    } else {
      var t := Insert(x, s[1..]);
      InsertKeepsKeyOrder(x, s[1..], k);
      assert ([s[0]] + t)[1..] == t;
    }
  }

  /** The sort is stable: for every `sort_order` value, the rows carrying
      it come out in the order they went in. */
  lemma {:induction false} SortIsStable(s: seq<ImageRow>, k: int)
    ensures WithOrder(SortByOrder(s), k) == WithOrder(s, k)
  {
    if s != [] {
      SortIsStable(s[1..], k);
      InsertKeepsKeyOrder(s[0], SortByOrder(s[1..]), k);
    }
  }

  /** `.map((i) => i.url)` */
  function Urls(s: seq<ImageRow>): (r: seq<string>)
    ensures |r| == |s| && forall i :: 0 <= i < |s| ==> r[i] == s[i].url
  {
    if s == [] then [] else [s[0].url] + Urls(s[1..])
  }

  /** One gallery of one project. */
  function Gallery(images: seq<ImageRow>, id: string, side: ImageLabel): seq<string> {
    Urls(SortByOrder(Select(images, id, side)))
  }

  /** A gallery lists exactly the urls of the project's images with that
      label, ascending by `sort_order`, ties in the order the query gave. */
  lemma GalleryIsSortedSelection(images: seq<ImageRow>, id: string, side: ImageLabel)
    ensures var s := SortByOrder(Select(images, id, side));
      && Gallery(images, id, side) == Urls(s)
      && SortedByOrder(s)
      && multiset(s) == multiset(Select(images, id, side))
      && (forall k :: WithOrder(s, k) == WithOrder(Select(images, id, side), k))
  {
    forall k ensures WithOrder(SortByOrder(Select(images, id, side)), k) == WithOrder(Select(images, id, side), k) {
      SortIsStable(Select(images, id, side), k);
    }
  }

  /** Every url in a gallery belongs to an image of that project with that
      side. */
  lemma GalleryHasNoForeignUrls(images: seq<ImageRow>, id: string, side: ImageLabel, u: string)
    requires u in Gallery(images, id, side)
    ensures exists x :: x in images && x.projectId == id && x.kind == side && x.url == u
  {
    var s := SortByOrder(Select(images, id, side));
    var i :| 0 <= i < |s| && Urls(s)[i] == u;
    assert s[i] in multiset(s);
    assert s[i] in Select(images, id, side);
  }

  /** One project with its two galleries; a `null` description is `''`. */
  function ToProject(p: ProjectRow, images: seq<ImageRow>): (r: Project)
    ensures r.id == p.id && r.title == p.title && r.category == p.category
    ensures r.description == p.description.GetOr("")
    ensures r.before == Gallery(images, p.id, BeforeImage) && r.after == Gallery(images, p.id, AfterImage)
  {
    Project(p.id, p.category, p.title, Gallery(images, p.id, BeforeImage), Gallery(images, p.id, AfterImage),
            p.description.GetOr(""))
  }

  /** What `fetchProjects` returns, and whether it asked for the images. */
  datatype FetchProjectsResult = FetchProjectsResult(projects: seq<Project>, imagesQueried: bool)

  /** `fetchProjects`: no projects means no images query and `[]`;
      otherwise one project per row, in row order, with a `null` images
      result taken as no images. */
  function FetchProjects(rows: Option<seq<ProjectRow>>, images: Option<seq<ImageRow>>): (r: FetchProjectsResult)
    ensures r.imagesQueried <==> rows.Some? && rows.value != []
    ensures !r.imagesQueried ==> r.projects == []
    ensures r.imagesQueried ==> |r.projects| == |rows.value|
    ensures r.imagesQueried ==> forall i :: 0 <= i < |r.projects| ==>
      r.projects[i] == ToProject(rows.value[i], images.GetOr([]))
  {
    if rows.None? || rows.value == [] then FetchProjectsResult([], false)
    else
      var imgs := images.GetOr([]);
      FetchProjectsResult(seq(|rows.value|, i requires 0 <= i < |rows.value| => ToProject(rows.value[i], imgs)), true)
  }

  /** Without images (a `null` result or none for the project) both
      galleries are empty lists. */
  lemma NoImagesGiveEmptyGalleries(p: ProjectRow, images: seq<ImageRow>)
    requires forall x :: x in images ==> x.projectId != p.id
    ensures ToProject(p, images).before == [] && ToProject(p, images).after == []
  {
    if Select(images, p.id, BeforeImage) != [] {
      assert Select(images, p.id, BeforeImage)[0] in Select(images, p.id, BeforeImage);
    }
    if Select(images, p.id, AfterImage) != [] {
      assert Select(images, p.id, AfterImage)[0] in Select(images, p.id, AfterImage);
    }
  }

  /** A `null` images result leaves every project with empty galleries. */
  lemma NullImagesGiveEmptyGalleries(rows: seq<ProjectRow>)
    requires rows != []
    ensures var r := FetchProjects(Some(rows), None);
      forall i :: 0 <= i < |r.projects| ==> r.projects[i].before == [] && r.projects[i].after == []
  {
    forall i | 0 <= i < |rows| {
      NoImagesGiveEmptyGalleries(rows[i], []);
    }
  }
}
