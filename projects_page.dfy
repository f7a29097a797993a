/** The before/after gallery of `src/components/Projects.tsx` and its older
    copy `src/components/Projects.js`, which have the same catalog, the
    same category buttons, the same filter and the same lightbox; one model
    serves both. */
module ProjectsPage {
  import opened Wrappers
  import opened Text

  /** A catalog entry: one before and one after image. */
  datatype CatalogProject = CatalogProject(id: int, category: string, title: string,
                                           before: string, after: string, description: string)

  /** The eight projects of the gallery, in display order. */
  const CATALOG: seq<CatalogProject> := [
    CatalogProject(1, "basement", "Modern Basement Entertainment Room",
                   "https://images.unsplash.com/photo-1581858726788-75bc0f6a952d?w=800&h=600&fit=crop",
                   "https://images.unsplash.com/photo-1600210492486-724fe5c67fb0?w=800&h=600&fit=crop",
                   "Transformed an unused basement into a modern entertainment space with custom lighting and built-in shelving."),
    CatalogProject(2, "kitchen", "Contemporary Kitchen Renovation",
                   "https://images.unsplash.com/photo-1556912172-45b7abe8b7e1?w=800&h=600&fit=crop",
                   "https://images.unsplash.com/photo-1556912167-f556f1f39faa?w=800&h=600&fit=crop",
                   "Complete kitchen overhaul with new cabinets, quartz countertops, and modern appliances."),
    CatalogProject(3, "bathroom", "Luxury Spa Bathroom",
                   "https://images.unsplash.com/photo-1552321554-5fefe8c9ef14?w=800&h=600&fit=crop",
                   "https://images.unsplash.com/photo-1600566753086-00f18fb6b3ea?w=800&h=600&fit=crop",
                   "Converted outdated bathroom into a luxurious spa retreat with walk-in shower and custom vanity."),
    CatalogProject(4, "living-room", "Open Concept Living Room",
                   "https://images.unsplash.com/photo-1556020685-ae41abfc9365?w=800&h=600&fit=crop",
                   "https://images.unsplash.com/photo-1600210492493-0946911123ea?w=800&h=600&fit=crop",
                   "Opened up the living space by removing walls and adding modern hardwood flooring."),
    CatalogProject(5, "kitchen", "Farmhouse Kitchen Remodel",
                   "https://images.unsplash.com/photo-1556911220-bff31c812dba?w=800&h=600&fit=crop",
                   "https://images.unsplash.com/photo-1556909114-f6e7ad7d3136?w=800&h=600&fit=crop",
                   "Classic farmhouse kitchen with shaker cabinets, butcher block island, and subway tile backsplash."),
    CatalogProject(6, "basement", "Basement Home Office",
                   "https://images.unsplash.com/photo-1581858726788-75bc0f6a952d?w=800&h=600&fit=crop",
                   "https://images.unsplash.com/photo-1600607687920-4e2a09cf159d?w=800&h=600&fit=crop",
                   "Created a productive home office space with custom built-ins and professional lighting."),
    CatalogProject(7, "bathroom", "Master Bathroom Suite",
                   "https://images.unsplash.com/photo-1584622650111-993a426fbf0a?w=800&h=600&fit=crop",
                   "https://images.unsplash.com/photo-1600566753151-384129cf4e3e?w=800&h=600&fit=crop",
                   "Luxurious master bathroom with dual vanities, soaking tub, and marble tile."),
    CatalogProject(8, "living-room", "Modern Living Space",
                   "https://images.unsplash.com/photo-1556020685-ae41abfc9365?w=800&h=600&fit=crop",
                   "https://images.unsplash.com/photo-1600210491892-03d54c0aaf87?w=800&h=600&fit=crop",
                   "Contemporary living room with statement fireplace and custom entertainment center.")
  ]

  /** A category button: its `id` and the text it shows. */
  datatype CategoryButton = CategoryButton(id: string, text: string)

  /** The buttons, in display order. */
  const CATEGORIES: seq<CategoryButton> := [
    CategoryButton("all", "All Projects"),
    CategoryButton("basement", "Basement"),
    CategoryButton("bathroom", "Bathroom"),
    CategoryButton("kitchen", "Kitchen"),
    CategoryButton("living-room", "Living Room")
  ]

  /** The category a button selects. */
  function ButtonIds(bs: seq<CategoryButton>): (ids: seq<string>)
    ensures |ids| == |bs|
    ensures forall i :: 0 <= i < |bs| ==> ids[i] == bs[i].id
  {
    if bs == [] then [] else [bs[0].id] + ButtonIds(bs[1..])
  }

  /** The buttons select `all` and the four categories, and every catalog
      project is reachable through a category button. */
  lemma ButtonsCoverCatalog()
    ensures ButtonIds(CATEGORIES) == ["all", "basement", "bathroom", "kitchen", "living-room"]
    ensures forall p :: p in CATALOG ==> p.category in ButtonIds(CATEGORIES)[1..]
  {
    var ids := ButtonIds(CATEGORIES);
    assert ids == ["all", "basement", "bathroom", "kitchen", "living-room"];
    forall p | p in CATALOG ensures p.category in ids[1..] {
      assert p.category in ["basement", "bathroom", "kitchen", "living-room"];
    }
  }

  /** `projects.filter((p) => p.category === category)` */
  function ByCategory(ps: seq<CatalogProject>, category: string): (r: seq<CatalogProject>)
    ensures |r| <= |ps|
    ensures forall p :: p in r <==> p in ps && p.category == category
  {
    if ps == [] then []
    else (if ps[0].category == category then [ps[0]] else []) + ByCategory(ps[1..], category)
  }

  /** The filter keeps the catalog order: filtering a concatenation filters
      each part in place. */
  lemma {:induction false} ByCategoryConcat(a: seq<CatalogProject>, b: seq<CatalogProject>, category: string)
    ensures ByCategory(a + b, category) == ByCategory(a, category) + ByCategory(b, category)
  {
    if a != [] {
      ConsConcat(a, b);
      ByCategoryConcat(a[1..], b, category);
      var head := if a[0].category == category then [a[0]] else [];
      AppendAssoc(head, ByCategory(a[1..], category), ByCategory(b, category));
    } else {
      assert a + b == b;
    }
  }

  /** `r` is `s` with some entries dropped and the rest kept in order. */
  ghost predicate IsSubsequence<T>(r: seq<T>, s: seq<T>)
    decreases |s|
  {
    if s == [] then r == []
    else (r != [] && r[0] == s[0] && IsSubsequence(r[1..], s[1..])) || IsSubsequence(r, s[1..])
  }

  lemma {:induction false} ByCategoryIsSubsequence(ps: seq<CatalogProject>, category: string)
    ensures IsSubsequence(ByCategory(ps, category), ps)
  {
    if ps != [] {
      ByCategoryIsSubsequence(ps[1..], category);
      var r := ByCategory(ps, category);
      if ps[0].category == category {
        assert r[0] == ps[0] && r[1..] == ByCategory(ps[1..], category);
      } else {
        assert r == ByCategory(ps[1..], category);
      }
    }
  }

  /** `filteredProjects` for the `activeCategory` button id. */
  function Shown(ps: seq<CatalogProject>, active: string): (r: seq<CatalogProject>)
    ensures active == "all" ==> r == ps
    ensures active != "all" ==> r == ByCategory(ps, active)
  {
    if active == "all" then ps else ByCategory(ps, active)
  }

  /** Distinct categories show disjoint sets of projects, and with the
      buttons' four categories together they show the whole catalog. */
  lemma CategoriesPartitionCatalog(c1: string, c2: string, p: CatalogProject)
    requires c1 != c2 && c1 != "all" && c2 != "all"
    ensures !(p in Shown(CATALOG, c1) && p in Shown(CATALOG, c2))
    ensures p in CATALOG ==> exists i :: 1 <= i < |CATEGORIES| && p in Shown(CATALOG, CATEGORIES[i].id)
  {
    ShownDisjoint(CATALOG, c1, c2, p);
    if p in CATALOG {
      ButtonsCoverCatalog();
      CoveredByButton(CATALOG, p);
    }
  }

  lemma ShownDisjoint(ps: seq<CatalogProject>, c1: string, c2: string, p: CatalogProject)
    requires c1 != c2 && c1 != "all" && c2 != "all"
    ensures !(p in Shown(ps, c1) && p in Shown(ps, c2))
  {
  }

  lemma CoveredByButton(ps: seq<CatalogProject>, p: CatalogProject)
    requires p in ps && p.category in ButtonIds(CATEGORIES)[1..]
    ensures exists i :: 1 <= i < |CATEGORIES| && p in Shown(ps, CATEGORIES[i].id)
  {
    var ids := ButtonIds(CATEGORIES);
    var k :| 0 <= k < |ids[1..]| && ids[1..][k] == p.category;
    assert CATEGORIES[k + 1].id == p.category;
    assert p in Shown(ps, CATEGORIES[k + 1].id);
  }

  /** `category.replace('-', ' ')`: only the first `-` becomes a space. */
  function CategoryLabel(category: string): (r: string)
    ensures |r| == |category|
    ensures '-' !in category ==> r == category
  {
    ReplaceFirst(category, '-', ' ')
  }

  /** The part after the first `-` is kept as it is, further dashes
      included. */
  lemma LabelReplacesFirstDashOnly(a: string, b: string)
    requires '-' !in a
    ensures CategoryLabel(a + "-" + b) == a + " " + b
  {
    var s := a + "-" + b;
    assert s[|a|] == '-' && s[..|a|] == a;
    IndexOfFirst(s, '-', |a|);
    assert s[|a| + 1..] == b;
  }

  /** The component's state: the active button and the open lightbox. */
  datatype GalleryState = GalleryState(activeCategory: string, selected: Option<CatalogProject>)

  const GALLERY_INITIAL: GalleryState := GalleryState("all", None)

  class ProjectsView {
    var activeCategory: string
    var selected: Option<CatalogProject>

    function State(): GalleryState
      reads this
    {
      GalleryState(activeCategory, selected)
    }

    /** The cards on screen. */
    function Cards(): (r: seq<CatalogProject>)
      reads this
      ensures forall p :: p in r ==> p in CATALOG
      ensures activeCategory == "all" ==> r == CATALOG
    {
      Shown(CATALOG, activeCategory)
    }

    constructor ()
      ensures State() == GALLERY_INITIAL
    {
      activeCategory := "all";
      selected := None;
    }

    /** A category button; the open lightbox is left alone. */
    method SetCategory(id: string)
      modifies this
      ensures State() == old(State()).(activeCategory := id)
    {
      activeCategory := id;
    }

    /** A click on a card opens the lightbox on that project. */
    method SelectProject(p: CatalogProject)
      modifies this
      ensures State() == old(State()).(selected := Some(p))
    {
      selected := Some(p);
    }

    /** The close button. */
    method Close()
      modifies this
      ensures State() == old(State()).(selected := None)
    {
      selected := None;
    }
  }
}
