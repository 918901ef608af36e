/** The gallery component of `components/frame-gallery/frame-gallery.ts`:
    category and text filtering of the catalogue, and the category options of
    its drop-down. */
module FrameGalleryView {
  import opened Basics
  import opened FrameModel
  import FrameCatalog

  datatype CategoryOption = CategoryOption(text: string, value: string)

  /** Label of the catch-all entry ("all categories"). */
  const AllCategoriesLabel := "Tất cả danh mục"

  /** `updateCategoryOptions`: the catch-all entry, then one entry per
      category, in order. */
  function CategoryOptions(cats: seq<FrameCategory>): (r: seq<CategoryOption>)
    ensures |r| == |cats| + 1
    ensures r[0] == CategoryOption(AllCategoriesLabel, "")
    ensures forall i :: 0 <= i < |cats| ==> r[i + 1] == CategoryOption(cats[i].name, cats[i].id)
  {
    [CategoryOption(AllCategoriesLabel, "")]
      + seq(|cats|, i requires 0 <= i < |cats| => CategoryOption(cats[i].name, cats[i].id))
  }

  /** A category keeping only the frames that match the lower-cased query. */
  function NarrowFrames(c: FrameCategory, query: string): FrameCategory {
    c.(frames := Filter((f: Frame) => MatchesLowered(f, query), c.frames))
  }

  /** `c'` is `c` with possibly fewer frames, in the same order. */
  predicate Refines(c': FrameCategory, c: FrameCategory) {
    c'.id == c.id && c'.name == c.name && c'.description == c.description
    && SubseqOf(c'.frames, c.frames)
  }

  /** `r` is obtained from `cats` by dropping categories and dropping frames
      inside the categories kept, preserving both orders. */
  predicate RefinedSubseq(r: seq<FrameCategory>, cats: seq<FrameCategory>)
    decreases |cats|
  {
    if r == [] then true
    else if cats == [] then false
    else if Refines(r[0], cats[0]) then RefinedSubseq(r[1..], cats[1..])
    else RefinedSubseq(r, cats[1..])
  }

  lemma {:induction false} RefinedSubseqDropHead(x: seq<FrameCategory>, w: seq<FrameCategory>)
    requires x != [] && RefinedSubseq(x, w)
    ensures RefinedSubseq(x[1..], w)
    decreases |w|
  {
    if x[1..] != [] && w != [] {
      if Refines(x[0], w[0]) {
        if Refines(x[1..][0], w[0]) {
          RefinedSubseqDropHead(x[1..], w[1..]);
        }
      } else {
        RefinedSubseqDropHead(x, w[1..]);
        if Refines(x[1..][0], w[0]) {
          RefinedSubseqDropHead(x[1..], w[1..]);
        }
      }
    }
  }

  /** Dropping frames then dropping categories composes with dropping
      categories first. */
  lemma {:induction false} RefinedSubseqTrans(x: seq<FrameCategory>, y: seq<FrameCategory>, z: seq<FrameCategory>)
    requires RefinedSubseq(x, y) && SubseqOf(y, z)
    ensures RefinedSubseq(x, z)
    decreases |z|, |y|
  {
    if x != [] {
      assert y != [] && z != [];
      if y[0] == z[0] {
        if Refines(x[0], y[0]) {
          RefinedSubseqTrans(x[1..], y[1..], z[1..]);
        } else {
          RefinedSubseqTrans(x, y[1..], z[1..]);
        }
      } else {
        RefinedSubseqTrans(x, y, z[1..]);
        if Refines(x[0], z[0]) {
          RefinedSubseqDropHead(x, z[1..]);
        }
      }
    }
  }

  /** The text-search step of `filterFrames` on a lower-cased, trimmed query:
      each category keeps its matching frames, and categories left without
      frames are dropped. */
  function NarrowCategories(cats: seq<FrameCategory>, query: string): (r: seq<FrameCategory>)
    ensures forall c :: c in r ==> c.frames != [] && forall f :: f in c.frames ==> MatchesLowered(f, query)
    ensures RefinedSubseq(r, cats)
  {
    if cats == [] then []
    else
      var c := NarrowFrames(cats[0], query);
      var rest := NarrowCategories(cats[1..], query);
      assert Refines(c, cats[0]);
      if c.frames != [] then
        assert ([c] + rest)[1..] == rest;
        [c] + rest
      else
        if rest != [] && Refines(rest[0], cats[0]) then
          RefinedSubseqDropHead(rest, cats[1..]);
          rest
        else rest
  }

  /** A category with at least one matching frame survives the narrowing,
      holding exactly its matching frames. */
  lemma {:induction false} NarrowKeepsMatching(cats: seq<FrameCategory>, query: string, c: FrameCategory, f: Frame)
    requires c in cats && f in c.frames && MatchesLowered(f, query)
    ensures NarrowFrames(c, query) in NarrowCategories(cats, query)
  {
    assert f in NarrowFrames(c, query).frames;
    if cats[0] != c {
      NarrowKeepsMatching(cats[1..], query, c, f);
    }
  }

  /** Every category of a refined subsequence refines one of the input
      categories: it has that category's id, name and description and a
      subsequence of its frames. */
  lemma {:induction false} RefinedSubseqRefinesSome(r: seq<FrameCategory>, cats: seq<FrameCategory>)
    requires RefinedSubseq(r, cats)
    ensures forall c :: c in r ==> exists d :: d in cats && Refines(c, d)
    decreases |cats|
  {
    if r != [] {
      if Refines(r[0], cats[0]) {
        RefinedSubseqRefinesSome(r[1..], cats[1..]);
        forall c | c in r
          ensures exists d :: d in cats && Refines(c, d)
        {
          if c == r[0] {
            assert cats[0] in cats;
          } else {
            assert c in r[1..];
            var d :| d in cats[1..] && Refines(c, d);
            assert d in cats;
          }
        }
      } else {
        RefinedSubseqRefinesSome(r, cats[1..]);
        forall c | c in r
          ensures exists d :: d in cats && Refines(c, d)
        {
          var d :| d in cats[1..] && Refines(c, d);
          assert d in cats;
        }
      }
    }
  }

  /** When every input category has the same id, so does every category of
      a refined subsequence of them. */
  lemma {:induction false} RefinedSubseqKeepsIds(r: seq<FrameCategory>, cats: seq<FrameCategory>, id: string)
    requires RefinedSubseq(r, cats)
    requires forall c :: c in cats ==> c.id == id
    ensures forall c :: c in r ==> c.id == id
    decreases |cats|
  {
    if r != [] {
      assert cats[0] in cats;
      if Refines(r[0], cats[0]) {
        RefinedSubseqKeepsIds(r[1..], cats[1..], id);
        assert forall c :: c in r ==> c == r[0] || c in r[1..];
      } else {
        RefinedSubseqKeepsIds(r, cats[1..], id);
      }
    }
  }

  /** The categories whose id is the selected one. */
  function InCategory(cats: seq<FrameCategory>, selectedCategory: string): seq<FrameCategory> {
    Filter((c: FrameCategory) => c.id == selectedCategory, cats)
  }

  /** `filterFrames`: keep the selected category (when one is selected), then,
      when the query is not blank, narrow by the lower-cased, trimmed query. */
  function FilteredCategories(cats: seq<FrameCategory>, selectedCategory: string, searchQuery: string): seq<FrameCategory> {
    var byCategory :=
      if selectedCategory != "" then InCategory(cats, selectedCategory) else cats;
    if Trim(searchQuery) != "" then NarrowCategories(byCategory, Trim(Lower(searchQuery)))
    else byCategory
  }

  predicate Blank(s: string) {
    forall i :: 0 <= i < |s| ==> IsSpace(s[i])
  }

  /** No category selected and a blank query: the whole list, unchanged. */
  lemma NoCriteriaKeepsAll(cats: seq<FrameCategory>, searchQuery: string)
    requires Blank(searchQuery)
    ensures FilteredCategories(cats, "", searchQuery) == cats
  {
    TrimEmptyIffBlank(searchQuery);
  }

  /** A selected category keeps only categories with that id. */
  lemma SelectedCategoryOnly(cats: seq<FrameCategory>, selectedCategory: string, searchQuery: string)
    requires selectedCategory != ""
    ensures forall c :: c in FilteredCategories(cats, selectedCategory, searchQuery) ==> c.id == selectedCategory
  {
    var byCategory := InCategory(cats, selectedCategory);
    if Trim(searchQuery) != "" {
      RefinedSubseqKeepsIds(NarrowCategories(byCategory, Trim(Lower(searchQuery))), byCategory, selectedCategory);
    }
  }

  /** A non-blank query keeps only matching frames and never an empty
      category; a category whose frames match is kept, with exactly its
      matching frames. */
  lemma QueryNarrows(cats: seq<FrameCategory>, selectedCategory: string, searchQuery: string)
    requires !Blank(searchQuery)
    ensures forall c :: c in FilteredCategories(cats, selectedCategory, searchQuery) ==>
              c.frames != [] && forall f :: f in c.frames ==> MatchesLowered(f, Trim(Lower(searchQuery)))
    ensures forall c :: c in cats && (selectedCategory == "" || c.id == selectedCategory)
              && (exists f :: f in c.frames && MatchesLowered(f, Trim(Lower(searchQuery))))
              ==> NarrowFrames(c, Trim(Lower(searchQuery))) in FilteredCategories(cats, selectedCategory, searchQuery)
  {
    TrimEmptyIffBlank(searchQuery);
    var q := Trim(Lower(searchQuery));
    var byCategory :=
      if selectedCategory != "" then InCategory(cats, selectedCategory) else cats;
    forall c, f | c in cats && (selectedCategory == "" || c.id == selectedCategory)
                  && f in c.frames && MatchesLowered(f, q)
      ensures NarrowFrames(c, q) in FilteredCategories(cats, selectedCategory, searchQuery)
    {
      NarrowKeepsMatching(byCategory, q, c, f);
    }
  }

  /** The result keeps the category order, and each kept category's frames
      are an order-preserving sub-sequence of its original frames. */
  lemma FilterPreservesOrder(cats: seq<FrameCategory>, selectedCategory: string, searchQuery: string)
    ensures RefinedSubseq(FilteredCategories(cats, selectedCategory, searchQuery), cats)
  {
    var byCategory :=
      if selectedCategory != "" then InCategory(cats, selectedCategory) else cats;
    assert SubseqOf(byCategory, cats) by {
      if selectedCategory == "" { SubseqRefl(cats); }
    }
    if Trim(searchQuery) != "" {
      RefinedSubseqTrans(NarrowCategories(byCategory, Trim(Lower(searchQuery))), byCategory, cats);
    } else {
      RefinedSubseqRefl(byCategory);
      RefinedSubseqTrans(byCategory, byCategory, cats);
    }
  }

  lemma {:induction false} RefinedSubseqRefl(s: seq<FrameCategory>)
    ensures RefinedSubseq(s, s)
  {
    if s != [] {
      SubseqRefl(s[0].frames);
      RefinedSubseqRefl(s[1..]);
    }
  }

  /** For a query without surrounding white space, the gallery keeps in each
      category exactly the frames the catalogue's `searchFrames` returns for
      that category's frames. */
  lemma GalleryAgreesWithSearch(c: FrameCategory, searchQuery: string)
    requires Trim(searchQuery) == searchQuery
    ensures NarrowFrames(c, Trim(Lower(searchQuery))).frames == FrameCatalog.SearchFrames(c.frames, searchQuery)
  {
    TrimLowerCommute(searchQuery);
  }

  /** The gallery component's fields. The template's two-way bindings write
      `searchQuery` and `selectedCategory` directly. */
  class FrameGallery {
    var searchQuery: string
    var selectedCategory: string
    var categories: seq<FrameCategory>
    var filteredCategories: seq<FrameCategory>
    var popularFrames: seq<Frame>
    var categoryOptions: seq<CategoryOption>

    constructor ()
      ensures searchQuery == "" && selectedCategory == ""
      ensures categories == [] && filteredCategories == [] && popularFrames == [] && categoryOptions == []
    {
      searchQuery, selectedCategory := "", "";
      categories, filteredCategories, popularFrames, categoryOptions := [], [], [], [];
    }

    /** The `categories$` subscription of `loadFrames`. */
    method OnCategoriesLoaded(cats: seq<FrameCategory>)
      modifies this
      ensures categories == cats && filteredCategories == cats
      ensures categoryOptions == CategoryOptions(cats)
      ensures searchQuery == old(searchQuery) && selectedCategory == old(selectedCategory)
      ensures popularFrames == old(popularFrames)
    {
      categories := cats;
      filteredCategories := cats;
      UpdateCategoryOptions();
    }

    /** The `frames$` subscription of `loadFrames`. */
    method OnFramesLoaded(frames: seq<Frame>)
      modifies this`popularFrames
      ensures popularFrames == FrameCatalog.GetPopularFrames(frames)
    {
      popularFrames := FrameCatalog.GetPopularFrames(frames);
    }

    method UpdateCategoryOptions()
      modifies this`categoryOptions
      ensures categoryOptions == CategoryOptions(categories)
    {
      categoryOptions := CategoryOptions(categories);
    }

    /** `filterFrames`, run by `onSearch` and `onCategoryChange`. */
    method FilterFrames()
      modifies this`filteredCategories
      ensures filteredCategories == FilteredCategories(categories, selectedCategory, searchQuery)
    {
      var filtered := categories;
      var selected := selectedCategory;
      if selected != "" {
        filtered := InCategory(filtered, selected);
      }
      if Trim(searchQuery) != "" {
        var query := Trim(Lower(searchQuery));
        filtered := NarrowCategories(filtered, query);
      }
      filteredCategories := filtered;
    }

    /** `clearFilters`: the same list `filterFrames` gives with no criteria. */
    method ClearFilters()
      modifies this`searchQuery, this`selectedCategory, this`filteredCategories
      ensures searchQuery == "" && selectedCategory == ""
      ensures filteredCategories == categories
      ensures filteredCategories == FilteredCategories(categories, selectedCategory, searchQuery)
    {
      searchQuery := "";
      selectedCategory := "";
      filteredCategories := categories;
      assert TrimStart("") == "" && Trim("") == "";
    }
  }
}
