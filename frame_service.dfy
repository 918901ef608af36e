/** The frame catalogue of `services/frame.service.ts`: the sample frames, their
    grouping into categories, and the four queries over the frame list. */
module FrameCatalog {
  import opened Basics
  import opened FrameModel

  /** The position of the first frame carrying `id`, or -1 when none does. */
  function IndexOfId(frames: seq<Frame>, id: string): (k: int)
    ensures -1 <= k < |frames|
    ensures k == -1 <==> forall j :: 0 <= j < |frames| ==> frames[j].id != id
    ensures k >= 0 ==> frames[k].id == id && forall j :: 0 <= j < k ==> frames[j].id != id
  {
    if frames == [] then -1
    else if frames[0].id == id then 0
    else
      var k := IndexOfId(frames[1..], id);
      if k == -1 then -1 else k + 1
  }

  /** `getFrameById`: the first frame carrying `id`, or none. */
  function GetFrameById(frames: seq<Frame>, id: string): (r: Option<Frame>)
    ensures r.None? <==> forall f :: f in frames ==> f.id != id
    ensures r.Some? ==> exists k :: 0 <= k < |frames| && frames[k] == r.value && r.value.id == id
                                    && forall j :: 0 <= j < k ==> frames[j].id != id
  {
    var k := IndexOfId(frames, id);
    if k == -1 then None else Some(frames[k])
  }

  /** `getFramesByCategory`: exactly the frames of that category, in order. */
  function GetFramesByCategory(frames: seq<Frame>, categoryId: string): (r: seq<Frame>)
    ensures forall f :: f in r <==> f in frames && f.category == categoryId
    ensures forall f :: multiset(r)[f] == if f.category == categoryId then multiset(frames)[f] else 0
    ensures SubseqOf(r, frames)
  {
    Filter((f: Frame) => f.category == categoryId, frames)
  }

  /** `getPopularFrames`: an absent `isPopular` counts as not popular. */
  function GetPopularFrames(frames: seq<Frame>): (r: seq<Frame>)
    ensures forall f :: f in r <==> f in frames && f.isPopular == Some(true)
    ensures forall f :: multiset(r)[f] == if f.isPopular == Some(true) then multiset(frames)[f] else 0
    ensures SubseqOf(r, frames)
  {
    Filter((f: Frame) => f.isPopular == Some(true), frames)
  }

  /** `searchFrames`: case-insensitive substring search over name, description
      and tags. The query is lower-cased but not trimmed. */
  function SearchFrames(frames: seq<Frame>, query: string): (r: seq<Frame>)
    ensures forall f :: f in r <==> f in frames && MatchesLowered(f, Lower(query))
    ensures forall f :: multiset(r)[f] == if MatchesLowered(f, Lower(query)) then multiset(frames)[f] else 0
    ensures SubseqOf(r, frames)
  {
    Filter((f: Frame) => MatchesLowered(f, Lower(query)), frames)
  }

  /** Searching for the empty string returns the whole list, in order. */
  lemma SearchEmptyReturnsAll(frames: seq<Frame>)
    ensures SearchFrames(frames, "") == frames
  {
    assert Lower("") == "";
    forall f | f in frames ensures MatchesLowered(f, Lower("")) {
      MatchesEmpty(f);
    }
    FilterAll(f => MatchesLowered(f, Lower("")), frames);
  }

  /** A search result never depends on the case of the query's letters. */
  lemma SearchIgnoresQueryCase(frames: seq<Frame>, q1: string, q2: string)
    requires Lower(q1) == Lower(q2)
    ensures SearchFrames(frames, q1) == SearchFrames(frames, q2)
  {
  }

  /** The fixed part of a category in `initializeFrames`. */
  datatype CategoryDef = CategoryDef(id: string, name: string, description: string)

  /** The grouping step of `initializeFrames`: each category receives the
      frames whose `category` is its id, in their order and with their
      multiplicity. */
  function GroupByCategory(frames: seq<Frame>, defs: seq<CategoryDef>): (r: seq<FrameCategory>)
    ensures |r| == |defs|
    ensures forall i :: 0 <= i < |r| ==>
              r[i].id == defs[i].id && r[i].name == defs[i].name && r[i].description == Some(defs[i].description)
    ensures forall i, f :: 0 <= i < |r| ==> (f in r[i].frames <==> f in frames && f.category == defs[i].id)
    ensures forall i, f :: 0 <= i < |r| ==>
              multiset(r[i].frames)[f] == if f.category == defs[i].id then multiset(frames)[f] else 0
    ensures forall i :: 0 <= i < |r| ==> SubseqOf(r[i].frames, frames)
    ensures forall i :: 0 <= i < |r| ==> r[i].frames == GetFramesByCategory(frames, defs[i].id)
  {
    seq(|defs|, i requires 0 <= i < |defs| =>
      FrameCategory(defs[i].id, defs[i].name, Some(defs[i].description), GetFramesByCategory(frames, defs[i].id)))
  }

  predicate DistinctIds(defs: seq<CategoryDef>) {
    forall i, j :: 0 <= i < j < |defs| ==> defs[i].id != defs[j].id
  }

  predicate AllCategorised(frames: seq<Frame>, defs: seq<CategoryDef>) {
    forall f :: f in frames ==> exists i :: 0 <= i < |defs| && defs[i].id == f.category
  }

  /** With distinct category ids that cover every frame, the grouping is a
      partition: each frame lies in exactly one category. */
  lemma GroupingPartitions(frames: seq<Frame>, defs: seq<CategoryDef>, f: Frame)
    requires DistinctIds(defs) && AllCategorised(frames, defs)
    requires f in frames
    ensures exists i :: 0 <= i < |defs| && f in GroupByCategory(frames, defs)[i].frames
    ensures forall i, j :: 0 <= i < |defs| && 0 <= j < |defs|
              && f in GroupByCategory(frames, defs)[i].frames && f in GroupByCategory(frames, defs)[j].frames
              ==> i == j
  {
    var r := GroupByCategory(frames, defs);
    var i :| 0 <= i < |defs| && defs[i].id == f.category;
    assert f in r[i].frames;
    forall i, j | 0 <= i < |defs| && 0 <= j < |defs| && f in r[i].frames && f in r[j].frames
      ensures i == j
    {
      assert defs[i].id == f.category == defs[j].id;
    }
  }

  const QuocKhanhId := "quoc-khanh"
  const TetId := "tet"
  const SinhNhatId := "sinh-nhat"

  function SampleFrames(): seq<Frame> {
    [ Frame("frame-1", "Khung Quốc Khánh", QuocKhanhId,
            "/assets/frames/frame1.svg", "/assets/frames/frame1.svg", 800, 800,
            Some("Khung ảnh chào mừng Quốc Khánh 2/9"),
            Some(["quốc khánh", "lễ hội", "việt nam"]), Some(true)),
      Frame("frame-2", "Khung Tết Nguyên Đán", TetId,
            "/assets/frames/frame2.svg", "/assets/frames/frame2.svg", 800, 800,
            Some("Khung ảnh chúc mừng năm mới"),
            Some(["tết", "năm mới", "truyền thống"]), Some(true)),
      Frame("frame-3", "Khung Sinh Nhật", SinhNhatId,
            "/assets/frames/frame3.svg", "/assets/frames/frame3.svg", 800, 800,
            Some("Khung ảnh chúc mừng sinh nhật"),
            Some(["sinh nhật", "tiệc tụng", "vui vẻ"]), None) ]
  }

  function SampleCategoryDefs(): seq<CategoryDef> {
    [ CategoryDef(QuocKhanhId, "Quốc Khánh", "Khung ảnh chào mừng Quốc Khánh Việt Nam"),
      CategoryDef(TetId, "Tết Nguyên Đán", "Khung ảnh chúc mừng năm mới"),
      CategoryDef(SinhNhatId, "Sinh Nhật", "Khung ảnh sinh nhật vui vẻ") ]
  }

  /** The categories `initializeFrames` publishes. */
  function InitialCategories(): seq<FrameCategory> {
    GroupByCategory(SampleFrames(), SampleCategoryDefs())
  }

  /** The sample catalogue meets the premises of `GroupingPartitions`: the
      three category ids are distinct and every sample frame names one of
      them, so each sample frame lands in exactly one initial category. */
  lemma SampleCatalogWellFormed()
    ensures DistinctIds(SampleCategoryDefs())
    ensures AllCategorised(SampleFrames(), SampleCategoryDefs())
  {
    var defs, fs := SampleCategoryDefs(), SampleFrames();
    assert |defs[0].id| == 10 && |defs[1].id| == 3 && |defs[2].id| == 9;
    forall f | f in fs ensures exists i :: 0 <= i < |defs| && defs[i].id == f.category {
      var k :| 0 <= k < 3 && fs[k] == f;
      assert defs[k].id == f.category;
    }
  }

  /** Each sample frame lies in exactly one of the three initial categories. */
  lemma InitialCategoriesPartition(f: Frame)
    requires f in SampleFrames()
    ensures |InitialCategories()| == 3
    ensures exists i :: 0 <= i < 3 && f in InitialCategories()[i].frames
    ensures forall i, j :: 0 <= i < 3 && 0 <= j < 3
              && f in InitialCategories()[i].frames && f in InitialCategories()[j].frames
              ==> i == j
  {
    SampleCatalogWellFormed();
    GroupingPartitions(SampleFrames(), SampleCategoryDefs(), f);
  }
}
