/** The frame records of `models/frame.model.ts`. */
module FrameModel {
  import opened Basics

  /** A decorative frame of the catalogue. `createdAt` is not modelled. */
  datatype Frame = Frame(
    id: string,
    name: string,
    category: string,
    imageUrl: string,
    thumbnailUrl: string,
    width: nat,
    height: nat,
    description: Option<string>,
    tags: Option<seq<string>>,
    isPopular: Option<bool>)

  datatype FrameCategory = FrameCategory(
    id: string,
    name: string,
    description: Option<string>,
    frames: seq<Frame>)

  /** Some tag of `tags` contains `query`. */
  predicate SomeTagContains(tags: seq<string>, query: string) {
    exists t :: t in tags && Contains(Lower(t), query)
  }

  /** The search test shared by the catalogue and the gallery: the already
      lower-cased `query` occurs in the lower-cased name, description or one
      of the tags. A missing description or tag list does not match. */
  predicate MatchesLowered(f: Frame, query: string) {
    || Contains(Lower(f.name), query)
    || (f.description.Some? && Contains(Lower(f.description.value), query))
    || (f.tags.Some? && SomeTagContains(f.tags.value, query))
  }

  /** Every frame matches the empty query, since every name contains "". */
  lemma MatchesEmpty(f: Frame)
    ensures MatchesLowered(f, "")
  {
    ContainsEmpty(Lower(f.name));
  }
}
