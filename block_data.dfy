/**
 * The block's persisted record `{link, meta}` and the merging `data` setter of the
 * plugin tool (src/index.js:109-114, 184-189).
 */
module BlockData {
  import opened Wrappers

  /** A value stored under one key of the fetched metadata object. */
  datatype Value =
    | Str(s: string)            // `title`, `description`
    | Obj(url: Option<string>)  // `image`, an object that may carry a `url`
    | Null                      // null, undefined, false or 0

  /** The metadata object; its keys are what `Object.keys(meta)` lists. */
  type Meta = map<string, Value>

  /** The block data `{link, meta}` held in `_data`. */
  datatype Data = Data(link: string, meta: Meta)

  /** An argument of the `data` setter: either field may be missing (or null). */
  datatype Update = Update(link: Option<string>, meta: Option<Meta>)

  /** JavaScript truthiness of the `link` field: missing and '' are falsy. */
  predicate LinkTruthy(link: Option<string>) {
    link.Some? && link.value != ""
  }

  /** JavaScript truthiness of the `meta` field: any object, even `{}`, is truthy. */
  predicate MetaTruthy(meta: Option<Meta>) {
    meta.Some?
  }

  /** The record `_data` holds before the constructor's first assignment to `data`. */
  const Default: Data := Data("", map[])

  /**
   * The `data` setter: each field of the update replaces the held one when it is
   * truthy, and a falsy or missing field keeps the previous value.
   */
  function Merge(d: Data, u: Update): (r: Data)
    ensures LinkTruthy(u.link) ==> r.link == u.link.value
    ensures !LinkTruthy(u.link) ==> r.link == d.link
    ensures MetaTruthy(u.meta) ==> r.meta == u.meta.value
    ensures !MetaTruthy(u.meta) ==> r.meta == d.meta
  {
    Data(if LinkTruthy(u.link) then u.link.value else d.link,
         if MetaTruthy(u.meta) then u.meta.value else d.meta)
  }

  /** What the host hands back to a new block when it re-creates one from `save()`. */
  function Saved(d: Data): (u: Update)
    ensures u.link == Some(d.link) && u.meta == Some(d.meta)
    ensures d.link != "" <==> LinkTruthy(u.link)
  {
    Update(Some(d.link), Some(d.meta))
  }

  /** Setting `{link: x}` alone never touches `meta`, and a truthy `x` becomes the link. */
  lemma MergeLinkOnly(d: Data, x: string)
    ensures Merge(d, Update(Some(x), None)).meta == d.meta
    ensures x != "" ==> Merge(d, Update(Some(x), None)) == Data(x, d.meta)
    ensures x == "" ==> Merge(d, Update(Some(x), None)) == d
  {
  }

  /** Setting `{meta: m}` alone never touches `link`. */
  lemma MergeMetaOnly(d: Data, m: Meta)
    ensures Merge(d, Update(None, Some(m))) == Data(d.link, m)
  {
  }

  /** Applying the same update twice is the same as applying it once. */
  lemma MergeIdempotent(d: Data, u: Update)
    ensures Merge(Merge(d, u), u) == Merge(d, u)
  {
  }

  /** A block constructed from saved data holds exactly that data: save and load round-trip. */
  lemma SavedRoundTrip(d: Data)
    ensures Merge(Default, Saved(d)) == d
  {
  }
}
