/** The parts of a decoded reply of the `photos.search` endpoint that the fetch loop
    of vk_geotags.py looks at. Everything else in the reply is ignored by the loop and
    is not represented. */
module Json {
  import opened Wrappers

  /** What a key lookup in a decoded JSON object finds: the key is missing, it maps
      to `null`, or it maps to a value. The loop distinguishes the first two where it
      uses a default (`.get(key, default)` returns the default only for a missing key). */
  datatype Field<T> = Absent | Null | Present(value: T)

  /** One entry of `response.items`. The loop reads each field with `item.get(key)`,
      which yields None for a missing key and for `null` alike, so an Option suffices.
      Coordinates are only copied, so a real number stands for the JSON number. */
  datatype Item = Item(
    date: Option<int>,
    lat: Option<real>,
    long: Option<real>,
    id: Option<int>,
    ownerId: Option<int>)

  /** The value under the `response` key. */
  datatype Body = Body(items: Field<seq<Item>>, count: Field<int>)

  /** A whole decoded reply: only its `response` key matters. */
  datatype Reply = Reply(response: Field<Body>)
}
