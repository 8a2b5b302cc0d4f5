/** The records of the hit container. */
module Hits {

  /**
   * One row of the hit container: `id` is the visitor's fingerprint and
   * `siteId` the partition the row lives in.
   */
  datatype Hit = Hit(id: string, siteId: string, hitCount: int)

  /** The address of a row: its partition key and its id within the partition. */
  datatype Key = Key(siteId: string, id: string)

  function KeyOf(h: Hit): Key {
    Key(h.siteId, h.id)
  }
}
