/** The bucket: objects by key, as the rows they hold. */
module ObjectStorage {
  import Observations
  import Clock

  class ObjectStore {
    var objects: map<string, seq<Observations.Row>>
    ghost var instants: set<Clock.Utc>  // when batches of the bronze writer were stored

    method UploadRows(key: string, rows: seq<Observations.Row>)
      modifies this`objects
      ensures objects == old(objects)[key := rows]
    {
      objects := objects[key := rows];
    }
  }
}
