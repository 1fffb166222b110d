/** Values shared by the modules below. */
module Domain {

  datatype Option<+T> = None | Some(value: T)

  /** A provider's text id. Ids are compared by name and never interpreted. */
  datatype ProviderId = ProviderId(name: string)

  lemma SubsetSize<T>(a: set<T>, b: set<T>)
    requires a <= b
    ensures |a| <= |b|
  {
    assert b == a + (b - a);
  }
}
