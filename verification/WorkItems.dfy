/** The values that travel from the poll loop to the offset committer. */
module WorkItems {
  datatype Option<+T> = None | Some(value: T)

  /**
    A work item as the committer sees it. `prev` is the predecessor stamp, `first` marks the first
    record stamped after an assign. `id` stands for the identity of the pooled Go object: two items
    of a run that are equal as values are the same object.
   */
  datatype Item = Item(id: nat, partition: int, offset: int, prev: int, first: bool, readTime: int)

  function Max(a: int, b: int): int {
    if a > b then a else b
  }
}
