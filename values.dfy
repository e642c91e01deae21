/**
 * The two value types the extractor builds: a member (method or field) named
 * by its owning class and its own name, and a directed dependency edge.
 * Both compare structurally; no descriptor is kept, so overloads collapse.
 */
module Values {
  import opened Wrappers

  /** `owner` is the internal class name; `None` is a null owner. */
  datatype Member = Member(owner: Option<string>, name: string)

  /** "the code of `source` refers to `dest`" */
  datatype DependencyAccess = DependencyAccess(source: Member, dest: Member)
}
