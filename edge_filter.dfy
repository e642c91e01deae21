/**
 * The receiver wrapper that drops every edge into java/lang/Object, and the
 * same rule applied to a whole sequence of edges.
 */
module EdgeFilter {
  import opened Wrappers
  import opened Values
  import opened Collaborators

  /** Internal name of the root of the class hierarchy. */
  const JavaLangObject: string := "java/lang/Object"

  /** An edge survives the filter unless its destination owner is exactly java/lang/Object. */
  predicate KeepsEdge(a: DependencyAccess): (r: bool)
    ensures !r <==> a.dest.owner.Some? && a.dest.owner.value == "java/lang/Object"
  {
    a.dest.owner != Some(JavaLangObject)
  }

  /** The test is exact string equality: near misses are kept. */
  lemma KeepsNearMisses(source: Member, name: string)
    ensures KeepsEdge(DependencyAccess(source, Member(Some("java/lang/Objects"), name)))
    ensures KeepsEdge(DependencyAccess(source, Member(Some("java/lang/object"), name)))
    ensures KeepsEdge(DependencyAccess(source, Member(Some("Object"), name)))
    ensures !KeepsEdge(DependencyAccess(source, Member(Some("java/lang/Object"), name)))
  {
  }

  /** The edges a filtered receiver passes on when offered `edges` in turn. */
  function Filter(edges: seq<DependencyAccess>): (r: seq<DependencyAccess>)
    ensures |r| <= |edges|
  {
    if edges == [] then []
    else (if KeepsEdge(edges[0]) then [edges[0]] else []) + Filter(edges[1..])
  }

  /** The filter passes an edge on iff it was offered and does not point into java/lang/Object. */
  lemma {:induction false} FilterMembership(edges: seq<DependencyAccess>, a: DependencyAccess)
    ensures a in Filter(edges) <==> a in edges && KeepsEdge(a)
  {
    if edges != [] {
      FilterMembership(edges[1..], a);
      assert edges == [edges[0]] + edges[1..];
    }
  }

  /** Filtering edge by edge: offering `xs` then `ys` passes on the survivors of each, in order. */
  lemma {:induction false} FilterAppend(xs: seq<DependencyAccess>, ys: seq<DependencyAccess>)
    ensures Filter(xs + ys) == Filter(xs) + Filter(ys)
  {
    if xs == [] {
      assert xs + ys == ys;
    } else {
      var head := if KeepsEdge(xs[0]) then [xs[0]] else [];
      assert (xs + ys)[0] == xs[0];
      assert (xs + ys)[1..] == xs[1..] + ys;
      FilterAppend(xs[1..], ys);
      calc {
        Filter(xs + ys);
        head + Filter(xs[1..] + ys);
        head + (Filter(xs[1..]) + Filter(ys));
        (head + Filter(xs[1..])) + Filter(ys);
      }
    }
  }

  /** When no edge points into java/lang/Object, the filter passes on everything, in order. */
  lemma {:induction false} FilterKeepsAll(edges: seq<DependencyAccess>)
    requires forall a :: a in edges ==> KeepsEdge(a)
    ensures Filter(edges) == edges
  {
    if edges != [] {
      assert edges[0] in edges;
      FilterKeepsAll(edges[1..]);
    }
  }

  /** Wrapping a filtered receiver in the filter again changes nothing. */
  lemma FilterIdempotent(edges: seq<DependencyAccess>)
    ensures Filter(Filter(edges)) == Filter(edges)
  {
    forall a | a in Filter(edges)
      ensures KeepsEdge(a)
    {
      FilterMembership(edges, a);
    }
    FilterKeepsAll(Filter(edges));
  }

  /** The lambda built by filterOutJavaLangObject around the caller's receiver `child`. */
  class ObjectFilter {
    const child: EdgeReceiver

    constructor (child: EdgeReceiver)
      ensures this.child == child
    {
      this.child := child;
    }

    method Accept(a: DependencyAccess)
      modifies child.log
      ensures child.log.calls == old(child.log.calls) + (if KeepsEdge(a) then [Accepted(a)] else [])
    {
      if KeepsEdge(a) {
        child.Accept(a);
      }
    }
  }
}
