/**
 * What a method visitor does over a whole method body, stated on values:
 * the edges it offers, the edges that reach the caller, and the outgoing
 * calls one instruction and a whole body cause.
 */
module Traces {
  import opened Wrappers
  import opened Values
  import opened Collaborators
  import opened EdgeFilter

  /** The member an instruction refers to: owner and name of a method call or a
      field access (opcode, descriptor and interface flag play no part). */
  function Target(insn: Insn): (r: Option<Member>)
    ensures r.Some? <==> insn.MethodInsn? || insn.FieldInsn?
    ensures r.Some? ==> r.value.owner == Some(insn.owner) && r.value.name == insn.name
  {
    match insn
    case MethodInsn(_, owner, name, _, _) => Some(Member(Some(owner), name))
    case FieldInsn(_, owner, name, _) => Some(Member(Some(owner), name))
    case OtherInsn(_) => None
  }

  /** Method calls and field accesses to the same (owner, name) name the same
      member, whatever their opcodes, descriptors and interface flags. */
  lemma TargetIgnoresKindAndDescriptor(owner: string, name: string, op1: int, op2: int,
                                       desc1: string, desc2: string, itf: bool)
    ensures Target(MethodInsn(op1, owner, name, desc1, itf)) == Target(MethodInsn(op2, owner, name, desc2, !itf))
    ensures Target(MethodInsn(op1, owner, name, desc1, itf)) == Target(FieldInsn(op2, owner, name, desc2))
  {
  }

  /** The edges a method visitor scoped to `source` offers to its filtered
      receiver, one per method or field instruction, in program order. */
  function Offered(source: Member, insns: seq<Insn>): (r: seq<DependencyAccess>)
    ensures |r| <= |insns|
  {
    if insns == [] then []
    else
      (match Target(insns[0])
       case Some(dest) => [DependencyAccess(source, dest)]
       case None => [])
      + Offered(source, insns[1..])
  }

  /** The edges that reach the caller's receiver. */
  function Delivered(source: Member, insns: seq<Insn>): seq<DependencyAccess>
  {
    Filter(Offered(source, insns))
  }

  /** The edges in a log, in the order the receiver accepted them. */
  function Edges(calls: seq<Call>): seq<DependencyAccess>
  {
    if calls == [] then []
    else (if calls[0].Accepted? then [calls[0].edge] else []) + Edges(calls[1..])
  }

  /** The instructions a log shows forwarded to the downstream method visitor `target`. */
  function Forwarded(calls: seq<Call>, target: MethodSink): seq<Insn>
  {
    if calls == [] then []
    else
      (if calls[0].InsnForwarded? && calls[0].target == target then [calls[0].insn] else [])
      + Forwarded(calls[1..], target)
  }

  /** The outgoing calls caused by handing `insn` to a method visitor scoped to
      `source` whose downstream is `target`: the surviving edge, if any, then
      the instruction itself, unchanged. */
  function InsnCalls(source: Member, target: MethodSink, insn: Insn): (r: seq<Call>)
    ensures |r| >= 1 && r[|r| - 1] == InsnForwarded(target, insn)
    ensures Edges(r) == Delivered(source, [insn])
    ensures Forwarded(r, target) == [insn]
  {
    var edge :=
      match Target(insn)
      case Some(dest) =>
        var a := DependencyAccess(source, dest);
        if KeepsEdge(a) then [Accepted(a)] else []
      case None => [];
    EdgesAppend(edge, [InsnForwarded(target, insn)]);
    ForwardedAppend(edge, [InsnForwarded(target, insn)], target);
    edge + [InsnForwarded(target, insn)]
  }

  /** The outgoing calls caused by a whole method body, instruction by instruction. */
  function BodyCalls(source: Member, target: MethodSink, insns: seq<Insn>): seq<Call>
  {
    if insns == [] then []
    else InsnCalls(source, target, insns[0]) + BodyCalls(source, target, insns[1..])
  }

  /** The projection loses no edge and invents none. */
  lemma {:induction false} EdgesMembership(calls: seq<Call>, a: DependencyAccess)
    ensures a in Edges(calls) <==> Accepted(a) in calls
  {
    if calls != [] {
      EdgesMembership(calls[1..], a);
      assert calls == [calls[0]] + calls[1..];
    }
  }

  lemma {:induction false} EdgesAppend(xs: seq<Call>, ys: seq<Call>)
    ensures Edges(xs + ys) == Edges(xs) + Edges(ys)
  {
    if xs == [] {
      assert xs + ys == ys;
    } else {
      var head := if xs[0].Accepted? then [xs[0].edge] else [];
      assert (xs + ys)[0] == xs[0];
      assert (xs + ys)[1..] == xs[1..] + ys;
      EdgesAppend(xs[1..], ys);
      calc {
        Edges(xs + ys);
        head + Edges(xs[1..] + ys);
        head + (Edges(xs[1..]) + Edges(ys));
        (head + Edges(xs[1..])) + Edges(ys);
      }
    }
  }

  lemma {:induction false} ForwardedAppend(xs: seq<Call>, ys: seq<Call>, target: MethodSink)
    ensures Forwarded(xs + ys, target) == Forwarded(xs, target) + Forwarded(ys, target)
  {
    if xs == [] {
      assert xs + ys == ys;
    } else {
      assert (xs + ys)[1..] == xs[1..] + ys;
      ForwardedAppend(xs[1..], ys, target);
    }
  }

  lemma {:induction false} OfferedAppend(source: Member, xs: seq<Insn>, ys: seq<Insn>)
    ensures Offered(source, xs + ys) == Offered(source, xs) + Offered(source, ys)
  {
    if xs == [] {
      assert xs + ys == ys;
    } else {
      assert (xs + ys)[1..] == xs[1..] + ys;
      OfferedAppend(source, xs[1..], ys);
    }
  }

  /** Handing one more instruction to a method visitor adds that instruction's surviving edge, if any. */
  lemma EdgesAfterInsn(calls: seq<Call>, source: Member, target: MethodSink, insn: Insn)
    ensures Edges(calls + InsnCalls(source, target, insn)) == Edges(calls) + Delivered(source, [insn])
  {
    EdgesAppend(calls, InsnCalls(source, target, insn));
  }

  /** Handing one more instruction to the method visitor that forwards to
      `from` gives it, unchanged, to `from` and to no other downstream visitor. */
  lemma ForwardedAfterInsn(calls: seq<Call>, source: Member, from: MethodSink, insn: Insn, target: MethodSink)
    ensures Forwarded(calls + InsnCalls(source, from, insn), target)
            == Forwarded(calls, target) + (if from == target then [insn] else [])
  {
    var r := InsnCalls(source, from, insn);
    ForwardedAppend(calls, r, target);
    match Target(insn)
    case Some(dest) =>
      var a := DependencyAccess(source, dest);
      if KeepsEdge(a) {
        assert r == [Accepted(a), InsnForwarded(from, insn)];
        assert r[1..] == [InsnForwarded(from, insn)] && r[1..][1..] == [];
        assert Forwarded(r[1..], target) == (if from == target then [insn] else []);
      } else {
        assert r == [InsnForwarded(from, insn)];
        assert r[1..] == [];
      }
    case None =>
      assert r == [InsnForwarded(from, insn)];
      assert r[1..] == [];
  }

  /** A call other than an accepted edge adds no edge. */
  lemma EdgesAfterOther(calls: seq<Call>, c: Call)
    requires !c.Accepted?
    ensures Edges(calls + [c]) == Edges(calls)
  {
    EdgesAppend(calls, [c]);
  }

  /** A call other than a forwarded instruction forwards nothing. */
  lemma ForwardedAfterOther(calls: seq<Call>, c: Call, target: MethodSink)
    requires !c.InsnForwarded?
    ensures Forwarded(calls + [c], target) == Forwarded(calls, target)
  {
    ForwardedAppend(calls, [c], target);
  }

  /** Delivery is instruction by instruction: no batching, no reordering, no deduplication. */
  lemma DeliveredAppend(source: Member, xs: seq<Insn>, ys: seq<Insn>)
    ensures Delivered(source, xs + ys) == Delivered(source, xs) + Delivered(source, ys)
  {
    OfferedAppend(source, xs, ys);
    FilterAppend(Offered(source, xs), Offered(source, ys));
  }

  lemma {:induction false} BodyCallsAppend(source: Member, target: MethodSink, xs: seq<Insn>, ys: seq<Insn>)
    ensures BodyCalls(source, target, xs + ys) == BodyCalls(source, target, xs) + BodyCalls(source, target, ys)
  {
    if xs == [] {
      assert xs + ys == ys;
    } else {
      assert (xs + ys)[1..] == xs[1..] + ys;
      BodyCallsAppend(source, target, xs[1..], ys);
    }
  }

  /** Visiting one more instruction appends that instruction's calls. */
  lemma BodyCallsSnoc(source: Member, target: MethodSink, insns: seq<Insn>, insn: Insn)
    ensures BodyCalls(source, target, insns + [insn]) == BodyCalls(source, target, insns) + InsnCalls(source, target, insn)
  {
    BodyCallsAppend(source, target, insns, [insn]);
    assert [insn][1..] == [];
  }

  /** The receiver sees exactly the filtered edges of the body, in program order. */
  lemma {:induction false} BodyEdges(source: Member, target: MethodSink, insns: seq<Insn>)
    ensures Edges(BodyCalls(source, target, insns)) == Delivered(source, insns)
  {
    if insns != [] {
      EdgesAppend(InsnCalls(source, target, insns[0]), BodyCalls(source, target, insns[1..]));
      BodyEdges(source, target, insns[1..]);
      assert insns == [insns[0]] + insns[1..];
      DeliveredAppend(source, [insns[0]], insns[1..]);
    }
  }

  /** Pass-through fidelity: the downstream method visitor sees the body unchanged. */
  lemma {:induction false} BodyForwarded(source: Member, target: MethodSink, insns: seq<Insn>)
    ensures Forwarded(BodyCalls(source, target, insns), target) == insns
  {
    if insns != [] {
      ForwardedAppend(InsnCalls(source, target, insns[0]), BodyCalls(source, target, insns[1..]), target);
      BodyForwarded(source, target, insns[1..]);
    }
  }

  /** No edge into java/lang/Object ever reaches the caller, and every edge that
      does is attributed to the visitor's own member. */
  lemma {:induction false} BodyNeverDeliversObject(source: Member, target: MethodSink, insns: seq<Insn>)
    ensures forall a :: Accepted(a) in BodyCalls(source, target, insns) ==>
              a.source == source && a.dest.owner != Some(JavaLangObject)
  {
    forall a | Accepted(a) in BodyCalls(source, target, insns)
      ensures a.source == source && a.dest.owner != Some(JavaLangObject)
    {
      EdgesMembership(BodyCalls(source, target, insns), a);
      BodyEdges(source, target, insns);
      DeliveredMembership(source, insns, a);
    }
  }

  /** An edge reaches the receiver iff it comes from the visitor's member, some
      method or field instruction of the body names its destination, and that
      destination is not owned by java/lang/Object. */
  lemma {:induction false} DeliveredMembership(source: Member, insns: seq<Insn>, a: DependencyAccess)
    ensures a in Delivered(source, insns) <==>
              a.source == source && KeepsEdge(a) &&
              exists k :: 0 <= k < |insns| && Target(insns[k]) == Some(a.dest)
  {
    if insns == [] {
    } else {
      DeliveredMembership(source, insns[1..], a);
      assert insns == [insns[0]] + insns[1..];
      DeliveredAppend(source, [insns[0]], insns[1..]);
      FilterMembership(Offered(source, [insns[0]]), a);
      if exists k :: 0 <= k < |insns| && Target(insns[k]) == Some(a.dest) {
        var k :| 0 <= k < |insns| && Target(insns[k]) == Some(a.dest);
        if k > 0 {
          assert insns[1..][k - 1] == insns[k];
        }
      }
    }
  }

  /** Instructions other than method calls and field accesses contribute no edge. */
  lemma {:induction false} OtherInsnsDeliverNothing(source: Member, insns: seq<Insn>)
    requires forall k :: 0 <= k < |insns| ==> insns[k].OtherInsn?
    ensures Offered(source, insns) == [] && Delivered(source, insns) == []
  {
    if insns != [] {
      OtherInsnsDeliverNothing(source, insns[1..]);
    }
  }

  /** A reference into java/lang/Object, wherever it stands in the body, changes nothing the receiver sees. */
  lemma ObjectReferenceDeliversNothing(source: Member, xs: seq<Insn>, insn: Insn, ys: seq<Insn>)
    requires Target(insn).Some? && Target(insn).value.owner == Some(JavaLangObject)
    ensures Delivered(source, xs + [insn] + ys) == Delivered(source, xs + ys)
  {
    DeliveredAppend(source, xs + [insn], ys);
    DeliveredAppend(source, xs, [insn]);
    DeliveredAppend(source, xs, ys);
  }

  /** When every instruction references a member outside java/lang/Object, the
      k-th delivered edge comes from the k-th instruction: program order, duplicates kept. */
  lemma {:induction false} DeliveredInOrder(source: Member, insns: seq<Insn>)
    requires forall k :: 0 <= k < |insns| ==>
               Target(insns[k]).Some? && Target(insns[k]).value.owner != Some(JavaLangObject)
    ensures |Delivered(source, insns)| == |insns|
    ensures forall k :: 0 <= k < |insns| ==>
              Delivered(source, insns)[k] == DependencyAccess(source, Target(insns[k]).value)
  {
    if insns != [] {
      DeliveredInOrder(source, insns[1..]);
      assert insns == [insns[0]] + insns[1..];
      DeliveredAppend(source, [insns[0]], insns[1..]);
      forall k | 0 <= k < |insns|
        ensures Delivered(source, insns)[k] == DependencyAccess(source, Target(insns[k]).value)
      {
        if k > 0 {
          assert insns[1..][k - 1] == insns[k];
        }
      }
    }
  }
}
