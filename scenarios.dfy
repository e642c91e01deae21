/**
 * Client traversals that use only the visitors' contracts: the worked
 * example of a method body, and how edges are attributed when methods are
 * declared before, between and after class headers.
 */
module Scenarios {
  import opened Wrappers
  import opened Values
  import opened Collaborators
  import opened Traces
  import opened DependencyVisitor

  // JVM opcodes used below
  const GETFIELD: int := 180
  const PUTFIELD: int := 181
  const INVOKEVIRTUAL: int := 182
  const INVOKESTATIC: int := 184
  const RETURN: int := 177

  /** The body of com/x/Foo.bar(): calls com/x/Baz.qux(), reads com/x/Baz.val,
      calls java/lang/Object.hashCode() and returns. */
  function FooBarBody(): seq<Insn>
  {
    [MethodInsn(INVOKESTATIC, "com/x/Baz", "qux", "()V", false),
     FieldInsn(GETFIELD, "com/x/Baz", "val", "I"),
     MethodInsn(INVOKEVIRTUAL, "java/lang/Object", "hashCode", "()I", false),
     OtherInsn(RETURN)]
  }

  /** What the receiver sees after bar() is declared and its body visited:
      two edges, in program order, and none into java/lang/Object. */
  lemma FooBarEdges(target: MethodSink)
    ensures var foobar := Member(Some("com/x/Foo"), "bar");
            Edges([MethodDeclared(1, "bar", "()V", None, None, target)] + BodyCalls(foobar, target, FooBarBody()))
              == [DependencyAccess(foobar, Member(Some("com/x/Baz"), "qux")),
                  DependencyAccess(foobar, Member(Some("com/x/Baz"), "val"))]
  {
    var foobar := Member(Some("com/x/Foo"), "bar");
    var body := FooBarBody();
    var declared := [MethodDeclared(1, "bar", "()V", None, None, target)];
    var e0 := DependencyAccess(foobar, Member(Some("com/x/Baz"), "qux"));
    var e1 := DependencyAccess(foobar, Member(Some("com/x/Baz"), "val"));
    assert Delivered(foobar, body) == [e0, e1] by {
      var front, toObject, ret := body[..2], body[2], body[3..];
      assert body == front + [toObject] + ret;
      ObjectReferenceDeliversNothing(foobar, front, toObject, ret);
      DeliveredAppend(foobar, front, ret);
      OtherInsnsDeliverNothing(foobar, ret);
      DeliveredInOrder(foobar, front);
    }
    assert Edges(BodyCalls(foobar, target, body)) == [e0, e1] by {
      BodyEdges(foobar, target, body);
    }
    assert Edges(declared) == [];
    EdgesAppend(declared, BodyCalls(foobar, target, body));
  }

  /** The method visitor the next stage handed back for bar() receives the
      body of bar(), unchanged and in order. */
  lemma FooBarForwarded(target: MethodSink)
    ensures var foobar := Member(Some("com/x/Foo"), "bar");
            Forwarded([MethodDeclared(1, "bar", "()V", None, None, target)] + BodyCalls(foobar, target, FooBarBody()), target)
              == FooBarBody()
  {
    var foobar := Member(Some("com/x/Foo"), "bar");
    ForwardedAppend([MethodDeclared(1, "bar", "()V", None, None, target)], BodyCalls(foobar, target, FooBarBody()), target);
    BodyForwarded(foobar, target, FooBarBody());
  }

  /** Class com/x/Foo, method bar() with the body above, run through a fresh
      visitor chain. `calls` is everything the chain's collaborators saw: first
      the declaration of bar(), forwarded once and unchanged, then the calls of
      the body. The receiver gets exactly the two edges of FooBarEdges, and the
      method visitor handed back for bar() gets the body unchanged. */
  method FooBarScenario() returns (calls: seq<Call>, edges: seq<DependencyAccess>, body: seq<Insn>)
    ensures |calls| > 0 && calls[0].MethodDeclared?
    ensures calls == [MethodDeclared(1, "bar", "()V", None, None, calls[0].visitor)]
                     + BodyCalls(Member(Some("com/x/Foo"), "bar"), calls[0].visitor, FooBarBody())
    ensures edges == Edges(calls)
    ensures edges == [DependencyAccess(Member(Some("com/x/Foo"), "bar"), Member(Some("com/x/Baz"), "qux")),
                      DependencyAccess(Member(Some("com/x/Foo"), "bar"), Member(Some("com/x/Baz"), "val"))]
    ensures body == Forwarded(calls, calls[0].visitor)
    ensures body == FooBarBody()
  {
    var log := new CallLog();
    var receiver := new EdgeReceiver(log);
    var next := new ClassSink(log);
    var v := new DependencyClassVisitor(next, receiver);
    v.Visit(52, 33, "com/x/Foo", None, Some("java/lang/Object"), Some([]));
    var m := v.VisitMethod(1, "bar", "()V", None, None);
    ghost var declared := log.calls;
    assert declared == [MethodDeclared(1, "bar", "()V", None, None, m.mv)];
    ghost var insns := FooBarBody();
    ghost var done: seq<Insn> := [];
    assert log.calls == declared + BodyCalls(m.member, m.mv, done);

    m.VisitMethodInsn(INVOKESTATIC, "com/x/Baz", "qux", "()V", false);
    BodyCallsSnoc(m.member, m.mv, done, insns[0]);
    done := done + [insns[0]];
    assert log.calls == declared + BodyCalls(m.member, m.mv, done);

    m.VisitFieldInsn(GETFIELD, "com/x/Baz", "val", "I");
    BodyCallsSnoc(m.member, m.mv, done, insns[1]);
    done := done + [insns[1]];
    assert log.calls == declared + BodyCalls(m.member, m.mv, done);

    m.VisitMethodInsn(INVOKEVIRTUAL, "java/lang/Object", "hashCode", "()I", false);
    BodyCallsSnoc(m.member, m.mv, done, insns[2]);
    done := done + [insns[2]];
    assert log.calls == declared + BodyCalls(m.member, m.mv, done);

    m.VisitInsn(RETURN);
    BodyCallsSnoc(m.member, m.mv, done, insns[3]);
    done := done + [insns[3]];
    assert done == insns;
    assert log.calls == declared + BodyCalls(m.member, m.mv, insns);
    FooBarEdges(m.mv);
    FooBarForwarded(m.mv);
    calls := log.calls;
    edges := Edges(calls);
    body := Forwarded(calls, m.mv);
  }

  /** A method visitor keeps the member it was created with: after the visitor
      is pointed at com/x/B, the visitor made for com/x/A still attributes its
      edges to com/x/A. Each instruction reaches only the downstream visitor
      of its own method. */
  method RevisitScenario() returns (edges: seq<DependencyAccess>, toA: seq<Insn>, toB: seq<Insn>)
    ensures edges == [DependencyAccess(Member(Some("com/x/A"), "run"), Member(Some("com/x/C"), "f")),
                      DependencyAccess(Member(Some("com/x/B"), "run"), Member(Some("com/x/C"), "f"))]
    ensures toA == [FieldInsn(PUTFIELD, "com/x/C", "f", "I")]
    ensures toB == [FieldInsn(GETFIELD, "com/x/C", "f", "I")]
  {
    var log := new CallLog();
    var receiver := new EdgeReceiver(log);
    var next := new ClassSink(log);
    var v := new DependencyClassVisitor(next, receiver);
    v.Visit(52, 33, "com/x/A", None, Some("java/lang/Object"), None);
    ghost var c0 := log.calls;
    var ma := v.VisitMethod(1, "run", "()V", None, None);
    v.Visit(52, 33, "com/x/B", None, Some("java/lang/Object"), None);
    ghost var c1 := log.calls;
    var mb := v.VisitMethod(1, "run", "()V", None, None);
    ghost var da := MethodDeclared(1, "run", "()V", None, None, ma.mv);
    ghost var db := MethodDeclared(1, "run", "()V", None, None, mb.mv);
    EdgesAfterOther(c0, da);
    EdgesAfterOther(c1, db);
    ForwardedAfterOther(c0, da, ma.mv);
    ForwardedAfterOther(c0, da, mb.mv);
    ForwardedAfterOther(c1, db, ma.mv);
    ForwardedAfterOther(c1, db, mb.mv);

    ghost var c2 := log.calls;
    ghost var ia := FieldInsn(PUTFIELD, "com/x/C", "f", "I");
    ma.VisitFieldInsn(PUTFIELD, "com/x/C", "f", "I");
    EdgesAfterInsn(c2, ma.member, ma.mv, ia);
    ForwardedAfterInsn(c2, ma.member, ma.mv, ia, ma.mv);
    ForwardedAfterInsn(c2, ma.member, ma.mv, ia, mb.mv);

    ghost var c3 := log.calls;
    ghost var ib := FieldInsn(GETFIELD, "com/x/C", "f", "I");
    mb.VisitFieldInsn(GETFIELD, "com/x/C", "f", "I");
    EdgesAfterInsn(c3, mb.member, mb.mv, ib);
    ForwardedAfterInsn(c3, mb.member, mb.mv, ib, ma.mv);
    ForwardedAfterInsn(c3, mb.member, mb.mv, ib, mb.mv);

    edges := Edges(log.calls);
    toA := Forwarded(log.calls, ma.mv);
    toB := Forwarded(log.calls, mb.mv);
  }

  /** Two methods of one class share the source owner and keep their own
      names; each method's downstream visitor receives its own body. */
  method TwoMethodsScenario() returns (edges: seq<DependencyAccess>, toA: seq<Insn>, toB: seq<Insn>)
    ensures edges == [DependencyAccess(Member(Some("com/x/Foo"), "a"), Member(Some("com/x/Baz"), "qux")),
                      DependencyAccess(Member(Some("com/x/Foo"), "b"), Member(Some("com/x/Baz"), "qux"))]
    ensures toA == [MethodInsn(INVOKESTATIC, "com/x/Baz", "qux", "()V", false)]
    ensures toB == [MethodInsn(INVOKESTATIC, "com/x/Baz", "qux", "(I)V", false)]
  {
    var log := new CallLog();
    var receiver := new EdgeReceiver(log);
    var next := new ClassSink(log);
    var v := new DependencyClassVisitor(next, receiver);
    v.Visit(52, 33, "com/x/Foo", None, Some("java/lang/Object"), None);
    ghost var c0 := log.calls;
    var ma := v.VisitMethod(1, "a", "()V", None, None);
    ghost var da := MethodDeclared(1, "a", "()V", None, None, ma.mv);
    EdgesAfterOther(c0, da);
    ForwardedAfterOther(c0, da, ma.mv);

    ghost var c1 := log.calls;
    ghost var ia := MethodInsn(INVOKESTATIC, "com/x/Baz", "qux", "()V", false);
    ma.VisitMethodInsn(INVOKESTATIC, "com/x/Baz", "qux", "()V", false);
    EdgesAfterInsn(c1, ma.member, ma.mv, ia);
    ForwardedAfterInsn(c1, ma.member, ma.mv, ia, ma.mv);

    ghost var c2 := log.calls;
    var mb := v.VisitMethod(1, "b", "()V", None, None);
    ghost var db := MethodDeclared(1, "b", "()V", None, None, mb.mv);
    EdgesAfterOther(c2, db);
    ForwardedAfterOther(c2, db, ma.mv);
    ForwardedAfterOther(c2, db, mb.mv);
    ForwardedAfterOther(c0, da, mb.mv);
    ForwardedAfterInsn(c1, ma.member, ma.mv, ia, mb.mv);

    ghost var c3 := log.calls;
    ghost var ib := MethodInsn(INVOKESTATIC, "com/x/Baz", "qux", "(I)V", false);
    mb.VisitMethodInsn(INVOKESTATIC, "com/x/Baz", "qux", "(I)V", false);
    EdgesAfterInsn(c3, mb.member, mb.mv, ib);
    ForwardedAfterInsn(c3, mb.member, mb.mv, ib, ma.mv);
    ForwardedAfterInsn(c3, mb.member, mb.mv, ib, mb.mv);

    edges := Edges(log.calls);
    toA := Forwarded(log.calls, ma.mv);
    toB := Forwarded(log.calls, mb.mv);
  }

  /** A method declared before any class header is not rejected: its edges
      carry a null (None) owner. */
  method MethodBeforeVisitScenario() returns (edges: seq<DependencyAccess>)
    ensures edges == [DependencyAccess(Member(None, "m"), Member(Some("com/x/Baz"), "val"))]
  {
    var log := new CallLog();
    var receiver := new EdgeReceiver(log);
    var next := new ClassSink(log);
    var v := new DependencyClassVisitor(next, receiver);
    ghost var c0 := log.calls;
    var m := v.VisitMethod(1, "m", "()V", None, None);
    EdgesAfterOther(c0, MethodDeclared(1, "m", "()V", None, None, m.mv));
    ghost var c1 := log.calls;
    m.VisitFieldInsn(GETFIELD, "com/x/Baz", "val", "I");
    EdgesAfterInsn(c1, m.member, m.mv, FieldInsn(GETFIELD, "com/x/Baz", "val", "I"));
    edges := Edges(log.calls);
  }
}
