/**
 * The class visitor that extracts dependency edges from a class's method
 * bodies while forwarding the traversal to the next stage, and the
 * method-scoped visitor it hands out for each declared method.
 */
module DependencyVisitor {
  import opened Wrappers
  import opened Values
  import opened Collaborators
  import opened EdgeFilter
  import opened Traces

  /** Wraps the caller's receiver so that edges into java/lang/Object are dropped. */
  method FilterOutJavaLangObject(child: EdgeReceiver) returns (r: ObjectFilter)
    ensures fresh(r) && r.child == child
  {
    r := new ObjectFilter(child);
  }

  class DependencyClassVisitor {
    const cv: ClassSink
    const typeReceiver: ObjectFilter
    var className: Option<string>

    /** The next stage and the caller's receiver record into one log. */
    ghost predicate Valid()
    {
      cv.log == typeReceiver.child.log
    }

    /** The receiver is wrapped here, once; no class has been visited yet. */
    constructor (visitor: ClassSink, typeReceiver: EdgeReceiver)
      requires visitor.log == typeReceiver.log
      ensures Valid()
      ensures cv == visitor && this.typeReceiver.child == typeReceiver && fresh(this.typeReceiver)
      ensures className == None
    {
      cv := visitor;
      var filtered := FilterOutJavaLangObject(typeReceiver);
      this.typeReceiver := filtered;
      className := None;
    }

    /** Records the class name and nothing else: the header is not forwarded downstream. */
    method Visit(version: int, access: int, name: string, signature: Option<string>,
                 superName: Option<string>, interfaces: Option<seq<string>>)
      modifies this`className
      ensures className == Some(name)
      ensures cv.log.calls == old(cv.log.calls)
    {
      className := Some(name);
    }

    /** Forwards the declaration once, unchanged, emits no edge, and returns a
        visitor scoped to (current class name, method name) that shares the
        filtered receiver and forwards to the method visitor the next stage
        handed back for this declaration. A method declared before any class keeps a None owner. */
    method VisitMethod(access: int, name: string, desc: string,
                       signature: Option<string>, exceptions: Option<seq<string>>)
      returns (r: DependencyAnalysisMethodVisitor)
      requires Valid()
      modifies cv.log
      ensures cv.log.calls == old(cv.log.calls) + [MethodDeclared(access, name, desc, signature, exceptions, r.mv)]
      ensures fresh(r) && r.Valid()
      ensures r.member == Member(className, name)
      ensures r.typeReceiver == typeReceiver
      ensures fresh(r.mv) && r.mv.log == cv.log
    {
      var methodVisitor := cv.VisitMethod(access, name, desc, signature, exceptions);
      var me := Member(className, name);
      r := new DependencyAnalysisMethodVisitor(me, methodVisitor, typeReceiver);
    }
  }

  class DependencyAnalysisMethodVisitor {
    const member: Member
    const mv: MethodSink
    const typeReceiver: ObjectFilter

    /** The downstream method visitor and the receiver record into one log. */
    ghost predicate Valid()
    {
      mv.log == typeReceiver.child.log
    }

    constructor (member: Member, methodVisitor: MethodSink, typeReceiver: ObjectFilter)
      requires methodVisitor.log == typeReceiver.child.log
      ensures Valid()
      ensures this.member == member && mv == methodVisitor && this.typeReceiver == typeReceiver
    {
      this.typeReceiver := typeReceiver;
      this.member := member;
      mv := methodVisitor;
    }

    /** Offers the edge member -> (owner, name) to the filtered receiver, then
        forwards the call unchanged; opcode, descriptor and itf play no part in the edge. */
    method VisitMethodInsn(opcode: int, owner: string, name: string, desc: string, itf: bool)
      requires Valid()
      modifies mv.log
      ensures mv.log.calls == old(mv.log.calls) + InsnCalls(member, mv, MethodInsn(opcode, owner, name, desc, itf))
    {
      typeReceiver.Accept(DependencyAccess(member, Member(Some(owner), name)));
      mv.VisitMethodInsn(opcode, owner, name, desc, itf);
    }

    /** As VisitMethodInsn, for field reads and writes alike. */
    method VisitFieldInsn(opcode: int, owner: string, name: string, desc: string)
      requires Valid()
      modifies mv.log
      ensures mv.log.calls == old(mv.log.calls) + InsnCalls(member, mv, FieldInsn(opcode, owner, name, desc))
    {
      typeReceiver.Accept(DependencyAccess(member, Member(Some(owner), name)));
      mv.VisitFieldInsn(opcode, owner, name, desc);
    }

    /** Every other instruction is only forwarded. */
    method VisitInsn(opcode: int)
      requires Valid()
      modifies mv.log
      ensures mv.log.calls == old(mv.log.calls) + InsnCalls(member, mv, OtherInsn(opcode))
    {
      mv.VisitInsn(opcode);
    }
  }
}
