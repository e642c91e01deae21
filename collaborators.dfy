/**
 * Recording stand-ins for everything the extractor talks to: the caller's
 * edge receiver and the downstream class and method visitors. They all
 * append to one shared CallLog, so the log shows every outgoing call in the
 * order it was made.
 */
module Collaborators {
  import opened Wrappers
  import opened Values

  /** The instruction events a method visitor can be handed. */
  datatype Insn =
    | MethodInsn(opcode: int, owner: string, name: string, desc: string, itf: bool)
    | FieldInsn(opcode: int, owner: string, name: string, desc: string)
    | OtherInsn(opcode: int)   // any other instruction kind, opaque

  /** One call made outward by the extractor. */
  datatype Call =
    | Accepted(edge: DependencyAccess)
    | MethodDeclared(access: int, name: string, desc: string,
                     signature: Option<string>, exceptions: Option<seq<string>>,
                     visitor: MethodSink)   // the method visitor the next stage handed back
    | InsnForwarded(target: MethodSink, insn: Insn)

  class CallLog {
    var calls: seq<Call>

    constructor ()
      ensures calls == []
    {
      calls := [];
    }
  }

  /** The caller's `Consumer<DependencyAccess>`. */
  class EdgeReceiver {
    const log: CallLog

    constructor (log: CallLog)
      ensures this.log == log
    {
      this.log := log;
    }

    method Accept(a: DependencyAccess)
      modifies log
      ensures log.calls == old(log.calls) + [Accepted(a)]
    {
      log.calls := log.calls + [Accepted(a)];
    }
  }

  /** A downstream method visitor. */
  class MethodSink {
    const log: CallLog

    constructor (log: CallLog)
      ensures this.log == log
    {
      this.log := log;
    }

    method VisitMethodInsn(opcode: int, owner: string, name: string, desc: string, itf: bool)
      modifies log
      ensures log.calls == old(log.calls) + [InsnForwarded(this, MethodInsn(opcode, owner, name, desc, itf))]
    {
      log.calls := log.calls + [InsnForwarded(this, MethodInsn(opcode, owner, name, desc, itf))];
    }

    method VisitFieldInsn(opcode: int, owner: string, name: string, desc: string)
      modifies log
      ensures log.calls == old(log.calls) + [InsnForwarded(this, FieldInsn(opcode, owner, name, desc))]
    {
      log.calls := log.calls + [InsnForwarded(this, FieldInsn(opcode, owner, name, desc))];
    }

    method VisitInsn(opcode: int)
      modifies log
      ensures log.calls == old(log.calls) + [InsnForwarded(this, OtherInsn(opcode))]
    {
      log.calls := log.calls + [InsnForwarded(this, OtherInsn(opcode))];
    }
  }

  /** The downstream class visitor; each declared method gets a new method visitor. */
  class ClassSink {
    const log: CallLog

    constructor (log: CallLog)
      ensures this.log == log
    {
      this.log := log;
    }

    method VisitMethod(access: int, name: string, desc: string,
                       signature: Option<string>, exceptions: Option<seq<string>>)
      returns (mv: MethodSink)
      modifies log
      ensures fresh(mv) && mv.log == log
      ensures log.calls == old(log.calls) + [MethodDeclared(access, name, desc, signature, exceptions, mv)]
    {
      mv := new MethodSink(log);
      log.calls := log.calls + [MethodDeclared(access, name, desc, signature, exceptions, mv)];
    }
  }
}
