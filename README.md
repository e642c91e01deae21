# Dependency-edge extraction in pitest's `DependencyClassVisitor`

This project models the class visitor that pitest puts into an ASM visitor
chain to collect dependency edges between members (methods and fields). The
visitor does three things:

- it remembers the name of the class being visited;
- for every declared method it forwards the declaration to the next visitor
  and hands back a method visitor scoped to `Member(className, methodName)`;
- that method visitor turns every method-call and field instruction into one
  `DependencyAccess(enclosing member -> Member(owner, name))`, offers it to the
  caller's edge receiver, and then forwards the instruction unchanged.

At construction the receiver is wrapped once by a filter. The filter drops
every edge whose destination owner is exactly `java/lang/Object`.

Modules:

- `Values` has `Member(owner, name)` and `DependencyAccess(source, dest)`. An
  owner of `None` stands for Java's `null`.
- `Collaborators` has recording stand-ins for the caller's receiver (`EdgeReceiver`),
  the downstream class visitor (`ClassSink`) and the downstream method visitors
  (`MethodSink`). All of them append to one `CallLog`, so the log holds every
  outgoing call in the order it was made: `Accepted(edge)`,
  `MethodDeclared(...)` and `InsnForwarded(target, insn)`.
- `EdgeFilter` has the filter rule, its sequence form `Filter`, and the
  wrapper class `ObjectFilter` that `filterOutJavaLangObject` builds.
- `DependencyVisitor` has the two visitor classes. `className` is the only
  mutable field; everything else is `const`, as the `final` fields are in the code.
- `Traces` describes a whole method body on values: the edges offered (`Offered`),
  the edges delivered (`Delivered`), and the calls one instruction and a whole
  body cause (`InsnCalls`, `BodyCalls`). Each visitor method's `ensures`
  appends `InsnCalls` to the log, and the lemmas here lift that to whole bodies.
- `Scenarios` has client traversals that use only the visitors' contracts.

Two behaviours of the code worth stating plainly:

- `visit` (DependencyClassVisitor.java:46-49) only stores the class name and
  forwards nothing downstream.
- `visitMethod` before `visit` is not rejected; the code has no fail-fast
  check, and the member it builds has a null owner (line 57).

## Model

| member | source | states |
|---|---|---|
| `EdgeFilter.KeepsEdge` | pitest/src/main/java/org/pitest/dependency/DependencyClassVisitor.java:38 | an edge is dropped iff its destination owner is present and is exactly `java/lang/Object` |
| `EdgeFilter.KeepsNearMisses` | pitest/src/main/java/org/pitest/dependency/DependencyClassVisitor.java:38 | the comparison is exact string equality on the owner: `java/lang/Objects`, `java/lang/object` and `Object` are kept, `java/lang/Object` is dropped |
| `EdgeFilter.Filter` | pitest/src/main/java/org/pitest/dependency/DependencyClassVisitor.java:35-43 | the filtered receiver never passes on more edges than it is offered |
| `EdgeFilter.FilterMembership` | pitest/src/main/java/org/pitest/dependency/DependencyClassVisitor.java:37-42 | an edge is passed on iff it was offered and its destination owner is not exactly `java/lang/Object` |
| `EdgeFilter.FilterAppend` | pitest/src/main/java/org/pitest/dependency/DependencyClassVisitor.java:37-42 | the filter decides edge by edge and keeps the order: filtering `xs + ys` gives filter(xs) followed by filter(ys) |
| `EdgeFilter.FilterKeepsAll` | pitest/src/main/java/org/pitest/dependency/DependencyClassVisitor.java:38-40 | when no offered edge points into `java/lang/Object`, everything is passed on unchanged and in order |
| `EdgeFilter.FilterIdempotent` | pitest/src/main/java/org/pitest/dependency/DependencyClassVisitor.java:32 | wrapping a filtered receiver in the filter again would change nothing |
| `EdgeFilter.ObjectFilter.Accept` | pitest/src/main/java/org/pitest/dependency/DependencyClassVisitor.java:37-42 | the wrapped receiver gets `Accepted(a)` if the destination owner is not `java/lang/Object`; otherwise nothing is logged |
| `DependencyVisitor.FilterOutJavaLangObject` | pitest/src/main/java/org/pitest/dependency/DependencyClassVisitor.java:35-43 | returns a new filter around the given receiver |
| `DependencyVisitor.DependencyClassVisitor.constructor` | pitest/src/main/java/org/pitest/dependency/DependencyClassVisitor.java:29-33 | keeps the next stage, wraps the caller's receiver in a freshly built filter once, and starts with a null class name |
| `DependencyVisitor.DependencyClassVisitor.Visit` | pitest/src/main/java/org/pitest/dependency/DependencyClassVisitor.java:46-49 | sets `className` to the visited name and changes nothing else: no edge and no downstream call is logged |
| `DependencyVisitor.DependencyClassVisitor.VisitMethod` | pitest/src/main/java/org/pitest/dependency/DependencyClassVisitor.java:52-59 | logs exactly one downstream `MethodDeclared` with the same arguments and no edge; returns a new method visitor for `Member(className, name)` (the current class name, null before any `visit`) that uses the same filtered receiver and forwards to exactly the method visitor the next stage handed back for that declaration |
| `DependencyVisitor.DependencyAnalysisMethodVisitor.constructor` | pitest/src/main/java/org/pitest/dependency/DependencyClassVisitor.java:67-73 | fixes the member, the downstream method visitor and the receiver |
| `DependencyVisitor.DependencyAnalysisMethodVisitor.VisitMethodInsn` | pitest/src/main/java/org/pitest/dependency/DependencyClassVisitor.java:76-81 | appends `InsnCalls`: the edge member -> (owner, name) if the filter keeps it, then the unchanged instruction forwarded downstream |
| `DependencyVisitor.DependencyAnalysisMethodVisitor.VisitFieldInsn` | pitest/src/main/java/org/pitest/dependency/DependencyClassVisitor.java:84-89 | the same for field reads and writes alike |
| `DependencyVisitor.DependencyAnalysisMethodVisitor.VisitInsn` | pitest/src/main/java/org/pitest/dependency/DependencyClassVisitor.java:67-70 | any other instruction is only forwarded, unchanged, and adds no edge |
| `Traces.Target` | pitest/src/main/java/org/pitest/dependency/DependencyClassVisitor.java:78-79 | a method or field instruction names the destination `Member(owner, name)` of its own owner and name; every other instruction names none |
| `Traces.TargetIgnoresKindAndDescriptor` | pitest/src/main/java/org/pitest/dependency/DependencyClassVisitor.java:86-87 | the destination does not depend on the opcode, the descriptor or the interface flag, nor on whether it is a call or a field access |
| `Traces.Offered` | pitest/src/main/java/org/pitest/dependency/DependencyClassVisitor.java:76-89 | a body offers at most one edge per instruction |
| `Traces.InsnCalls` | pitest/src/main/java/org/pitest/dependency/DependencyClassVisitor.java:76-89 | one instruction causes its filtered edge (at most one) and then exactly one downstream call carrying the instruction unchanged, which comes last |
| `Traces.DeliveredAppend` | pitest/src/main/java/org/pitest/dependency/DependencyClassVisitor.java:76-89 | edges are delivered instruction by instruction, with no batching or reordering: the body `xs + ys` delivers the edges of `xs` followed by those of `ys` |
| `Traces.BodyEdges` | pitest/src/main/java/org/pitest/dependency/DependencyClassVisitor.java:62-90 | over a whole body, the receiver gets exactly the filtered image of the method and field instructions, in program order |
| `Traces.BodyForwarded` | pitest/src/main/java/org/pitest/dependency/DependencyClassVisitor.java:76-89 | over a whole body, the downstream method visitor gets exactly the body, unchanged |
| `Traces.BodyNeverDeliversObject` | pitest/src/main/java/org/pitest/dependency/DependencyClassVisitor.java:32-43 | no edge into `java/lang/Object` ever reaches the caller, and every edge that does comes from the visitor's own member |
| `Traces.DeliveredMembership` | pitest/src/main/java/org/pitest/dependency/DependencyClassVisitor.java:62-90 | an edge is delivered iff its source is the visitor's member, some method or field instruction names its destination, and that destination is not owned by `java/lang/Object` |
| `Traces.OtherInsnsDeliverNothing` | pitest/src/main/java/org/pitest/dependency/DependencyClassVisitor.java:62-73 | a body with no method or field instruction offers and delivers no edge |
| `Traces.ObjectReferenceDeliversNothing` | pitest/src/main/java/org/pitest/dependency/DependencyClassVisitor.java:38 | a reference into `java/lang/Object`, wherever it stands in a body, changes nothing the receiver sees |
| `Traces.DeliveredInOrder` | pitest/src/main/java/org/pitest/dependency/DependencyClassVisitor.java:78-86 | when every instruction references a member outside `java/lang/Object`, the k-th edge delivered comes from the k-th instruction; duplicates are kept and opcode, descriptor and itf are ignored |
| `Scenarios.FooBarEdges` | pitest/src/main/java/org/pitest/dependency/DependencyClassVisitor.java:76-89 | for `com/x/Foo.bar()` calling `com/x/Baz.qux()`, reading `com/x/Baz.val` and calling `java/lang/Object.hashCode()`, exactly the two edges Foo.bar -> Baz.qux and Foo.bar -> Baz.val are delivered, in that order |
| `Scenarios.FooBarForwarded` | pitest/src/main/java/org/pitest/dependency/DependencyClassVisitor.java:80-88 | in the same example, the method visitor that the declaration handed back receives the body of bar(), unchanged and in order |
| `Scenarios.FooBarScenario` | pitest/src/main/java/org/pitest/dependency/DependencyClassVisitor.java:29-89 | running that example through a fresh visitor chain logs exactly the declaration of bar() followed by the calls of its body; the receiver gets the two edges and the method visitor handed back for bar() gets the body unchanged |
| `Scenarios.RevisitScenario` | pitest/src/main/java/org/pitest/dependency/DependencyClassVisitor.java:57-72 | a method visitor keeps the member it was created with: after a later `visit` of another class, it still attributes its edges to the first class, and each instruction reaches only its own method's downstream visitor |
| `Scenarios.TwoMethodsScenario` | pitest/src/main/java/org/pitest/dependency/DependencyClassVisitor.java:52-59 | two methods of one class give edges with the same source owner and their own source names, and each method's downstream visitor receives only its own instruction |
| `Scenarios.MethodBeforeVisitScenario` | pitest/src/main/java/org/pitest/dependency/DependencyClassVisitor.java:57 | `visitMethod` before any `visit` is accepted, and its edges carry a null (`None`) source owner |

## Left out

- ASM's `ClassVisitor` and `MethodVisitor` base classes are not modelled. Their default forwarding of other event kinds (fields, annotations, `visitEnd`, labels, frames and so on) is library code. The method level has one opaque pass-through event, `OtherInsn`. At the class level only `visit` and `visitMethod` are modelled.
- `ASMVersion.ASM_VERSION` is an opaque constant with no logic.
- Only the minimal shape of `Member` and `DependencyAccess` is modelled. Their own classes are not part of this model.
- The binary class reader and writer, classpath scanning and whatever consumes the edges are I/O and outside collaborators. The driver that replays a class's events is represented only by the client traversals in `Scenarios`.
- A null downstream visitor `cv` or `mv` would make Java throw a null-pointer exception. This is not modelled. `ClassSink.VisitMethod` always returns a new, non-null method visitor.
- A destination with a null owner would make the filter's `equals` call throw. This cannot arise here, because destinations are built from instruction owners, which are plain strings.
- Failures of the receiver or of the next stage are not modelled. In Java they would propagate to the driver as exceptions.
- Thread safety of the receiver is not modelled. The traversal is single-threaded and synchronous.
- The receiver and the downstream visitors are observed through one shared `CallLog`. The constructors require them to share it so that contracts can state the order of outgoing calls. This is a modelling device, not a requirement of the code.
