# Link resolution, throwable stack traces and breakpoints of the javavm emulator

This project is a Dafny model of three parts of the javavm bytecode emulator, with proofs about each.

- **LinkResolver**: turns a symbolic call site (class, name, descriptor) into a resolved method.
  - For a virtual call it also produces the selected method.
  - For a field reference it produces the declaring class of the field.
  - Every entry point goes through an ordered series of checks. Each check ends in one of four ways: a found method, an empty handle, an emulated Java error, or a host `ExecutionException` for a path that is not implemented.
- **java_lang_Throwable natives**:
  - `fillInStackTrace` strips the leading frames of the captured trace that belong to the capture itself or to throwable constructors.
  - `getStackTraceDepth` returns the number of stored frames.
  - `getStackTraceElement` recovers a frame's source line from the line-number nodes of its class.
- **ExecutionOptions**: the breakpoint watchlist, a map from instruction node to callback, keyed by identity.

## Modules

- `outcomes.dfy` (`Outcomes`): `Option` and the outcome of an emulated operation.
  - `Ok`: a result.
  - `Throw`: an emulated `IncompatibleClassChangeError`, `NoSuchMethodError`, `NoSuchFieldError` or `NullPointerException`, with its message.
  - `Unsupported`: the host `ExecutionException`, with its text.
  - `Fault`: a `NullPointerException` or `IndexOutOfBoundsException` raised by the emulator's own Java code.
- `universe.dfy` (`ClassUniverse`): the class metadata the resolver queries, as uninterpreted functions.
  - The queries are `isInterface`, `isArray`, `isStatic`, `isPrivate`, `isPublic`, `isAbstract`, the declaring class, `uncachedLookupMethod`, `findMethod`, `findField` and `shouldBeInitialized`.
  - It also holds the method-handle intrinsic registry.
- `resolution.dfy` (`Resolution`): each resolver entry point as a function of the universe, with contracts and lemmas about check order and results.
- `link_resolver.dfy` (`Linker`): the resolver as the source runs it.
  - Methods fill and pass along `Option` handles.
  - `VirtualMachine.Initialize` replaces the universe with the result of an arbitrary initialiser.
  - Every resolver method except the `LookupMethodsInInterfaces` stub is proved equal to its `Resolution` function. The stub is proved to return the handle unchanged.
- `stack_trace.dfy` (`StackTrace`): frames, instruction lists and line-number entries, with the specification functions for trimming and line recovery and lemmas about them.
- `throwable.dfy` (`ThrowableNatives`): the three natives.
  - They are loops over sequences, each proved against its `StackTrace` function.
  - A `ThrowableObject` class holds the `backtrace` metadata.
- `execution_options.dfy` (`Breakpoints`): the `ExecutionOptions` class and its watchlist.

The code is a partial port of HotSpot's `linkResolver.cpp`. Where it departs from that resolver and from the Java Virtual Machine Specification, the model follows the code:

- **Virtual dispatch** always selects the resolved method with the invalid vtable index. The vtable and itable dispatch is commented out (LinkResolver.java:85-112), so an override in the receiver's class is never selected.
- **Missing or abstract selected method**: the code raises the host exception `"asdf"`, not a no-such-method or abstract-method error.
- **Static calls** initialise the class only when the caller's `initialize` flag is set, and only after the first resolution has succeeded.
- **Line entries** are collected from every method of the frame's class, not only from the frame's own method. The last node of each method is never looked at.
- **Access checks** are a no-op for methods but end in `Unsupported` for fields. The model keeps this inconsistency: `Resolution.ResolveMethodIgnoresCheckAccess` and `Resolution.ResolveField` state both sides.

## Model

| member | source | states |
|---|---|---|
| Resolution.LookupMethodInClasses | src/main/java/com/javadeobfuscator/javavm/internals/LinkResolver.java:214-243 | An array class gets exactly its direct lookup. Otherwise a direct hit is kept, unless interface-method mode discards a static or non-public java/lang/Object member found on an interface. The inheritance walk is consulted exactly when no direct hit survives. |
| Resolution.LookupPolymorphicMethod | src/main/java/com/javadeobfuscator/javavm/internals/LinkResolver.java:197-212 | Off the MethodHandle class the handle is unchanged. On it, a non-intrinsic name gives Unsupported. An intrinsic name takes the registry's method for (id, basic signature, keepLastArg from isSignaturePolymorphicStatic) when there is one, and otherwise keeps the handle. |
| Resolution.ResolveMethod | src/main/java/com/javadeobfuscator/javavm/internals/LinkResolver.java:164-190 | With requireMethodRef set, an interface class gives IncompatibleClassChangeError before any lookup. Otherwise: the class lookup comes first; an array class never reaches the polymorphic lookup; an empty handle gives NoSuchMethodError with message owner.name+desc. Only ICCE and NSME are thrown, Unsupported only on MethodHandle, and never a host fault. |
| Resolution.ResolveMethodIgnoresCheckAccess | src/main/java/com/javadeobfuscator/javavm/internals/LinkResolver.java:187-189 | The checkAccess flag never changes the outcome of method resolution. |
| Resolution.InterfaceGuardPrecedesLookup | src/main/java/com/javadeobfuscator/javavm/internals/LinkResolver.java:164-171 | With requireMethodRef set, the outcome for an interface class depends only on its name, not on any method table. |
| Resolution.LinktimeResolveVirtualMethod | src/main/java/com/javadeobfuscator/javavm/internals/LinkResolver.java:47-64 | Success exactly when resolution succeeds with a non-static method. Resolution errors pass through. A static method gives ICCE. The private-interface check can never fire. |
| Resolution.RuntimeResolveVirtualMethod | src/main/java/com/javadeobfuscator/javavm/internals/LinkResolver.java:67-137 | A checked null receiver gives NullPointerException before the method is looked at. A method declared by an interface gives Unsupported. Success records selected == resolved with the invalid vtable index. The abstract failure happens only when checks are on and the method is abstract. Past the null check, a method declared by a class succeeds exactly when checks are off or it is not abstract; an abstract one under checks fails with "asdf". |
| Resolution.ResolveVirtualCall | src/main/java/com/javadeobfuscator/javavm/internals/LinkResolver.java:37-43 | Link-time errors come before the null-receiver check. A linked call continues with run-time resolution of the method found at link time. Every successful call selects the method that resolveMethod found, with no vtable slot, on a non-interface class, and that method is non-static and not declared by an interface. |
| Resolution.NullReceiverPrecedesDispatch | src/main/java/com/javadeobfuscator/javavm/internals/LinkResolver.java:79-84 | With checks on, a null receiver fails with NullPointerException whatever the universe run-time resolution consults. |
| Resolution.LinktimeResolveStaticMethod | src/main/java/com/javadeobfuscator/javavm/internals/LinkResolver.java:151-162 | For a class: success exactly when resolution succeeds with a static method, with errors passed through and a non-static method giving ICCE "Expected static method owner.name+desc". For an interface there is no lookup: the caller's handle is checked, and an empty one is a host null dereference. |
| Resolution.ResolveStaticCall | src/main/java/com/javadeobfuscator/javavm/internals/LinkResolver.java:139-149 | A failure of the first resolution is the outcome. Without initialisation the first resolution's method is recorded as a StaticCall. With initialisation the second resolution, against the initialised universe and starting from the first method, decides: its failure or its method. The universe changes only through the initialiser, and only when the first resolution succeeded, initialize is set and the class needs it. A recorded method is static in the final universe. |
| Resolution.StaticCallReResolvesAfterInitialization | src/main/java/com/javadeobfuscator/javavm/internals/LinkResolver.java:143-148 | Re-resolution observes the changes made by initialisation. A method the initialised class resolves to is the one recorded. If the initialised class no longer finds the method, the call fails, although the first resolution succeeded. |
| Resolution.StaticCallKeepsHandleOnInterface | src/main/java/com/javadeobfuscator/javavm/internals/LinkResolver.java:143-158 | When initialisation turns the class into an interface, the second resolution keeps the first method. |
| Resolution.ResolveField | src/main/java/com/javadeobfuscator/javavm/internals/LinkResolver.java:245-263 | A null class handle or a findField miss gives NoSuchFieldError carrying the field name. Success exactly when the field is found and access is not checked, and the result is findField's class. With checkAccess the result is always NoSuchFieldError or Unsupported, and it is Unsupported whenever the field is found. |
| Resolution.ResolveFieldIgnoresBytecode | src/main/java/com/javadeobfuscator/javavm/internals/LinkResolver.java:246-247 | The opcode and the initialisation flag never change the outcome. |
| Linker.VirtualMachine.constructor | src/main/java/com/javadeobfuscator/javavm/internals/LinkResolver.java:31-35 | The machine starts from the given universe and initialiser. |
| Linker.VirtualMachine.Initialize | src/main/java/com/javadeobfuscator/javavm/internals/LinkResolver.java:144 | vm.initialize: the new universe is the initialiser applied to the old one. |
| Linker.LinkResolver.constructor | src/main/java/com/javadeobfuscator/javavm/internals/LinkResolver.java:33-35 | The resolver keeps the given machine. |
| Linker.LinkResolver.ResolveVirtualCall | src/main/java/com/javadeobfuscator/javavm/internals/LinkResolver.java:37-43 | Computes Resolution.ResolveVirtualCall. A success records selected == resolved and the invalid vtable index. |
| Linker.LinkResolver.LinktimeResolveVirtualMethod | src/main/java/com/javadeobfuscator/javavm/internals/LinkResolver.java:47-64 | Computes Resolution.LinktimeResolveVirtualMethod. A success is non-static. |
| Linker.LinkResolver.RuntimeResolveVirtualMethod | src/main/java/com/javadeobfuscator/javavm/internals/LinkResolver.java:67-137 | Computes Resolution.RuntimeResolveVirtualMethod. The "selected method is null" branch is proved unreachable. |
| Linker.LinkResolver.ResolveStaticCall | src/main/java/com/javadeobfuscator/javavm/internals/LinkResolver.java:139-149 | The result and the machine's new universe are exactly those of Resolution.ResolveStaticCall on the old universe. |
| Linker.LinkResolver.LinktimeResolveStaticMethod | src/main/java/com/javadeobfuscator/javavm/internals/LinkResolver.java:151-162 | Computes Resolution.LinktimeResolveStaticMethod from the caller's handle. A success is static. |
| Linker.LinkResolver.ResolveMethod | src/main/java/com/javadeobfuscator/javavm/internals/LinkResolver.java:164-190 | Computes Resolution.ResolveMethod. The interface guard gives ICCE. |
| Linker.LinkResolver.LookupMethodsInInterfaces | src/main/java/com/javadeobfuscator/javavm/internals/LinkResolver.java:192-195 | The handle is returned unchanged. |
| Linker.LinkResolver.LookupPolymorphicMethod | src/main/java/com/javadeobfuscator/javavm/internals/LinkResolver.java:197-212 | Computes Resolution.LookupPolymorphicMethod. Off MethodHandle the handle is unchanged. |
| Linker.LinkResolver.LookupMethodInClasses | src/main/java/com/javadeobfuscator/javavm/internals/LinkResolver.java:214-243 | Computes Resolution.LookupMethodInClasses. A found method comes from the direct lookup or the inheritance walk. |
| Linker.LinkResolver.ResolveField | src/main/java/com/javadeobfuscator/javavm/internals/LinkResolver.java:245-263 | Computes Resolution.ResolveField. A success means access was not checked. |
| StackTrace.FoldCase | src/main/java/com/javadeobfuscator/javavm/nativeimpls/java_lang_Throwable.java:44-45 | ASCII upper-case letters fold to lower case, and lower-case letters stay as they are. |
| StackTrace.TrimmedCount | src/main/java/com/javadeobfuscator/javavm/nativeimpls/java_lang_Throwable.java:42-54 | The stripped count is at most the length. Every stripped frame is a fill-in frame or a throwable-constructor frame, and the first kept frame is neither. |
| StackTrace.TrimmedCountIsFirstMismatch | src/main/java/com/javadeobfuscator/javavm/nativeimpls/java_lang_Throwable.java:42-54 | Any cut whose prefix matches and whose next frame does not is the cut taken, and the stored frames are the suffix after it. |
| StackTrace.TrimmedMayBeEmpty | src/main/java/com/javadeobfuscator/javavm/nativeimpls/java_lang_Throwable.java:42-54 | A capture made only of matching frames is stored as an empty trace. |
| StackTrace.TrimmedSkipsThrowableConstruction | src/main/java/com/javadeobfuscator/javavm/nativeimpls/java_lang_Throwable.java:42-52 | A fill-in frame followed by a throwable constructor frame are both stripped. |
| StackTrace.FillInRuleIgnoresCase | src/main/java/com/javadeobfuscator/javavm/nativeimpls/java_lang_Throwable.java:44-45 | A frame named "FILLINSTACKTRACE" is stripped as a fill-in frame: the comparison ignores case. |
| StackTrace.FillInRuleFoldsDotlessI | src/main/java/com/javadeobfuscator/javavm/nativeimpls/java_lang_Throwable.java:44-45 | A name spelled with a dotless i still matches fillInStackTrace0, as equalsIgnoreCase folds it. |
| StackTrace.ConstructorRuleIsCaseSensitive | src/main/java/com/javadeobfuscator/javavm/nativeimpls/java_lang_Throwable.java:49-52 | "<init>" of a throwable class is stripped and "<INIT>" is not: the constructor rule compares exactly. |
| StackTrace.LineEntriesMembership | src/main/java/com/javadeobfuscator/javavm/nativeimpls/java_lang_Throwable.java:78-82 | An entry is collected from a run of nodes exactly when the run holds that line-number node. |
| StackTrace.ScannedMembership | src/main/java/com/javadeobfuscator/javavm/nativeimpls/java_lang_Throwable.java:78-82 | An entry is collected from a method exactly when the method holds that line-number node at a position other than its last. |
| StackTrace.LineTableMembership | src/main/java/com/javadeobfuscator/javavm/nativeimpls/java_lang_Throwable.java:76-84 | An entry is collected exactly when some method of the class holds that line-number node at a position other than its last. |
| StackTrace.FirstLineForNone | src/main/java/com/javadeobfuscator/javavm/nativeimpls/java_lang_Throwable.java:88-93 | The label search finds nothing exactly when no collected entry starts at the label. |
| StackTrace.FirstLineForSome | src/main/java/com/javadeobfuscator/javavm/nativeimpls/java_lang_Throwable.java:88-93 | When it finds a line, that is the line of the first collected entry starting at the label. |
| StackTrace.FirstLineForAt | src/main/java/com/javadeobfuscator/javavm/nativeimpls/java_lang_Throwable.java:88-92 | If the entry at position k starts at the label and no earlier entry does, the label search gives that entry's line. |
| StackTrace.NearestLineNone | src/main/java/com/javadeobfuscator/javavm/nativeimpls/java_lang_Throwable.java:86-95 | The backward walk finds nothing exactly when no node before the instruction is a label starting a collected line. |
| StackTrace.NearestLineSome | src/main/java/com/javadeobfuscator/javavm/nativeimpls/java_lang_Throwable.java:86-95 | When it finds a line, it is the line of the nearest such label before the instruction: no later node before the instruction starts a line. |
| StackTrace.LineNumberOf | src/main/java/com/javadeobfuscator/javavm/nativeimpls/java_lang_Throwable.java:69-97 | A native frame gives -2. A frame without an instruction gives -1. Otherwise the result is -1 when no earlier label starts a line, or else the line of the nearest label before the instruction that does. |
| StackTrace.ExternalClassName | src/main/java/com/javadeobfuscator/javavm/nativeimpls/java_lang_Throwable.java:100 | Same length, every '/' replaced by '.', no other character changed, and no '/' left. |
| StackTrace.ElementOf | src/main/java/com/javadeobfuscator/javavm/nativeimpls/java_lang_Throwable.java:99-104 | The element carries the external class name, the method name and LineNumberOf. |
| StackTrace.ExampleEntries | src/main/java/com/javadeobfuscator/javavm/nativeimpls/java_lang_Throwable.java:78-82 | The first six nodes of the example method give the entries for label 1 (line 10) and label 2 (line 12), in order. |
| StackTrace.ExampleLineTable | src/main/java/com/javadeobfuscator/javavm/nativeimpls/java_lang_Throwable.java:76-84 | Label 1 to line 10 and label 2 to line 12 are collected in order. |
| StackTrace.ExampleNearestLineAfterSecondLabel | src/main/java/com/javadeobfuscator/javavm/nativeimpls/java_lang_Throwable.java:86-95 | An instruction after label 2 finds line 12. |
| StackTrace.ExampleNearestLineAfterFirstLabel | src/main/java/com/javadeobfuscator/javavm/nativeimpls/java_lang_Throwable.java:86-95 | An instruction between the labels finds line 10. |
| StackTrace.LineMappingExample | src/main/java/com/javadeobfuscator/javavm/nativeimpls/java_lang_Throwable.java:69-95 | Instructions after L2, between L1 and L2, and before both get lines 12, 10 and -1. |
| StackTrace.LastNodeIsNotCollected | src/main/java/com/javadeobfuscator/javavm/nativeimpls/java_lang_Throwable.java:78 | A line-number node that is the last node of its method is never collected, so its label gives -1. |
| ThrowableNatives.TrimStackTrace | src/main/java/com/javadeobfuscator/javavm/nativeimpls/java_lang_Throwable.java:42-54 | The loop leaves exactly Trimmed: a suffix of the capture, only matching frames removed, and the first kept frame not matching. |
| ThrowableNatives.AppendMethodLines | src/main/java/com/javadeobfuscator/javavm/nativeimpls/java_lang_Throwable.java:77-83 | The inner loop appends exactly the entries of every node of the method except its last. |
| ThrowableNatives.CollectLineEntries | src/main/java/com/javadeobfuscator/javavm/nativeimpls/java_lang_Throwable.java:75-84 | The nested loops collect exactly LineTable of the class's methods. |
| ThrowableNatives.FindLabelLine | src/main/java/com/javadeobfuscator/javavm/nativeimpls/java_lang_Throwable.java:88-93 | The inner loop finds exactly FirstLineFor of the label. |
| ThrowableNatives.FindLineNumber | src/main/java/com/javadeobfuscator/javavm/nativeimpls/java_lang_Throwable.java:85-95 | The labelled backward walk gives NearestLine of the nodes before the instruction, or -1 when there is none. |
| ThrowableNatives.ComputeLineNumber | src/main/java/com/javadeobfuscator/javavm/nativeimpls/java_lang_Throwable.java:69-97 | The computed line equals LineNumberOf. |
| ThrowableNatives.ThrowableObject.constructor | src/main/java/com/javadeobfuscator/javavm/nativeimpls/java_lang_Throwable.java:55 | A new throwable has no backtrace. |
| ThrowableNatives.ThrowableObject.FillInStackTrace | src/main/java/com/javadeobfuscator/javavm/nativeimpls/java_lang_Throwable.java:39-58 | Stores Some(Trimmed(capture)) as the backtrace and returns the same instance. |
| ThrowableNatives.ThrowableObject.GetStackTraceDepth | src/main/java/com/javadeobfuscator/javavm/nativeimpls/java_lang_Throwable.java:59-61 | The length of the backtrace, or a null dereference when nothing was stored. |
| ThrowableNatives.ThrowableObject.GetStackTraceElement | src/main/java/com/javadeobfuscator/javavm/nativeimpls/java_lang_Throwable.java:62-105 | A null dereference without a backtrace. IndexOutOfBounds for an index outside it. Otherwise ElementOf the frame at the index. |
| ThrowableNatives.DepthAfterFill | src/main/java/com/javadeobfuscator/javavm/nativeimpls/java_lang_Throwable.java:55-61 | After fillInStackTrace the depth is the capture length minus the stripped count. |
| Breakpoints.ExecutionOptions.constructor | src/main/java/com/javadeobfuscator/javavm/ExecutionOptions.java:10 | A new options object has an empty watchlist and records no instruction. |
| Breakpoints.ExecutionOptions.ShouldRecord | src/main/java/com/javadeobfuscator/javavm/ExecutionOptions.java:18-20 | True exactly when the instruction is a key of the watchlist. The emptiness test changes nothing. |
| Breakpoints.ExecutionOptions.Watch | src/main/java/com/javadeobfuscator/javavm/ExecutionOptions.java:13-16 | The watchlist gains or replaces the key, which is then recorded. Every other instruction keeps its status. The same object is returned. |
| Breakpoints.ExecutionOptions.Notify | src/main/java/com/javadeobfuscator/javavm/ExecutionOptions.java:22-24 | Delivers to the registered callback of a watched node, and is a null dereference otherwise. It succeeds exactly when ShouldRecord holds. |
| Breakpoints.LatestConsumerWins | src/main/java/com/javadeobfuscator/javavm/ExecutionOptions.java:13-24 | After watching an instruction twice, notify delivers to the later callback. A different watched instruction keeps its own callback. |
| Breakpoints.NothingWatchedFaults | src/main/java/com/javadeobfuscator/javavm/ExecutionOptions.java:10-24 | On fresh options nothing is recorded, and notify is a null dereference. |

## Left out

- Virtual machine internals are not shown and are left abstract (`ClassUniverse` and `isThrowableClass` stand in for them):
  - construction of the thrown objects by `newThrowable`;
  - `SystemDictionary`;
  - `JavaClass.forName` and `isAssignableFrom`;
  - the internals of `uncachedLookupMethod`, `findMethod` and `findField`.
- Shadowing and the superclass walk of method and field lookup happen inside those uninterpreted lookups, so the model does not say how they are done.
- The intrinsic registry, `signaturePolymorphicNameId` and `lookupBasicTypeSignature` are foreign calls; they are uninterpreted functions.
- The registry's two empty answers (a null handle and a handle holding null) are both modelled as `None`.
- `vm.initialize` runs emulated bytecode. It is an arbitrary universe transformer: it may change the universe but is never modelled as throwing.
- Re-entrant resolution during initialisation is not modelled.
- The commented-out vtable and itable dispatch code is not executed behaviour, so it is not modelled.
- `CallInfo` and the field descriptor are returned values rather than objects filled in place. A failure therefore leaves no partially filled record.
- "Found" for a field is represented by the declaring class `findField` reports.
- The entry points take a class handle (`KlassHandle`); the inner lookups take a class id. A null class handle reaching `resolve_virtual_call` or `resolveStaticCall` is a host null dereference.
- Error messages are modelled as strings, but `newThrowable`'s rendering of them is not. The placeholder texts ("tmp", "asdf") are kept as they are.
- `StackTrace.EqualsIgnoreCase`: exact only when one side is ASCII, which holds for every comparison the source makes. Full Unicode case folding is not modelled.
- Frames and instruction positions are values (a list and an index), not linked ASM nodes. A label is compared by a number standing for its ASM `Label`.
- `getStackTraceElement`'s source-file field, `vm.newInstance` and `vm.getString` are object construction and are not modelled.
- Hook registration (`HookGenerator`, `vm.hook`) is plumbing, and `vm.getStacktrace` is the capture input.
- `Breakpoints.ExecutionOptions.Notify` returns the callback that receives the information rather than running it. The callback's behaviour, `BreakpointInfo`, `Stack`, `Locals` and the unused `_stacktrace` field are not modelled.
- A null callback registered with `watch` is not modelled: callbacks are always present values.
- The test sources deal only with compiling, I/O and class-file parsing, and are not part of this model.
