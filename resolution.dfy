/** Method and field linkage resolution (LinkResolver), as functions of the class
    universe. The shape follows the Java Virtual Machine Specification, Java SE 8
    edition: section 5.4.3.3 (method resolution), section 5.4.3.2 (field resolution)
    and the linking checks of invokevirtual and invokestatic in section 6.5. */
module Resolution {
  import opened Outcomes
  import opened ClassUniverse

  /** The receiver value of a virtual call: the null reference or some object. */
  datatype Receiver = NullReference | Reference(object: nat)

  /** The vtable slot recorded for a call. The emulator never computes a slot: it
      always records JavaMethod's invalid index. */
  datatype VtableIndex = InvalidVtableIndex | VtableSlot(slot: nat)

  /** What CallInfo.setStatic and CallInfo.setVirtual record. */
  datatype CallInfo =
    | StaticCall(resolvedClass: KlassHandle, resolvedMethod: MethodId)
    | VirtualCall(resolvedClass: KlassHandle, receiverClass: KlassHandle,
                  resolvedMethod: MethodId, selectedMethod: MethodId, vtableIndex: VtableIndex)

  /** The result of a static call resolution together with the universe after it
      (class initialisation may have changed it). */
  datatype StaticResolution = StaticResolution(outcome: Outcome<CallInfo>, universe: Universe)

  // The messages the resolver attaches to its errors.

  function FoundInterfaceMessage(className: string): string {
    "Found interface " + className + ", but class was expected"
  }

  const PrivateInterfaceMessage: string :=
    "private interface method requires invokespecial, not invokevirtual: method tmp, caller-class:tmp"

  const NonStaticMessage: string := "Expecting non-static method tmp"

  function ExpectedStaticMessage(className: string, methodName: string, methodDesc: string): string {
    "Expected static method " + className + "." + methodName + methodDesc
  }

  function NoSuchMethodMessage(className: string, methodName: string, methodSignature: string): string {
    className + "." + methodName + methodSignature
  }

  const UnsupportedReason: string := "Unsupported"
  const AbstractReason: string := "asdf"
  const FieldAccessReason: string := "Checking access is unsupported"

  /** The member that interface-method resolution must not take from java/lang/Object:
      one found on an interface that is static or not public and declared by Object. */
  predicate IsHiddenObjectMember(u: Universe, klass: ClassId, m: MethodId) {
    u.isInterface(klass) && (u.isStatic(m) || !u.isPublic(m)) && u.declaringClass(m) == u.javaLangObject
  }

  /** lookupMethodInClasses: the class's own method first, then the inherited one. */
  function LookupMethodInClasses(u: Universe, klass: ClassId, name: string, signature: string,
                                 checkPolymorphism: bool, inImethodResolve: bool): (r: Option<MethodId>)
    // an array class gets exactly its direct lookup, with no inherited fallback
    ensures u.isArray(klass) ==> r == u.uncachedLookupMethod(klass, name, signature)
    // a direct hit is kept unless interface-method mode discards a hidden Object member
    ensures !u.isArray(klass) && u.uncachedLookupMethod(klass, name, signature).Some?
            && !(inImethodResolve && IsHiddenObjectMember(u, klass, u.uncachedLookupMethod(klass, name, signature).value))
            ==> r == u.uncachedLookupMethod(klass, name, signature)
    // the inheritance walk is consulted exactly when nothing direct survives
    ensures !u.isArray(klass) && (u.uncachedLookupMethod(klass, name, signature).None?
            || (inImethodResolve && IsHiddenObjectMember(u, klass, u.uncachedLookupMethod(klass, name, signature).value)))
            ==> r == u.findMethod(klass, name, signature)
  {
    var direct := u.uncachedLookupMethod(klass, name, signature);
    if u.isArray(klass) then direct
    else
      var kept := if inImethodResolve && direct.Some? && IsHiddenObjectMember(u, klass, direct.value) then None else direct;
      // no default-method search and no polymorphism check: both are empty in the source
      if kept.None? then u.findMethod(klass, name, signature) else kept
  }

  /** The method the intrinsic registry offers for a signature-polymorphic name. */
  function RegistryIntrinsic(u: Universe, name: string, fullSignature: string): Option<MethodId> {
    var reg := u.intrinsics;
    var id := reg.nameId(name);
    reg.findMethodHandleIntrinsic(id, reg.basicTypeSignature(fullSignature, reg.isSignaturePolymorphicStatic(id)))
  }

  /** lookupPolymorphicMethod: handle holds the caller's current handle. */
  function LookupPolymorphicMethod(u: Universe, handle: Option<MethodId>, klass: ClassId,
                                   name: string, fullSignature: string): (r: Outcome<Option<MethodId>>)
    ensures klass != u.methodHandleClass ==> r == Ok(handle)
    ensures klass == u.methodHandleClass && !u.intrinsics.isSignaturePolymorphicIntrinsic(u.intrinsics.nameId(name))
            ==> r == Unsupported(UnsupportedReason)
    ensures klass == u.methodHandleClass && u.intrinsics.isSignaturePolymorphicIntrinsic(u.intrinsics.nameId(name))
            ==> r.Ok? && (if RegistryIntrinsic(u, name, fullSignature).Some?
                          then r.value == RegistryIntrinsic(u, name, fullSignature)
                          else r.value == handle)
    // it never fails in any other way
    ensures r.Ok? || r == Unsupported(UnsupportedReason)
  {
    var reg := u.intrinsics;
    var id := reg.nameId(name);
    if klass == u.methodHandleClass then
      if reg.isSignaturePolymorphicIntrinsic(id) then
        var keepLastArg := reg.isSignaturePolymorphicStatic(id);
        var basicSignature := reg.basicTypeSignature(fullSignature, keepLastArg);
        var found := reg.findMethodHandleIntrinsic(id, basicSignature);
        if found.Some? then Ok(found) else Ok(handle)
      else
        Unsupported(UnsupportedReason)
    else
      Ok(handle)
  }

  /** resolveMethod: the interface guard, the class lookup, then (for a non-array
      class whose handle is still empty) the interface stub and the polymorphic lookup. */
  function ResolveMethod(u: Universe, klass: ClassId, name: string, signature: string,
                         checkAccess: bool, requireMethodRef: bool): (r: Outcome<MethodId>)
    // the guard fires before any lookup
    ensures requireMethodRef && u.isInterface(klass)
            ==> r == Throw(IncompatibleClassChangeError, Some(FoundInterfaceMessage(u.className(klass))))
    // the class lookup comes first and wins when it finds something
    ensures !(requireMethodRef && u.isInterface(klass)) && LookupMethodInClasses(u, klass, name, signature, true, false).Some?
            ==> r == Ok(LookupMethodInClasses(u, klass, name, signature, true, false).value)
    // an array class never reaches the polymorphic lookup
    ensures !(requireMethodRef && u.isInterface(klass)) && u.isArray(klass)
            && LookupMethodInClasses(u, klass, name, signature, true, false).None?
            ==> r == Throw(NoSuchMethodError, Some(NoSuchMethodMessage(u.className(klass), name, signature)))
    // otherwise an empty class lookup falls through to the polymorphic lookup
    ensures !(requireMethodRef && u.isInterface(klass)) && !u.isArray(klass)
            && LookupMethodInClasses(u, klass, name, signature, true, false).None?
            ==> r == (match LookupPolymorphicMethod(u, None, klass, name, signature)
                      case Ok(Some(m)) => Ok(m)
                      case Ok(None) => Throw(NoSuchMethodError, Some(NoSuchMethodMessage(u.className(klass), name, signature)))
                      case other => Unsupported(UnsupportedReason))
    ensures r.Ok? && requireMethodRef ==> !u.isInterface(klass)
    ensures r.Throw? ==> r.error == IncompatibleClassChangeError || r.error == NoSuchMethodError
    ensures r.Throw? && r.error == NoSuchMethodError
            ==> r.message == Some(NoSuchMethodMessage(u.className(klass), name, signature))
    ensures r.Unsupported? ==> klass == u.methodHandleClass && !u.isArray(klass)
    ensures !r.Fault?
  {
    if requireMethodRef && u.isInterface(klass) then
      Throw(IncompatibleClassChangeError, Some(FoundInterfaceMessage(u.className(klass))))
    else
      var inClasses := LookupMethodInClasses(u, klass, name, signature, true, false);
      // lookupMethodsInInterfaces is a stub that leaves the handle unchanged
      var searched := if inClasses.None? && !u.isArray(klass)
                      then LookupPolymorphicMethod(u, inClasses, klass, name, signature)
                      else Ok(inClasses);
      if searched.IsFailure() then searched.PropagateFailure()
      else if searched.value.None? then
        Throw(NoSuchMethodError, Some(NoSuchMethodMessage(u.className(klass), name, signature)))
      else
        // access checking is an empty extension point
        Ok(searched.value.value)
  }

  /** Access checking has no effect on method resolution. */
  lemma ResolveMethodIgnoresCheckAccess(u: Universe, klass: ClassId, name: string, signature: string, requireMethodRef: bool)
    ensures ResolveMethod(u, klass, name, signature, true, requireMethodRef)
         == ResolveMethod(u, klass, name, signature, false, requireMethodRef)
  {
  }

  /** The interface guard is decided before any lookup: two universes that agree on
      the class's kind and name give the same outcome, whatever their method tables. */
  lemma InterfaceGuardPrecedesLookup(u: Universe, v: Universe, klass: ClassId, name: string, signature: string, checkAccess: bool)
    requires u.isInterface(klass) && v.isInterface(klass)
    requires u.className(klass) == v.className(klass)
    ensures ResolveMethod(u, klass, name, signature, checkAccess, true)
         == ResolveMethod(v, klass, name, signature, checkAccess, true)
         == Throw(IncompatibleClassChangeError, Some(FoundInterfaceMessage(u.className(klass))))
  {
  }

  /** linktime_resolve_virtual_method: ordinary resolution, then the private-interface
      and static checks. */
  function LinktimeResolveVirtualMethod(u: Universe, klass: ClassId, name: string, signature: string,
                                        checkAccess: bool): (r: Outcome<MethodId>)
    ensures r.Ok? <==> ResolveMethod(u, klass, name, signature, checkAccess, true).Ok?
                       && !u.isStatic(ResolveMethod(u, klass, name, signature, checkAccess, true).value)
    ensures r.Ok? ==> r == ResolveMethod(u, klass, name, signature, checkAccess, true)
    ensures ResolveMethod(u, klass, name, signature, checkAccess, true).IsFailure()
            ==> r == ResolveMethod(u, klass, name, signature, checkAccess, true)
    // the private-interface check can never fire: resolution already refused an interface
    ensures ResolveMethod(u, klass, name, signature, checkAccess, true).Ok? && !r.Ok?
            ==> r == Throw(IncompatibleClassChangeError, Some(NonStaticMessage))
  {
    var resolved := ResolveMethod(u, klass, name, signature, checkAccess, true);
    if resolved.IsFailure() then resolved
    else
      var m := resolved.value;
      if u.isInterface(klass) && u.isPrivate(m) then
        Throw(IncompatibleClassChangeError, Some(PrivateInterfaceMessage))
      else if u.isStatic(m) then
        Throw(IncompatibleClassChangeError, Some(NonStaticMessage))
      else
        resolved
  }

  /** runtime_resolve_virtual_method: the null check, the interface-dispatch
      limitation, then selection, which is always the resolved method. */
  function RuntimeResolveVirtualMethod(u: Universe, resolvedMethod: Option<MethodId>, resolvedKlass: KlassHandle,
                                       recv: Receiver, recvKlass: KlassHandle,
                                       checkNullAndAbstract: bool): (r: Outcome<CallInfo>)
    // a null receiver is refused before the resolved method is even looked at
    ensures checkNullAndAbstract && recv.NullReference? ==> r == Throw(NullPointerException, None)
    ensures !(checkNullAndAbstract && recv.NullReference?) && resolvedMethod.Some?
            && u.isInterface(u.declaringClass(resolvedMethod.value))
            ==> r == Unsupported(UnsupportedReason)
    ensures r.Ok? ==> resolvedMethod.Some?
                      && r.value == VirtualCall(resolvedKlass, recvKlass, resolvedMethod.value,
                                                resolvedMethod.value, InvalidVtableIndex)
    // an abstract selected method fails only under check_null_and_abstract
    ensures r == Unsupported(AbstractReason) ==> checkNullAndAbstract && resolvedMethod.Some? && u.isAbstract(resolvedMethod.value)
    // past the null check, a method of a class succeeds unless checks are on and it is abstract, which fails with "asdf"
    ensures !(checkNullAndAbstract && recv.NullReference?) && resolvedMethod.Some?
            && !u.isInterface(u.declaringClass(resolvedMethod.value))
            ==> (r.Ok? <==> !(checkNullAndAbstract && u.isAbstract(resolvedMethod.value)))
    ensures !(checkNullAndAbstract && recv.NullReference?) && resolvedMethod.Some?
            && !u.isInterface(u.declaringClass(resolvedMethod.value))
            && checkNullAndAbstract && u.isAbstract(resolvedMethod.value)
            ==> r == Unsupported(AbstractReason)
    ensures resolvedMethod.Some? && !u.isInterface(u.declaringClass(resolvedMethod.value)) && !checkNullAndAbstract ==> r.Ok?
    ensures r.Fault? ==> resolvedMethod.None?
  {
    if checkNullAndAbstract && recv.NullReference? then
      Throw(NullPointerException, None)
    else if resolvedMethod.None? then
      Fault(NullDereference)
    else if u.isInterface(u.declaringClass(resolvedMethod.value)) then
      Unsupported(UnsupportedReason)
    else
      // a method of a class is statically bound: the selected method is the resolved
      // one, so the source's "selected method is null" failure cannot happen here
      var selected := resolvedMethod.value;
      if checkNullAndAbstract && u.isAbstract(selected) then
        Unsupported(AbstractReason)
      else
        Ok(VirtualCall(resolvedKlass, recvKlass, resolvedMethod.value, selected, InvalidVtableIndex))
  }

  /** resolve_virtual_call: the link-time phase against the resolved class, then the
      run-time phase against the receiver. */
  function ResolveVirtualCall(u: Universe, recv: Receiver, receiverKlass: KlassHandle, resolvedKlass: KlassHandle,
                              methodName: string, methodSignature: string, currentKlass: KlassHandle,
                              checkAccess: bool, checkNullAndAbstract: bool): (r: Outcome<CallInfo>)
    ensures resolvedKlass.None? ==> r == Fault(NullDereference)
    // link-time errors come before the null-receiver check
    ensures resolvedKlass.Some? && LinktimeResolveVirtualMethod(u, resolvedKlass.value, methodName, methodSignature, checkAccess).IsFailure()
            ==> r == LinktimeResolveVirtualMethod(u, resolvedKlass.value, methodName, methodSignature, checkAccess).PropagateFailure()
    ensures resolvedKlass.Some? && LinktimeResolveVirtualMethod(u, resolvedKlass.value, methodName, methodSignature, checkAccess).Ok?
            && checkNullAndAbstract && recv.NullReference?
            ==> r == Throw(NullPointerException, None)
    // a linked call goes on to run-time resolution with the method found at link time
    ensures resolvedKlass.Some? && LinktimeResolveVirtualMethod(u, resolvedKlass.value, methodName, methodSignature, checkAccess).Ok?
            ==> r == RuntimeResolveVirtualMethod(u, Some(LinktimeResolveVirtualMethod(u, resolvedKlass.value, methodName,
                                                                                      methodSignature, checkAccess).value),
                                                 resolvedKlass, recv, receiverKlass, checkNullAndAbstract)
    // every successful virtual call selects the resolved method, with no vtable slot
    ensures r.Ok? ==> (resolvedKlass.Some?
                       && ResolveMethod(u, resolvedKlass.value, methodName, methodSignature, checkAccess, true).Ok?
                       && r.value == VirtualCall(resolvedKlass, receiverKlass,
                                                 ResolveMethod(u, resolvedKlass.value, methodName, methodSignature, checkAccess, true).value,
                                                 ResolveMethod(u, resolvedKlass.value, methodName, methodSignature, checkAccess, true).value,
                                                 InvalidVtableIndex))
    ensures r.Ok? ==> (!u.isInterface(resolvedKlass.value) && !u.isStatic(r.value.resolvedMethod)
                       && !u.isInterface(u.declaringClass(r.value.resolvedMethod)))
    ensures resolvedKlass.Some? ==> !r.Fault?
  {
    if resolvedKlass.None? then Fault(NullDereference)
    else
      var resolved := LinktimeResolveVirtualMethod(u, resolvedKlass.value, methodName, methodSignature, checkAccess);
      if resolved.IsFailure() then resolved.PropagateFailure()
      else RuntimeResolveVirtualMethod(u, Some(resolved.value), resolvedKlass, recv, receiverKlass, checkNullAndAbstract)
  }

  /** With null checks on, a null receiver makes every successfully linked virtual
      call fail with NullPointerException, whatever the resolved method is declared
      by or whether it is abstract: dispatch is never inspected. */
  lemma NullReceiverPrecedesDispatch(u: Universe, v: Universe, receiverKlass: KlassHandle, resolvedKlass: KlassHandle,
                                     methodName: string, methodSignature: string, currentKlass: KlassHandle, checkAccess: bool,
                                     m: MethodId)
    requires resolvedKlass.Some?
    requires LinktimeResolveVirtualMethod(u, resolvedKlass.value, methodName, methodSignature, checkAccess) == Ok(m)
    ensures ResolveVirtualCall(u, NullReference, receiverKlass, resolvedKlass, methodName, methodSignature, currentKlass, checkAccess, true)
         == RuntimeResolveVirtualMethod(v, Some(m), resolvedKlass, NullReference, receiverKlass, true)
         == Throw(NullPointerException, None)
  {
  }

  /** linktimeResolveStaticMethod: handle is the caller's handle, which the interface
      branch leaves as it is (the source then dereferences it). */
  function LinktimeResolveStaticMethod(u: Universe, handle: Option<MethodId>, klass: ClassId, name: string, desc: string,
                                       checkAccess: bool): (r: Outcome<MethodId>)
    ensures !u.isInterface(klass) ==>
              (r.Ok? <==> ResolveMethod(u, klass, name, desc, checkAccess, false).Ok?
                          && u.isStatic(ResolveMethod(u, klass, name, desc, checkAccess, false).value))
    ensures !u.isInterface(klass) && r.Ok? ==> r == ResolveMethod(u, klass, name, desc, checkAccess, false)
    ensures !u.isInterface(klass) && ResolveMethod(u, klass, name, desc, checkAccess, false).IsFailure()
            ==> r == ResolveMethod(u, klass, name, desc, checkAccess, false)
    // the interface branch does no lookup: an empty handle is dereferenced
    ensures u.isInterface(klass) && handle.None? ==> r == Fault(NullDereference)
    ensures u.isInterface(klass) && handle.Some? ==> (r.Ok? <==> u.isStatic(handle.value)) && (r.Ok? ==> r.value == handle.value)
    ensures r.Ok? ==> u.isStatic(r.value)
    ensures !u.isInterface(klass) && ResolveMethod(u, klass, name, desc, checkAccess, false).Ok? && !r.Ok?
            ==> r == Throw(IncompatibleClassChangeError, Some(ExpectedStaticMessage(u.className(klass),
                                                        u.methodName(ResolveMethod(u, klass, name, desc, checkAccess, false).value),
                                                        u.methodDesc(ResolveMethod(u, klass, name, desc, checkAccess, false).value))))
  {
    var filled :=
      if !u.isInterface(klass) then
        var resolved := ResolveMethod(u, klass, name, desc, checkAccess, false);
        if resolved.IsFailure() then resolved.PropagateFailure() else Ok(Some(resolved.value))
      else
        Ok(handle);
    if filled.IsFailure() then filled.PropagateFailure()
    else if filled.value.None? then Fault(NullDereference)
    else if !u.isStatic(filled.value.value) then
      Throw(IncompatibleClassChangeError,
            Some(ExpectedStaticMessage(u.className(klass), u.methodName(filled.value.value), u.methodDesc(filled.value.value))))
    else
      Ok(filled.value.value)
  }

  /** Whether resolveStaticCall runs the class initialiser: only after a successful
      first resolution, when asked to and when the class needs it. */
  predicate StaticCallInitializes(u: Universe, klass: ClassId, name: string, desc: string, checkAccess: bool, initialize: bool) {
    LinktimeResolveStaticMethod(u, None, klass, name, desc, checkAccess).Ok? && initialize && u.shouldBeInitialized(klass)
  }

  /** resolveStaticCall: resolve, initialise the class when needed, resolve again
      against the initialised universe and record the second result. */
  function ResolveStaticCall(u: Universe, initializer: (Universe, ClassId) -> Universe, resolvedClass: KlassHandle,
                             methodName: string, methodDesc: string, currentClass: KlassHandle,
                             checkAccess: bool, initialize: bool): (r: StaticResolution)
    ensures resolvedClass.None? ==> r.outcome == Fault(NullDereference)
    // a failure of the first resolution is the outcome
    ensures resolvedClass.Some? && LinktimeResolveStaticMethod(u, None, resolvedClass.value, methodName, methodDesc, checkAccess).IsFailure()
            ==> r.outcome == LinktimeResolveStaticMethod(u, None, resolvedClass.value, methodName, methodDesc, checkAccess).PropagateFailure()
    // without initialisation the first resolution's method is recorded
    ensures resolvedClass.Some? && LinktimeResolveStaticMethod(u, None, resolvedClass.value, methodName, methodDesc, checkAccess).Ok?
            && !(initialize && u.shouldBeInitialized(resolvedClass.value))
            ==> r.outcome == Ok(StaticCall(resolvedClass, LinktimeResolveStaticMethod(u, None, resolvedClass.value, methodName,
                                                                                      methodDesc, checkAccess).value))
    // with it, the second resolution against the initialised universe decides
    ensures resolvedClass.Some? && StaticCallInitializes(u, resolvedClass.value, methodName, methodDesc, checkAccess, initialize)
            ==> var second := LinktimeResolveStaticMethod(initializer(u, resolvedClass.value),
                                                          Some(LinktimeResolveStaticMethod(u, None, resolvedClass.value, methodName,
                                                                                           methodDesc, checkAccess).value),
                                                          resolvedClass.value, methodName, methodDesc, checkAccess);
                r.outcome == if second.IsFailure() then second.PropagateFailure() else Ok(StaticCall(resolvedClass, second.value))
    ensures resolvedClass.Some? && !StaticCallInitializes(u, resolvedClass.value, methodName, methodDesc, checkAccess, initialize)
            ==> r.universe == u
    ensures resolvedClass.Some? && StaticCallInitializes(u, resolvedClass.value, methodName, methodDesc, checkAccess, initialize)
            ==> r.universe == initializer(u, resolvedClass.value)
    // the recorded call is a static call whose method is static in the final universe
    ensures r.outcome.Ok? ==> (resolvedClass.Some? && r.outcome.value.StaticCall?
                               && r.outcome.value.resolvedClass == resolvedClass
                               && r.universe.isStatic(r.outcome.value.resolvedMethod))
    // after initialisation the stored method is the second resolution's
    ensures r.outcome.Ok? && StaticCallInitializes(u, resolvedClass.value, methodName, methodDesc, checkAccess, initialize)
            && !r.universe.isInterface(resolvedClass.value)
            ==> ResolveMethod(r.universe, resolvedClass.value, methodName, methodDesc, checkAccess, false)
                == Ok(r.outcome.value.resolvedMethod)
  {
    if resolvedClass.None? then StaticResolution(Fault(NullDereference), u)
    else
      var klass := resolvedClass.value;
      var first := LinktimeResolveStaticMethod(u, None, klass, methodName, methodDesc, checkAccess);
      if first.IsFailure() then StaticResolution(first.PropagateFailure(), u)
      else if initialize && u.shouldBeInitialized(klass) then
        var initialized := initializer(u, klass);
        var second := LinktimeResolveStaticMethod(initialized, Some(first.value), klass, methodName, methodDesc, checkAccess);
        if second.IsFailure() then StaticResolution(second.PropagateFailure(), initialized)
        else StaticResolution(Ok(StaticCall(resolvedClass, second.value)), initialized)
      else
        StaticResolution(Ok(StaticCall(resolvedClass, first.value)), u)
  }

  /** Re-resolution observes what initialisation changed: when the initialised
      universe resolves the name to another static method, that one is recorded; when
      it no longer finds it, the call fails although the first resolution succeeded. */
  lemma StaticCallReResolvesAfterInitialization(u: Universe, initializer: (Universe, ClassId) -> Universe, klass: ClassId,
                                                methodName: string, methodDesc: string, currentClass: KlassHandle,
                                                checkAccess: bool)
    requires StaticCallInitializes(u, klass, methodName, methodDesc, checkAccess, true)
    requires !initializer(u, klass).isInterface(klass)
    ensures var after := initializer(u, klass);
            var again := ResolveMethod(after, klass, methodName, methodDesc, checkAccess, false);
            var r := ResolveStaticCall(u, initializer, Some(klass), methodName, methodDesc, currentClass, checkAccess, true);
            (again.Ok? && after.isStatic(again.value) ==> r.outcome == Ok(StaticCall(Some(klass), again.value)))
            && (again.Throw? ==> r.outcome == again.PropagateFailure())
  {
  }

  /** When initialisation turns the class into an interface, the second resolution
      does no lookup and the method found before initialisation is kept. */
  lemma StaticCallKeepsHandleOnInterface(u: Universe, initializer: (Universe, ClassId) -> Universe, klass: ClassId,
                                         methodName: string, methodDesc: string, currentClass: KlassHandle,
                                         checkAccess: bool)
    requires StaticCallInitializes(u, klass, methodName, methodDesc, checkAccess, true)
    requires initializer(u, klass).isInterface(klass)
    ensures var first := LinktimeResolveStaticMethod(u, None, klass, methodName, methodDesc, checkAccess).value;
            var r := ResolveStaticCall(u, initializer, Some(klass), methodName, methodDesc, currentClass, checkAccess, true);
            initializer(u, klass).isStatic(first) ==> r.outcome == Ok(StaticCall(Some(klass), first))
  {
  }

  // The field-access opcodes of the class-file format.
  const GETSTATIC: int := 178
  const PUTSTATIC: int := 179
  const GETFIELD: int := 180
  const PUTFIELD: int := 181

  predicate IsStaticAccess(bytecode: int) {
    bytecode == GETSTATIC || bytecode == PUTSTATIC
  }

  predicate IsPutAccess(bytecode: int) {
    bytecode == PUTFIELD || bytecode == PUTSTATIC
  }

  /** resolveField: the declaring class of the field, found by the inheritance walk. */
  function ResolveField(u: Universe, resolvedKlass: KlassHandle, field: string, sig: string, currentKlass: KlassHandle,
                        bytecode: int, checkAccess: bool, initializeClass: bool): (r: Outcome<ClassId>)
    ensures resolvedKlass.None? ==> r == Throw(NoSuchFieldError, Some(field))
    ensures resolvedKlass.Some? && u.findField(resolvedKlass.value, field, sig).None? ==> r == Throw(NoSuchFieldError, Some(field))
    ensures r.Ok? <==> resolvedKlass.Some? && u.findField(resolvedKlass.value, field, sig).Some? && !checkAccess
    ensures r.Ok? ==> u.findField(resolvedKlass.value, field, sig) == Some(r.value)
    // with access checking asked for, resolution never returns normally
    ensures checkAccess ==> r == Throw(NoSuchFieldError, Some(field)) || r == Unsupported(FieldAccessReason)
    // a field that is found under access checking always ends in Unsupported
    ensures resolvedKlass.Some? && u.findField(resolvedKlass.value, field, sig).Some? && checkAccess
            ==> r == Unsupported(FieldAccessReason)
  {
    // computed by the source from the opcode, but never used
    var isStatic := IsStaticAccess(bytecode);
    var isPut := IsPutAccess(bytecode);
    if resolvedKlass.None? then Throw(NoSuchFieldError, Some(field))
    else
      var selected := u.findField(resolvedKlass.value, field, sig);
      if selected.None? then Throw(NoSuchFieldError, Some(field))
      else if !checkAccess then Ok(selected.value)
      else Unsupported(FieldAccessReason)
  }

  /** The opcode and the initialisation flag do not change the outcome of field resolution. */
  lemma ResolveFieldIgnoresBytecode(u: Universe, resolvedKlass: KlassHandle, field: string, sig: string, currentKlass: KlassHandle,
                                    checkAccess: bool, bytecode1: int, bytecode2: int, init1: bool, init2: bool)
    ensures ResolveField(u, resolvedKlass, field, sig, currentKlass, bytecode1, checkAccess, init1)
         == ResolveField(u, resolvedKlass, field, sig, currentKlass, bytecode2, checkAccess, init2)
  {
  }
}
