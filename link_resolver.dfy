/** The resolver as the emulator runs it: each lookup fills the caller's method handle
    (an Option value passed in and handed back), each entry point records its CallInfo
    or ends with an error outcome, and static call resolution may initialise the class
    in the virtual machine between its two resolutions. Every method is proved to
    compute what the functions of Resolution specify. */
module Linker {
  import opened Outcomes
  import opened ClassUniverse
  import opened Resolution

  /** The part of the virtual machine the resolver uses: the current class universe
      and class initialisation. Initialisation runs emulated code, which is not part
      of this model; it is an arbitrary transformer of the universe. */
  class VirtualMachine {
    var universe: Universe
    const initializer: (Universe, ClassId) -> Universe

    constructor (universe: Universe, initializer: (Universe, ClassId) -> Universe)
      ensures this.universe == universe && this.initializer == initializer
    {
      this.universe := universe;
      this.initializer := initializer;
    }

    /** vm.initialize */
    method Initialize(klass: ClassId)
      modifies this
      ensures universe == initializer(old(universe), klass)
    {
      universe := initializer(universe, klass);
    }
  }

  class LinkResolver {
    const vm: VirtualMachine

    constructor (vm: VirtualMachine)
      ensures this.vm == vm
    {
      this.vm := vm;
    }

    /** resolve_virtual_call */
    method ResolveVirtualCall(recv: Receiver, receiverKlass: KlassHandle, resolvedKlass: KlassHandle,
                              methodName: string, methodSignature: string, currentKlass: KlassHandle,
                              checkAccess: bool, checkNullAndAbstract: bool) returns (result: Outcome<CallInfo>)
      ensures result == Resolution.ResolveVirtualCall(vm.universe, recv, receiverKlass, resolvedKlass, methodName,
                                                      methodSignature, currentKlass, checkAccess, checkNullAndAbstract)
      ensures result.Ok? ==> result.value.VirtualCall? && result.value.selectedMethod == result.value.resolvedMethod
                             && result.value.vtableIndex == InvalidVtableIndex
    {
      if resolvedKlass.None? {
        // resolveMethod dereferences the empty class handle
        return Fault(NullDereference);
      }
      var resolvedMethod: Option<MethodId> := None;
      var linked := LinktimeResolveVirtualMethod(resolvedKlass.value, methodName, methodSignature, currentKlass, checkAccess);
      if linked.IsFailure() {
        return linked.PropagateFailure();
      }
      resolvedMethod := Some(linked.value);
      result := RuntimeResolveVirtualMethod(resolvedMethod, resolvedKlass, recv, receiverKlass, checkNullAndAbstract);
    }

    /** linktime_resolve_virtual_method */
    method LinktimeResolveVirtualMethod(resolvedKlass: ClassId, methodName: string, methodSignature: string,
                                        currentKlass: KlassHandle, checkAccess: bool) returns (resolvedMethod: Outcome<MethodId>)
      ensures resolvedMethod == Resolution.LinktimeResolveVirtualMethod(vm.universe, resolvedKlass, methodName,
                                                                        methodSignature, checkAccess)
      ensures resolvedMethod.Ok? ==> !vm.universe.isStatic(resolvedMethod.value)
    {
      resolvedMethod := ResolveMethod(resolvedKlass, methodName, methodSignature, currentKlass, checkAccess, true);
      if resolvedMethod.IsFailure() {
        return;
      }
      var u := vm.universe;
      var m := resolvedMethod.value;
      if u.isInterface(resolvedKlass) && u.isPrivate(m) {
        // never taken: resolveMethod has already refused an interface
        return Throw(IncompatibleClassChangeError, Some(PrivateInterfaceMessage));
      }
      if u.isStatic(m) {
        return Throw(IncompatibleClassChangeError, Some(NonStaticMessage));
      }
    }

    /** runtime_resolve_virtual_method */
    method RuntimeResolveVirtualMethod(resolvedMethod: Option<MethodId>, resolvedKlass: KlassHandle, recv: Receiver,
                                       recvKlass: KlassHandle, checkNullAndAbstract: bool) returns (result: Outcome<CallInfo>)
      ensures result == Resolution.RuntimeResolveVirtualMethod(vm.universe, resolvedMethod, resolvedKlass, recv,
                                                               recvKlass, checkNullAndAbstract)
    {
      var vtableIndex := InvalidVtableIndex;
      var selectedMethod: Option<MethodId> := None;
      if checkNullAndAbstract && recv.NullReference? {
        return Throw(NullPointerException, None);
      }
      if resolvedMethod.None? {
        // resolved_method.get().getDeclaringClass() on an empty handle
        return Fault(NullDereference);
      }
      if vm.universe.isInterface(vm.universe.declaringClass(resolvedMethod.value)) {
        // dispatch of a default or miranda method is not implemented
        return Unsupported(UnsupportedReason);
      }
      selectedMethod := resolvedMethod;
      if selectedMethod.None? {
        // the source's "selected method is null" failure: never reached
        assert false;
        return Unsupported(AbstractReason);
      }
      if checkNullAndAbstract && vm.universe.isAbstract(selectedMethod.value) {
        return Unsupported(AbstractReason);
      }
      result := Ok(VirtualCall(resolvedKlass, recvKlass, resolvedMethod.value, selectedMethod.value, vtableIndex));
    }

    /** resolveStaticCall: the handle is resolved once, and once more into the same
        handle after the class has been initialised. */
    method ResolveStaticCall(resolvedClass: KlassHandle, methodName: string, methodDesc: string,
                             currentClass: KlassHandle, checkAccess: bool, initialize: bool) returns (result: Outcome<CallInfo>)
      modifies vm
      ensures var spec := Resolution.ResolveStaticCall(old(vm.universe), vm.initializer, resolvedClass, methodName,
                                                       methodDesc, currentClass, checkAccess, initialize);
              result == spec.outcome && vm.universe == spec.universe
    {
      if resolvedClass.None? {
        return Fault(NullDereference);
      }
      var klass := resolvedClass.value;
      var resolvedMethod: Option<MethodId> := None;
      var linked := LinktimeResolveStaticMethod(resolvedMethod, klass, methodName, methodDesc, currentClass, checkAccess);
      if linked.IsFailure() {
        return linked.PropagateFailure();
      }
      resolvedMethod := Some(linked.value);
      if initialize && vm.universe.shouldBeInitialized(klass) {
        vm.Initialize(klass);
        linked := LinktimeResolveStaticMethod(resolvedMethod, klass, methodName, methodDesc, currentClass, checkAccess);
        if linked.IsFailure() {
          return linked.PropagateFailure();
        }
        resolvedMethod := Some(linked.value);
      }
      result := Ok(StaticCall(resolvedClass, resolvedMethod.value));
    }

    /** linktimeResolveStaticMethod: resolvedMethod is the caller's handle on entry. */
    method LinktimeResolveStaticMethod(resolvedMethod: Option<MethodId>, resolvedClass: ClassId, methodName: string,
                                       methodDesc: string, currentClass: KlassHandle, checkAccess: bool)
      returns (linked: Outcome<MethodId>)
      ensures linked == Resolution.LinktimeResolveStaticMethod(vm.universe, resolvedMethod, resolvedClass, methodName,
                                                               methodDesc, checkAccess)
      ensures linked.Ok? ==> vm.universe.isStatic(linked.value)
    {
      var handle := resolvedMethod;
      if !vm.universe.isInterface(resolvedClass) {
        var resolved := ResolveMethod(resolvedClass, methodName, methodDesc, currentClass, checkAccess, false);
        if resolved.IsFailure() {
          return resolved.PropagateFailure();
        }
        handle := Some(resolved.value);
      }
      // an interface class is not looked up at all
      if handle.None? {
        // resolvedMethod.get().getMethodNode() on an empty handle
        return Fault(NullDereference);
      }
      var m := handle.value;
      if !vm.universe.isStatic(m) {
        return Throw(IncompatibleClassChangeError,
                     Some(ExpectedStaticMessage(vm.universe.className(resolvedClass), vm.universe.methodName(m),
                                                vm.universe.methodDesc(m))));
      }
      linked := Ok(m);
    }

    /** resolveMethod */
    method ResolveMethod(resolvedClass: ClassId, methodName: string, methodSignature: string, currentClass: KlassHandle,
                         checkAccess: bool, requireMethodRef: bool) returns (resolved: Outcome<MethodId>)
      ensures resolved == Resolution.ResolveMethod(vm.universe, resolvedClass, methodName, methodSignature,
                                                   checkAccess, requireMethodRef)
      ensures requireMethodRef && vm.universe.isInterface(resolvedClass)
              ==> resolved.Throw? && resolved.error == IncompatibleClassChangeError
    {
      var u := vm.universe;
      if requireMethodRef && u.isInterface(resolvedClass) {
        return Throw(IncompatibleClassChangeError, Some(FoundInterfaceMessage(u.className(resolvedClass))));
      }
      var resolvedMethod := LookupMethodInClasses(resolvedClass, methodName, methodSignature, true, false);
      if resolvedMethod.None? && !u.isArray(resolvedClass) {
        resolvedMethod := LookupMethodsInInterfaces(resolvedMethod, resolvedClass, methodName, methodSignature);
        if resolvedMethod.None? {
          var polymorphic := LookupPolymorphicMethod(resolvedMethod, resolvedClass, methodName, methodSignature, currentClass);
          if polymorphic.IsFailure() {
            return polymorphic.PropagateFailure();
          }
          resolvedMethod := polymorphic.value;
        }
      }
      if resolvedMethod.None? {
        return Throw(NoSuchMethodError, Some(NoSuchMethodMessage(u.className(resolvedClass), methodName, methodSignature)));
      }
      // access checking is an empty extension point
      resolved := Ok(resolvedMethod.value);
    }

    /** lookupMethodsInInterfaces: a stub that never changes the handle. */
    method LookupMethodsInInterfaces(result: Option<MethodId>, klass: ClassId, name: string, signature: string)
      returns (handle: Option<MethodId>)
      ensures handle == result
    {
      handle := result;
    }

    /** lookupPolymorphicMethod: result is the caller's handle on entry. */
    method LookupPolymorphicMethod(result: Option<MethodId>, klass: ClassId, name: string, fullSignature: string,
                                   currentClass: KlassHandle) returns (handle: Outcome<Option<MethodId>>)
      ensures handle == Resolution.LookupPolymorphicMethod(vm.universe, result, klass, name, fullSignature)
      ensures klass != vm.universe.methodHandleClass ==> handle == Ok(result)
    {
      var reg := vm.universe.intrinsics;
      var id := reg.nameId(name);
      handle := Ok(result);
      if klass == vm.universe.methodHandleClass {
        if reg.isSignaturePolymorphicIntrinsic(id) {
          var keepLastArg := reg.isSignaturePolymorphicStatic(id);
          var basicSignature := reg.basicTypeSignature(fullSignature, keepLastArg);
          var result1 := reg.findMethodHandleIntrinsic(id, basicSignature);
          if result1.Some? {
            handle := Ok(result1);
          }
        } else {
          handle := Unsupported(UnsupportedReason);
        }
      }
    }

    /** lookupMethodInClasses */
    method LookupMethodInClasses(klass: ClassId, name: string, signature: string, checkPolymorphism: bool,
                                 inImethodResolve: bool) returns (handle: Option<MethodId>)
      ensures handle == Resolution.LookupMethodInClasses(vm.universe, klass, name, signature, checkPolymorphism, inImethodResolve)
      ensures handle.Some? ==> handle == vm.universe.uncachedLookupMethod(klass, name, signature)
                               || handle == vm.universe.findMethod(klass, name, signature)
    {
      var u := vm.universe;
      var resultOop := u.uncachedLookupMethod(klass, name, signature);
      if u.isArray(klass) {
        return resultOop;
      }
      if inImethodResolve && resultOop.Some? && u.isInterface(klass)
         && (u.isStatic(resultOop.value) || !u.isPublic(resultOop.value))
         && u.declaringClass(resultOop.value) == u.javaLangObject {
        resultOop := None;
      }
      if resultOop.None? {
        resultOop := u.findMethod(klass, name, signature);
      }
      // default methods and signature polymorphism are not checked
      handle := resultOop;
    }

    /** resolveField: the field descriptor the source fills is represented by the
        declaring class that the inheritance walk reports. */
    method ResolveField(resolvedKlass: KlassHandle, field: string, sig: string, currentKlass: KlassHandle,
                        bytecode: int, checkAccess: bool, initializeClass: bool) returns (declaring: Outcome<ClassId>)
      ensures declaring == Resolution.ResolveField(vm.universe, resolvedKlass, field, sig, currentKlass, bytecode,
                                                   checkAccess, initializeClass)
      ensures declaring.Ok? ==> !checkAccess
    {
      var isStatic := IsStaticAccess(bytecode);
      var isPut := IsPutAccess(bytecode);
      if resolvedKlass.None? {
        return Throw(NoSuchFieldError, Some(field));
      }
      var selKlass := vm.universe.findField(resolvedKlass.value, field, sig);
      if selKlass.None? {
        return Throw(NoSuchFieldError, Some(field));
      }
      if !checkAccess {
        return Ok(selKlass.value);
      }
      declaring := Unsupported(FieldAccessReason);
    }
  }
}
