/** The class metadata the resolver consults. The emulator's loaded classes, their
    methods and the method-handle intrinsic registry are not part of this model, so
    each query is a field of function type: the model holds for every universe. */
module ClassUniverse {
  import opened Outcomes

  /** Identities of loaded classes, methods and intrinsics (compared by identity). */
  type ClassId = nat
  type MethodId = nat
  type IntrinsicId = nat

  /** A KlassHandle: a class reference that may be empty. */
  type KlassHandle = Option<ClassId>

  /** The signature-polymorphic intrinsic registry (JavaMethodHandle and
      MethodHandleNatives). A registry lookup answer of None stands for a null
      handle or for a handle that holds no method. The source leaves the caller's
      handle as is for the first and stores the empty method for the second; the two
      agree because resolveMethod, the only caller, passes an empty handle. */
  datatype IntrinsicRegistry = IntrinsicRegistry(
    nameId: string -> IntrinsicId,
    isSignaturePolymorphicIntrinsic: IntrinsicId -> bool,
    isSignaturePolymorphicStatic: IntrinsicId -> bool,
    basicTypeSignature: (string, bool) -> string,
    findMethodHandleIntrinsic: (IntrinsicId, string) -> Option<MethodId>
  )

  /** Read-only queries over the loaded classes and their methods. */
  datatype Universe = Universe(
    className: ClassId -> string,
    isInterface: ClassId -> bool,
    isArray: ClassId -> bool,
    shouldBeInitialized: ClassId -> bool,
    /** The class's own declared method (no walk of the supertypes). */
    uncachedLookupMethod: (ClassId, string, string) -> Option<MethodId>,
    /** The method found by walking the inheritance chain. */
    findMethod: (ClassId, string, string) -> Option<MethodId>,
    /** The declaring class of a field found by walking the inheritance chain. */
    findField: (ClassId, string, string) -> Option<ClassId>,
    methodName: MethodId -> string,
    methodDesc: MethodId -> string,
    declaringClass: MethodId -> ClassId,
    isStatic: MethodId -> bool,
    isPrivate: MethodId -> bool,
    isPublic: MethodId -> bool,
    isAbstract: MethodId -> bool,
    /** The system dictionary's java/lang/Object and java/lang/invoke/MethodHandle. */
    javaLangObject: ClassId,
    methodHandleClass: ClassId,
    intrinsics: IntrinsicRegistry
  )
}
