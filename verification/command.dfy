/** The generator-slot wiring of `CodeGeneratorCommandBase`: its constructor
    installs the three naming decorators into the code generator settings,
    `InitializeCustomTypes` replaces a slot with an instance created by the
    assembly loader whenever that slot's descriptor is set, and the
    `TemplateDirectory` property reads and writes the settings' template
    directory.

    The assembly loader is a function parameter: given a descriptor
    (`fullTypeName` or `assemblyName:fullTypeName`) it either yields an
    object, described by the naming contracts its type implements, or fails
    with a message. A C# cast of that object to a contract its type does not
    implement throws; both failures are modelled as an `Outcome` result in
    place of the exception. */
module CodeGeneration {
  import opened Wrappers

  /** The three naming contracts of the code generation library. */
  datatype Contract = IEnumNameGenerator | ITypeNameGenerator | IPropertyNameGenerator

  /** An object created by the assembly loader: an opaque handle and the set
      of naming contracts its runtime type implements. */
  datatype Instance = Instance(handle: nat, contracts: set<Contract>)

  /** What a generator slot holds: one of the three decorators of this
      module, or an object created by the assembly loader. */
  datatype NameGenerator =
    | CustomEnumNameGenerator
    | CustomCSharpTypeNameGenerator
    | CustomCSharpPropertyNameGenerator
    | Loaded(instance: Instance)

  /** Whether a generator can stand where `contract` is expected. */
  predicate Implements(g: NameGenerator, contract: Contract)
  {
    match g
    case CustomEnumNameGenerator => contract == IEnumNameGenerator
    case CustomCSharpTypeNameGenerator => contract == ITypeNameGenerator
    case CustomCSharpPropertyNameGenerator => contract == IPropertyNameGenerator
    case Loaded(instance) => contract in instance.contracts
  }

  /** Why a slot could not be replaced: the loader failed on the descriptor,
      or the object it created does not implement the slot's contract. */
  datatype Error =
    | LoadError(descriptor: string, message: string)
    | InvalidCast(descriptor: string, target: Contract)

  /** `AssemblyLoader.CreateInstance`, as seen from this model. */
  type Loader = string -> Result<Instance, string>

  /** `string.IsNullOrEmpty`, with `None` for null. */
  predicate IsNullOrEmpty(s: Option<string>)
  {
    s.None? || s.value == []
  }

  /** The three slots of the code generator settings. */
  datatype Slots = Slots(
    enumNameGenerator: NameGenerator,
    propertyNameGenerator: NameGenerator,
    typeNameGenerator: NameGenerator)

  /** Every slot holds a generator of its own contract, as the slots' static
      types demand. */
  predicate SlotsValid(s: Slots)
  {
    && Implements(s.enumNameGenerator, IEnumNameGenerator)
    && Implements(s.propertyNameGenerator, IPropertyNameGenerator)
    && Implements(s.typeNameGenerator, ITypeNameGenerator)
  }

  /** What the constructor installs. */
  const CustomSlots := Slots(CustomEnumNameGenerator, CustomCSharpPropertyNameGenerator, CustomCSharpTypeNameGenerator)

  /** `(T)assemblyLoader.CreateInstance(descriptor)`: the loaded object, or
      the error the loader or the cast to `target` raises. A success holds a
      loaded object that implements `target`; it fails exactly when the
      loader fails or the object does not implement `target`. */
  function CreateAs(load: Loader, descriptor: string, target: Contract): (r: Result<NameGenerator, Error>)
    ensures r.Success? <==> load(descriptor).Success? && target in load(descriptor).value.contracts
    ensures r.Success? ==> r.value == Loaded(load(descriptor).value) && Implements(r.value, target)
    ensures r.Failure? ==> r.error.descriptor == descriptor
  {
    match load(descriptor)
    case Failure(message) => Failure(LoadError(descriptor, message))
    case Success(instance) =>
      if target in instance.contracts then Success(Loaded(instance))
      else Failure(InvalidCast(descriptor, target))
  }

  /** One guarded replacement of `InitializeCustomTypes`: the current
      generator when the descriptor is null or empty, otherwise the loaded
      object or the error. */
  function Override(current: NameGenerator, descriptor: Option<string>, target: Contract, load: Loader): Result<NameGenerator, Error>
  {
    if IsNullOrEmpty(descriptor) then Success(current) else CreateAs(load, descriptor.value, target)
  }

  /** Whether the replacement for one slot goes through; it does not depend
      on what the slot held. */
  predicate OverrideSucceeds(descriptor: Option<string>, target: Contract, load: Loader)
  {
    IsNullOrEmpty(descriptor) || CreateAs(load, descriptor.value, target).Success?
  }

  /** The value a slot ends up with when its replacement goes through. */
  function Overridden(current: NameGenerator, descriptor: Option<string>, load: Loader): NameGenerator
    requires IsNullOrEmpty(descriptor) || load(descriptor.value).Success?
  {
    if IsNullOrEmpty(descriptor) then current else Loaded(load(descriptor.value).value)
  }

  /** What `InitializeCustomTypes` does to the slots, and whether it throws:
      the type slot first, then the property slot, then the enum slot; the
      first failure stops it, leaving the slots already replaced as they are. */
  function ApplyCustomTypes(s: Slots, typeDescriptor: Option<string>, propertyDescriptor: Option<string>,
                            enumDescriptor: Option<string>, load: Loader): (Slots, Outcome<Error>)
  {
    match Override(s.typeNameGenerator, typeDescriptor, ITypeNameGenerator, load)
    case Failure(e) => (s, Fail(e))
    case Success(t) =>
      var s1 := s.(typeNameGenerator := t);
      match Override(s1.propertyNameGenerator, propertyDescriptor, IPropertyNameGenerator, load)
      case Failure(e) => (s1, Fail(e))
      case Success(p) =>
        var s2 := s1.(propertyNameGenerator := p);
        match Override(s2.enumNameGenerator, enumDescriptor, IEnumNameGenerator, load)
        case Failure(e) => (s2, Fail(e))
        case Success(g) => (s2.(enumNameGenerator := g), Pass)
  }

  // ---------------------------------------------------------------------------
  // Properties of InitializeCustomTypes
  // ---------------------------------------------------------------------------

  /** It completes exactly when every set descriptor loads an object of its
      slot's contract. */
  lemma ApplyCustomTypesPassesIff(s: Slots, typeDescriptor: Option<string>, propertyDescriptor: Option<string>,
                                  enumDescriptor: Option<string>, load: Loader)
    ensures ApplyCustomTypes(s, typeDescriptor, propertyDescriptor, enumDescriptor, load).1.Pass?
        <==> && OverrideSucceeds(typeDescriptor, ITypeNameGenerator, load)
             && OverrideSucceeds(propertyDescriptor, IPropertyNameGenerator, load)
             && OverrideSucceeds(enumDescriptor, IEnumNameGenerator, load)
  {
  }

  /** When it completes, each slot holds the loaded object if and only if its
      own descriptor is set, and otherwise keeps its old generator: in a
      completed run no slot looks at another slot's descriptor. (A failing
      run is different, see `FailureStopsLaterSlots`.) */
  lemma ApplyCustomTypesReplacesIffSet(s: Slots, typeDescriptor: Option<string>, propertyDescriptor: Option<string>,
                                       enumDescriptor: Option<string>, load: Loader)
    requires ApplyCustomTypes(s, typeDescriptor, propertyDescriptor, enumDescriptor, load).1.Pass?
    ensures var s' := ApplyCustomTypes(s, typeDescriptor, propertyDescriptor, enumDescriptor, load).0;
      && s'.typeNameGenerator == Overridden(s.typeNameGenerator, typeDescriptor, load)
      && s'.propertyNameGenerator == Overridden(s.propertyNameGenerator, propertyDescriptor, load)
      && s'.enumNameGenerator == Overridden(s.enumNameGenerator, enumDescriptor, load)
  {
  }

  /** The type slot, handled first, never depends on the other two
      descriptors, whether or not a later replacement fails. */
  lemma TypeSlotIndependent(s: Slots, typeDescriptor: Option<string>,
                            propertyDescriptor1: Option<string>, enumDescriptor1: Option<string>,
                            propertyDescriptor2: Option<string>, enumDescriptor2: Option<string>, load: Loader)
    ensures ApplyCustomTypes(s, typeDescriptor, propertyDescriptor1, enumDescriptor1, load).0.typeNameGenerator
         == ApplyCustomTypes(s, typeDescriptor, propertyDescriptor2, enumDescriptor2, load).0.typeNameGenerator
  {
  }

  /** An earlier slot's descriptor can keep a later slot from being
      replaced: when the type descriptor is set but fails to load or cast,
      the exception stops the run before the property and enum descriptors
      are looked at, whatever they are, and no slot changes. */
  lemma FailureStopsLaterSlots(s: Slots, typeDescriptor: Option<string>, propertyDescriptor: Option<string>,
                               enumDescriptor: Option<string>, load: Loader)
    requires !OverrideSucceeds(typeDescriptor, ITypeNameGenerator, load)
    ensures ApplyCustomTypes(s, typeDescriptor, propertyDescriptor, enumDescriptor, load).0 == s
    ensures ApplyCustomTypes(s, typeDescriptor, propertyDescriptor, enumDescriptor, load).1.Fail?
  {
  }

  /** A failure leaves the enum slot, handled last, as it was, and names the
      descriptor of a set slot. */
  lemma ApplyCustomTypesFailure(s: Slots, typeDescriptor: Option<string>, propertyDescriptor: Option<string>,
                                enumDescriptor: Option<string>, load: Loader)
    requires ApplyCustomTypes(s, typeDescriptor, propertyDescriptor, enumDescriptor, load).1.Fail?
    ensures var (s', outcome) := ApplyCustomTypes(s, typeDescriptor, propertyDescriptor, enumDescriptor, load);
      && s'.enumNameGenerator == s.enumNameGenerator
      && Some(outcome.error.descriptor) in {typeDescriptor, propertyDescriptor, enumDescriptor}
      && outcome.error.descriptor != []
  {
  }

  /** Whatever the outcome, every slot still holds a generator of its own
      contract: the casts guarantee it for loaded objects. */
  lemma ApplyCustomTypesKeepsValid(s: Slots, typeDescriptor: Option<string>, propertyDescriptor: Option<string>,
                                   enumDescriptor: Option<string>, load: Loader)
    requires SlotsValid(s)
    ensures SlotsValid(ApplyCustomTypes(s, typeDescriptor, propertyDescriptor, enumDescriptor, load).0)
  {
  }

  /** Running it again with the same descriptors and the same loader leaves
      the same slot values: a set slot is overwritten by the loader's value
      for its descriptor again, with nothing of the decorator it replaced
      left in it. The loader is a function here, so the new object that
      each call of `AssemblyLoader.CreateInstance` creates is not told apart
      from the first one. */
  lemma ApplyCustomTypesIdempotent(s: Slots, typeDescriptor: Option<string>, propertyDescriptor: Option<string>,
                                   enumDescriptor: Option<string>, load: Loader)
    requires ApplyCustomTypes(s, typeDescriptor, propertyDescriptor, enumDescriptor, load).1.Pass?
    ensures var s' := ApplyCustomTypes(s, typeDescriptor, propertyDescriptor, enumDescriptor, load).0;
      ApplyCustomTypes(s', typeDescriptor, propertyDescriptor, enumDescriptor, load) == (s', Pass)
  {
    ApplyCustomTypesReplacesIffSet(s, typeDescriptor, propertyDescriptor, enumDescriptor, load);
  }

  // ---------------------------------------------------------------------------
  // The settings object and the command
  // ---------------------------------------------------------------------------

  /** The code generator settings the command configures (the
      `CodeGeneratorSettings` of the command's settings object). */
  class CodeGeneratorSettings {
    var enumNameGenerator: NameGenerator
    var propertyNameGenerator: NameGenerator
    var typeNameGenerator: NameGenerator
    var templateDirectory: Option<string>

    /** Settings as the caller hands them to the command; their initial
        generators come from the code generation library. */
    constructor (enumNameGenerator: NameGenerator, propertyNameGenerator: NameGenerator,
                 typeNameGenerator: NameGenerator, templateDirectory: Option<string>)
      ensures SlotValues() == Slots(enumNameGenerator, propertyNameGenerator, typeNameGenerator)
      ensures this.templateDirectory == templateDirectory
    {
      this.enumNameGenerator := enumNameGenerator;
      this.propertyNameGenerator := propertyNameGenerator;
      this.typeNameGenerator := typeNameGenerator;
      this.templateDirectory := templateDirectory;
    }

    function SlotValues(): Slots
      reads this
    {
      Slots(enumNameGenerator, propertyNameGenerator, typeNameGenerator)
    }
  }

  /** `CodeGeneratorCommandBase`: owns a reference to the settings it
      configures and the three optional generator descriptors. */
  class CodeGeneratorCommandBase {
    const settings: CodeGeneratorSettings
    var typeNameGeneratorType: Option<string>
    var propertyNameGeneratorType: Option<string>
    var enumNameGeneratorType: Option<string>

    /** Every slot of the settings holds a generator of its contract. */
    predicate Valid()
      reads this, settings
    {
      SlotsValid(settings.SlotValues())
    }

    /** Takes the settings and installs the three decorators in their slots;
        the descriptors start out null. */
    constructor (settings: CodeGeneratorSettings)
      modifies settings
      ensures this.settings == settings
      ensures settings.SlotValues() == CustomSlots
      ensures settings.templateDirectory == old(settings.templateDirectory)
      ensures typeNameGeneratorType == None && propertyNameGeneratorType == None && enumNameGeneratorType == None
      ensures Valid()
    {
      this.settings := settings;
      typeNameGeneratorType := None;
      propertyNameGeneratorType := None;
      enumNameGeneratorType := None;
      new;
      settings.enumNameGenerator := CustomEnumNameGenerator;
      settings.propertyNameGenerator := CustomCSharpPropertyNameGenerator;
      settings.typeNameGenerator := CustomCSharpTypeNameGenerator;
    }

    /** The `TemplateDirectory` getter: the settings' template directory. */
    function TemplateDirectory(): Option<string>
      reads this, settings
    {
      settings.templateDirectory
    }

    /** The `TemplateDirectory` setter: writes the settings' template
        directory, so that the getter returns the value set, and nothing
        else. */
    method SetTemplateDirectory(value: Option<string>)
      modifies settings
      ensures TemplateDirectory() == value
      ensures settings.SlotValues() == old(settings.SlotValues())
    {
      settings.templateDirectory := value;
    }

    /** Replaces the type, property and enum slots, in that order, by the
        object the loader creates from the slot's descriptor, for each
        descriptor that is set; the first failure is returned in place of
        the exception the source throws, and the slots replaced before it
        stay replaced. */
    method InitializeCustomTypes(load: Loader) returns (outcome: Outcome<Error>)
      modifies settings
      ensures (settings.SlotValues(), outcome)
           == ApplyCustomTypes(old(settings.SlotValues()), typeNameGeneratorType, propertyNameGeneratorType,
                               enumNameGeneratorType, load)
      ensures settings.templateDirectory == old(settings.templateDirectory)
      ensures old(Valid()) ==> Valid()
    {
      ghost var s := settings.SlotValues();
      if Valid() {
        ApplyCustomTypesKeepsValid(s, typeNameGeneratorType, propertyNameGeneratorType, enumNameGeneratorType, load);
      }
      if !IsNullOrEmpty(typeNameGeneratorType) {
        var r := CreateAs(load, typeNameGeneratorType.value, ITypeNameGenerator);
        if r.Failure? {
          return Fail(r.error);
        }
        settings.typeNameGenerator := r.value;
      }
      if !IsNullOrEmpty(propertyNameGeneratorType) {
        var r := CreateAs(load, propertyNameGeneratorType.value, IPropertyNameGenerator);
        if r.Failure? {
          return Fail(r.error);
        }
        settings.propertyNameGenerator := r.value;
      }
      if !IsNullOrEmpty(enumNameGeneratorType) {
        var r := CreateAs(load, enumNameGeneratorType.value, IEnumNameGenerator);
        if r.Failure? {
          return Fail(r.error);
        }
        settings.enumNameGenerator := r.value;
      }
      outcome := Pass;
    }
  }
}
