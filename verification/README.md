# NSwag code generation commands: naming decorators and generator slots

This project models, in Dafny, the core of
`src/NSwag.Commands/Commands/CodeGeneration/CodeGeneratorCommandBase.cs` in NSwag.
The file has two parts, and the model follows both:

* **Three naming decorators.** `CustomEnumNameGenerator`,
  `CustomCSharpTypeNameGenerator` and `CustomCSharpPropertyNameGenerator`
  each take the name produced by the library's default generator.
  Each rewrites separator-like characters of that name to `-`.
  Each then passes the result to `ConversionUtilities.ConvertToUpperCamelCase`
  with `firstCharacterMustBeAlpha = true`.
  The enum decorator also turns every `.` of the cased name into `_`.
  These are pure functions over `string` (`seq<char>`), in
  `name_generators.dfy`. They are built on the two forms of `string.Replace`
  they use, in `strings.dfy`.
* **Generator-slot wiring.** The `CodeGeneratorCommandBase` constructor
  installs the three decorators into the enum, property and type slots of
  the code generator settings. `InitializeCustomTypes` then replaces a slot
  with an object created by the assembly loader, but only when that slot's
  descriptor string is neither null nor empty. The `TemplateDirectory`
  property forwards to the settings. The settings and the command are
  classes whose methods update fields in place, in `command.dfy`.

The default generators, `ConvertToUpperCamelCase` and
`AssemblyLoader.CreateInstance` are library code. They are not part of this
model: each is a function parameter, and nothing is assumed about what it
returns. A C# `null` string is `None` of `Option<string>` (`wrappers.dfy`).
The exceptions that `InitializeCustomTypes` can raise are modelled as an
`Outcome` result: a loader failure, or a cast of the created object to a
contract its type does not implement.

Each substitution chain is written as the source chains its `Replace`
calls. Each is then proved equal to a single left-to-right pass with a
per-character rule (`EnumRule`, `TypeRule`, `PropertyRule`). The method
`InitializeCustomTypes` is proved against the function `ApplyCustomTypes`,
and the slot properties are lemmas about that function.

Behaviour of the code that the model keeps:

* The code has no empty-name check. An empty base name is rewritten and
  cased like any other.
* The rewrite does not keep apart every pair of names that the base
  generator kept apart. For example, `a_b`, `a:b` and `a-b` all reach the
  casing routine of the enum decorator as `a-b`.
  `PreCasingMergesSeparators` states these merges.
* `InitializeCustomTypes` can be called any number of times. A second call
  with the same descriptors leaves the same slot values. Each call creates
  a new object in the source; the model does not tell these objects apart.
* In a completed run, each slot depends only on its own descriptor. A
  failing run is different. When the type descriptor fails, the exception
  stops the run, and the property and enum descriptors are never applied
  (`FailureStopsLaterSlots`). The type slot, handled first, never depends on
  the other descriptors (`TypeSlotIndependent`).

## Model

| member | source | states |
|---|---|---|
| `Strings.ReplaceChar` | src/NSwag.Commands/Commands/CodeGeneration/CodeGeneratorCommandBase.cs:52-53 | `s.Replace(from, to)` for single characters: the same length, `to` wherever `s` had `from`, every other character unchanged, and no `from` left |
| `Strings.RemoveChar` | src/NSwag.Commands/Commands/CodeGeneration/CodeGeneratorCommandBase.cs:71 | `s.Replace("@", "")`: the result is one pass that drops the character and keeps every other character in order; so exactly its occurrences go (multiset) and the length drops by their count |
| `NameGenerators.EnumPreCasing` | src/NSwag.Commands/Commands/CodeGeneration/CodeGeneratorCommandBase.cs:33-35 | the string the enum decorator hands to casing has the base name's length, no `:` or `_`, `-` at every position that held `:` or `_`, and every other character unchanged |
| `NameGenerators.TypePreCasing` | src/NSwag.Commands/Commands/CodeGeneration/CodeGeneratorCommandBase.cs:51-53 | the string the type decorator hands to casing has the base name's length, no `_`, `-` for each `_`, every other character unchanged |
| `NameGenerators.PropertyPreCasing` | src/NSwag.Commands/Commands/CodeGeneration/CodeGeneratorCommandBase.cs:69-72 | the string the property decorator hands to casing holds no `_`, `@` or `.`, and its length is the base length minus the number of `@` |
| `NameGenerators.EnumPreCasingIsRule` | src/NSwag.Commands/Commands/CodeGeneration/CodeGeneratorCommandBase.cs:34-35 | the chained `Replace(":", "-").Replace('_', '-')` equals one pass of the rule ":" and "_" to "-" |
| `NameGenerators.TypePreCasingIsRule` | src/NSwag.Commands/Commands/CodeGeneration/CodeGeneratorCommandBase.cs:52-53 | `Replace('_', '-')` equals one pass of the rule "_" to "-" |
| `NameGenerators.PropertyPreCasingIsRule` | src/NSwag.Commands/Commands/CodeGeneration/CodeGeneratorCommandBase.cs:70-72 | the three chained replacements equal one pass mapping `_` and `.` to `-` and deleting `@`, with all other characters kept in order |
| `NameGenerators.EnumPreCasingAppend` | src/NSwag.Commands/Commands/CodeGeneration/CodeGeneratorCommandBase.cs:34-35 | the enum rewrite of a concatenation is the concatenation of the rewrites |
| `NameGenerators.PropertyPreCasingAppend` | src/NSwag.Commands/Commands/CodeGeneration/CodeGeneratorCommandBase.cs:70-72 | the property rewrite of a concatenation is the concatenation of the rewrites |
| `NameGenerators.EnumPreCasingFixedPoint` | src/NSwag.Commands/Commands/CodeGeneration/CodeGeneratorCommandBase.cs:34-35 | the enum rewrite leaves a string unchanged if and only if it holds no `:` and no `_` |
| `NameGenerators.TypePreCasingFixedPoint` | src/NSwag.Commands/Commands/CodeGeneration/CodeGeneratorCommandBase.cs:52-53 | the type rewrite leaves a string unchanged if and only if it holds no `_` |
| `NameGenerators.PropertyPreCasingFixedPoint` | src/NSwag.Commands/Commands/CodeGeneration/CodeGeneratorCommandBase.cs:70-72 | the property rewrite leaves a string unchanged if and only if it holds none of `_`, `@`, `.` |
| `NameGenerators.PreCasingIdempotent` | src/NSwag.Commands/Commands/CodeGeneration/CodeGeneratorCommandBase.cs:33-72 | applying any of the three rewrites to its own output changes nothing |
| `NameGenerators.PreCasingMergesSeparators` | src/NSwag.Commands/Commands/CodeGeneration/CodeGeneratorCommandBase.cs:33-72 | distinct base names that differ only in the separator used (`_`, `:`, `.`, `-`) or in a leading `@` reach casing as the same string |
| `NameGenerators.EnumPreCasingJoins` | src/NSwag.Commands/Commands/CodeGeneration/CodeGeneratorCommandBase.cs:34-35 | parts joined by `_` and `:` (such as `my_enum:value`) reach casing joined by `-` (`my-enum-value`) |
| `NameGenerators.PropertyPreCasingJoins` | src/NSwag.Commands/Commands/CodeGeneration/CodeGeneratorCommandBase.cs:70-72 | a leading `@` is dropped and an inner `.` becomes `-` (`@odata.type` reaches casing as `odata-type`) |
| `NameGenerators.CustomEnumGenerate` | src/NSwag.Commands/Commands/CodeGeneration/CodeGeneratorCommandBase.cs:30-37 | the enum name holds no `.`, and it is the cased one-pass rewrite of the base name (casing called with `true`) with each `.` mapped to `_` and every other character kept |
| `NameGenerators.CustomTypeGenerate` | src/NSwag.Commands/Commands/CodeGeneration/CodeGeneratorCommandBase.cs:49-54 | the type name is the casing routine, called with `true`, applied to the one-pass `TypeRule` rewrite of the base name |
| `NameGenerators.CustomPropertyGenerate` | src/NSwag.Commands/Commands/CodeGeneration/CodeGeneratorCommandBase.cs:66-73 | the property name is the casing routine, called with `true`, applied to the one-pass `PropertyRule` rewrite of the base name |
| `CodeGeneration.CreateAs` | src/NSwag.Commands/Commands/CodeGeneration/CodeGeneratorCommandBase.cs:118-119 | creating and casting succeeds exactly when the loader yields an object implementing the slot's contract, and then gives that object; a failure names the descriptor |
| `CodeGeneration.ApplyCustomTypesPassesIff` | src/NSwag.Commands/Commands/CodeGeneration/CodeGeneratorCommandBase.cs:114-133 | initialisation completes if and only if every set descriptor loads an object of its slot's contract |
| `CodeGeneration.ApplyCustomTypesReplacesIffSet` | src/NSwag.Commands/Commands/CodeGeneration/CodeGeneratorCommandBase.cs:116-132 | after a completed initialisation each slot holds the loaded object if and only if its own descriptor is non-null and non-empty, and otherwise keeps its old generator |
| `CodeGeneration.TypeSlotIndependent` | src/NSwag.Commands/Commands/CodeGeneration/CodeGeneratorCommandBase.cs:116-120 | the type slot's new value never depends on the property or enum descriptor |
| `CodeGeneration.FailureStopsLaterSlots` | src/NSwag.Commands/Commands/CodeGeneration/CodeGeneratorCommandBase.cs:116-132 | when the type descriptor is set but fails, the run fails with no slot changed, whatever the property and enum descriptors are |
| `CodeGeneration.ApplyCustomTypesFailure` | src/NSwag.Commands/Commands/CodeGeneration/CodeGeneratorCommandBase.cs:114-133 | on failure the enum slot is unchanged and the error names a non-empty descriptor of one of the three slots |
| `CodeGeneration.ApplyCustomTypesKeepsValid` | src/NSwag.Commands/Commands/CodeGeneration/CodeGeneratorCommandBase.cs:116-132 | whatever the outcome, every slot still holds a generator of its own contract |
| `CodeGeneration.ApplyCustomTypesIdempotent` | src/NSwag.Commands/Commands/CodeGeneration/CodeGeneratorCommandBase.cs:114-133 | repeating a completed initialisation with the same descriptors and loader leaves the same slot values and completes again |
| `CodeGeneration.CodeGeneratorCommandBase.constructor` | src/NSwag.Commands/Commands/CodeGeneration/CodeGeneratorCommandBase.cs:79-86 | the command keeps the given settings, whose enum, property and type slots then hold the enum, property and type decorators; the template directory is untouched and the descriptors are null |
| `CodeGeneration.CodeGeneratorCommandBase.SetTemplateDirectory` | src/NSwag.Commands/Commands/CodeGeneration/CodeGeneratorCommandBase.cs:92-96 | after setting, the getter returns the value set; the generator slots are unchanged |
| `CodeGeneration.CodeGeneratorCommandBase.InitializeCustomTypes` | src/NSwag.Commands/Commands/CodeGeneration/CodeGeneratorCommandBase.cs:114-133 | the new slots and the outcome are those of `ApplyCustomTypes` on the old slots; the template directory is unchanged and slot validity is preserved |

## Left out

- `ConversionUtilities.ConvertToUpperCamelCase` is a parameter with no assumed behaviour. Its splitting, capitalisation and digit-prefix rules are library code, so no UpperCamelCase property of the final names is claimed.
- `DefaultEnumNameGenerator`, `DefaultTypeNameGenerator` and `CSharpPropertyNameGenerator` are parameters. Their uniqueness handling (reserved type names) is library code, and no collision avoidance is assumed.
- `AssemblyLoader.CreateInstance` is a deterministic function parameter, so a repeated call gives the same value rather than a new object of the same type. Assembly loading, reflection and the parsing of `assemblyName:fullTypeName` happen inside the loader, which is not part of this model. A new object per call and a loader that returns null are not captured.
- Object identity of the decorator instances: a slot holds a value naming the decorator, not a freshly allocated object.
- The settings hierarchy: `TSettings.CodeGeneratorSettings` is one `CodeGeneratorSettings` class. It has a plain constructor, standing in for the library settings the caller creates.
- `string.Replace` in general: only the forms with a one-character old value and a one-character or empty new value are modelled, because those are the only ones the decorators use.
- Command-line `[Argument]` metadata, `[JsonIgnore]` serialisation and the file I/O of `InputOutputCommandBase`: these are plumbing and have no logic to model.
