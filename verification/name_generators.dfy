/** The three naming decorators installed by the code generation commands
    (`CustomEnumNameGenerator`, `CustomCSharpTypeNameGenerator`,
    `CustomCSharpPropertyNameGenerator`). Each asks the library's default
    generator for a name, rewrites separator-like characters of it to '-',
    and hands the result to `ConversionUtilities.ConvertToUpperCamelCase`
    with `firstCharacterMustBeAlpha = true`.

    The default generators and the casing routine belong to the code
    generation library and are not part of this model: every decorator takes
    its base generator and the casing routine as function parameters, and
    nothing is assumed about what they return. */
module NameGenerators {
  import opened Strings

  /** The character every separator-like character is rewritten to before casing. */
  const Separator: char := '-'

  /** Rewrite rule of the enum decorator: ':' and '_' become the separator. */
  function EnumRule(c: char): string
  {
    if c == ':' || c == '_' then [Separator] else [c]
  }

  /** Rewrite rule of the type decorator: '_' becomes the separator. */
  function TypeRule(c: char): string
  {
    if c == '_' then [Separator] else [c]
  }

  /** Rewrite rule of the property decorator: '_' and '.' become the separator,
      '@' is dropped. */
  function PropertyRule(c: char): string
  {
    if c == '_' || c == '.' then [Separator] else if c == '@' then [] else [c]
  }

  // ---------------------------------------------------------------------------
  // The substitution chains, as the decorators write them
  // ---------------------------------------------------------------------------

  /** `baseString.Replace(":", "-").Replace('_', '-')`: the string the enum
      decorator hands to the casing routine. Same length as the base name,
      every ':' and '_' now a '-', every other character where it was. */
  function EnumPreCasing(baseString: string): (r: string)
    ensures |r| == |baseString|
    ensures ':' !in r && '_' !in r
    ensures forall i :: 0 <= i < |r| ==>
      r[i] == (if baseString[i] == ':' || baseString[i] == '_' then Separator else baseString[i])
  {
    ReplaceChar(ReplaceChar(baseString, ':', '-'), '_', '-')
  }

  /** `baseString.Replace('_', '-')`: the string the type decorator hands to
      the casing routine. */
  function TypePreCasing(baseString: string): (r: string)
    ensures |r| == |baseString|
    ensures '_' !in r
    ensures forall i :: 0 <= i < |r| ==>
      r[i] == (if baseString[i] == '_' then Separator else baseString[i])
  {
    ReplaceChar(baseString, '_', '-')
  }

  /** `baseString.Replace('_', '-').Replace("@", "").Replace(".", "-")`: the
      string the property decorator hands to the casing routine. None of
      '_', '@', '.' survives, and it is shorter than the base name by exactly
      the number of '@' characters in it. */
  function PropertyPreCasing(baseString: string): (r: string)
    ensures '_' !in r && '@' !in r && '.' !in r
    ensures |r| == |baseString| - multiset(baseString)['@']
  {
    var noUnderscore := ReplaceChar(baseString, '_', '-');
    assert multiset(noUnderscore)['@'] == multiset(baseString)['@'] by {
      ReplaceCharKeepsOthers(baseString, '_', '-', '@');
    }
    ReplaceChar(RemoveChar(noUnderscore, '@'), '.', '-')
  }

  /** Replacing one character by another does not change how often a third
      character occurs. */
  lemma {:induction false} ReplaceCharKeepsOthers(s: string, from: char, to: char, x: char)
    requires x != from && x != to
    ensures multiset(ReplaceChar(s, from, to))[x] == multiset(s)[x]
  {
    if s != [] {
      assert s == [s[0]] + s[1..];
      ReplaceCharKeepsOthers(s[1..], from, to, x);
      assert ReplaceChar(s, from, to) == [if s[0] == from then to else s[0]] + ReplaceChar(s[1..], from, to);
    }
  }

  // ---------------------------------------------------------------------------
  // The chains agree with their one-pass rules
  // ---------------------------------------------------------------------------

  /** The two chained replacements of the enum decorator are the one-pass
      rewrite by `EnumRule`. */
  lemma {:induction false} EnumPreCasingIsRule(s: string)
    ensures EnumPreCasing(s) == Substitute(s, EnumRule)
  {
    if s != [] {
      EnumPreCasingIsRule(s[1..]);
      assert EnumPreCasing(s) == EnumRule(s[0]) + EnumPreCasing(s[1..]);
    }
  }

  /** The replacement of the type decorator is the one-pass rewrite by `TypeRule`. */
  lemma {:induction false} TypePreCasingIsRule(s: string)
    ensures TypePreCasing(s) == Substitute(s, TypeRule)
  {
    if s != [] {
      TypePreCasingIsRule(s[1..]);
      assert TypePreCasing(s) == TypeRule(s[0]) + TypePreCasing(s[1..]);
    }
  }

  lemma ReplaceCharCons(x: char, t: string, from: char, to: char)
    ensures ReplaceChar([x] + t, from, to) == [if x == from then to else x] + ReplaceChar(t, from, to)
  {
    assert ([x] + t)[1..] == t;
  }

  lemma RemoveCharCons(x: char, t: string, c: char)
    ensures RemoveChar([x] + t, c) == (if x == c then [] else [x]) + RemoveChar(t, c)
  {
    assert ([x] + t)[1..] == t;
  }

  /** The three chained replacements of the property decorator are the
      one-pass rewrite by `PropertyRule`: each '_' and '.' becomes '-', each
      '@' is deleted, and everything else keeps its order. */
  lemma {:induction false} PropertyPreCasingIsRule(s: string)
    ensures PropertyPreCasing(s) == Substitute(s, PropertyRule)
  {
    if s != [] {
      var x, t := s[0], s[1..];
      assert s == [x] + t;
      var y := if x == '_' then '-' else x;
      ReplaceCharCons(x, t, '_', '-');
      RemoveCharCons(y, ReplaceChar(t, '_', '-'), '@');
      if y != '@' {
        ReplaceCharCons(y, RemoveChar(ReplaceChar(t, '_', '-'), '@'), '.', '-');
      }
      PropertyPreCasingIsRule(t);
    }
  }

  // ---------------------------------------------------------------------------
  // Which strings the chains leave alone; idempotence
  // ---------------------------------------------------------------------------

  /** The enum chain leaves a string unchanged exactly when it holds no ':' and no '_'. */
  lemma EnumPreCasingFixedPoint(s: string)
    ensures EnumPreCasing(s) == s <==> ':' !in s && '_' !in s
  {
    if ':' !in s && '_' !in s {
      assert forall i :: 0 <= i < |s| ==> EnumPreCasing(s)[i] == s[i];
    }
  }

  /** The type chain leaves a string unchanged exactly when it holds no '_'. */
  lemma TypePreCasingFixedPoint(s: string)
    ensures TypePreCasing(s) == s <==> '_' !in s
  {
    if '_' !in s {
      assert forall i :: 0 <= i < |s| ==> TypePreCasing(s)[i] == s[i];
    }
  }

  /** The property chain leaves a string unchanged exactly when it holds none
      of '_', '@', '.'. */
  lemma PropertyPreCasingFixedPoint(s: string)
    ensures PropertyPreCasing(s) == s <==> '_' !in s && '@' !in s && '.' !in s
  {
    if '_' !in s && '@' !in s && '.' !in s {
      PropertyPreCasingIsRule(s);
      SubstituteIdentity(s, PropertyRule);
    }
  }

  /** Rewriting an already rewritten name changes nothing, for each of the
      three decorators. */
  lemma PreCasingIdempotent(s: string)
    ensures EnumPreCasing(EnumPreCasing(s)) == EnumPreCasing(s)
    ensures TypePreCasing(TypePreCasing(s)) == TypePreCasing(s)
    ensures PropertyPreCasing(PropertyPreCasing(s)) == PropertyPreCasing(s)
  {
    EnumPreCasingFixedPoint(EnumPreCasing(s));
    TypePreCasingFixedPoint(TypePreCasing(s));
    PropertyPreCasingFixedPoint(PropertyPreCasing(s));
  }

  /** The enum rewrite splits over concatenation. */
  lemma EnumPreCasingAppend(a: string, b: string)
    ensures EnumPreCasing(a + b) == EnumPreCasing(a) + EnumPreCasing(b)
  {
    EnumPreCasingIsRule(a + b);
    EnumPreCasingIsRule(a);
    EnumPreCasingIsRule(b);
    SubstituteAppend(a, b, EnumRule);
  }

  /** The property rewrite splits over concatenation. */
  lemma PropertyPreCasingAppend(a: string, b: string)
    ensures PropertyPreCasing(a + b) == PropertyPreCasing(a) + PropertyPreCasing(b)
  {
    PropertyPreCasingIsRule(a + b);
    PropertyPreCasingIsRule(a);
    PropertyPreCasingIsRule(b);
    SubstituteAppend(a, b, PropertyRule);
  }

  /** The property rewrite of a one-character string is that character's rule. */
  lemma PropertyPreCasingSingle(x: char)
    ensures PropertyPreCasing([x]) == PropertyRule(x)
  {
    PropertyPreCasingIsRule([x]);
    assert [x][1..] == [];
  }

  /** The rewrites merge names: base names that differ only in which
      separator-like character joins two parts reach the casing routine as
      the same string, so the decorators do not keep apart every pair of
      names the base generator kept apart. */
  lemma PreCasingMergesSeparators(a: string, b: string)
    ensures a + "_" + b != a + "-" + b
    ensures EnumPreCasing(a + "_" + b) == EnumPreCasing(a + ":" + b) == EnumPreCasing(a + "-" + b)
    ensures TypePreCasing(a + "_" + b) == TypePreCasing(a + "-" + b)
    ensures PropertyPreCasing(a + "_" + b) == PropertyPreCasing(a + "." + b) == PropertyPreCasing(a + "-" + b)
    ensures PropertyPreCasing("@" + a) == PropertyPreCasing(a)
  {
    assert (a + "_" + b)[|a|] != (a + "-" + b)[|a|];
    EnumMerges(a, b);
    TypeMerges(a, b);
    PropertyMerges(a, b);
  }

  lemma EnumMerges(a: string, b: string)
    ensures EnumPreCasing(a + "_" + b) == EnumPreCasing(a + ":" + b) == EnumPreCasing(a + "-" + b)
  {
    var u, c, d := a + "_" + b, a + ":" + b, a + "-" + b;
    assert forall i :: 0 <= i < |u| ==> EnumPreCasing(u)[i] == EnumPreCasing(c)[i] == EnumPreCasing(d)[i];
  }

  lemma TypeMerges(a: string, b: string)
    ensures TypePreCasing(a + "_" + b) == TypePreCasing(a + "-" + b)
  {
    var u, d := a + "_" + b, a + "-" + b;
    assert forall i :: 0 <= i < |u| ==> TypePreCasing(u)[i] == TypePreCasing(d)[i];
  }

  lemma PropertyMerges(a: string, b: string)
    ensures PropertyPreCasing(a + "_" + b) == PropertyPreCasing(a + "." + b) == PropertyPreCasing(a + "-" + b)
    ensures PropertyPreCasing("@" + a) == PropertyPreCasing(a)
  {
    PropertyPreCasingSingle('_');
    PropertyPreCasingSingle('.');
    PropertyPreCasingSingle('-');
    PropertyPreCasingSingle('@');
    PropertyPreCasingAppend(a + "_", b);
    PropertyPreCasingAppend(a, "_");
    PropertyPreCasingAppend(a + ".", b);
    PropertyPreCasingAppend(a, ".");
    PropertyPreCasingAppend(a + "-", b);
    PropertyPreCasingAppend(a, "-");
    PropertyPreCasingAppend("@", a);
  }

  /** Two name parts joined by '_' or ':' reach the casing routine of the
      enum decorator joined by '-' (for instance "my_enum:value" becomes
      "my-enum-value"). */
  lemma EnumPreCasingJoins(a: string, b: string, c: string)
    requires ':' !in a + b + c && '_' !in a + b + c
    ensures EnumPreCasing(a + "_" + b + ":" + c) == a + "-" + b + "-" + c
  {
    var s, t := a + "_" + b + ":" + c, a + "-" + b + "-" + c;
    assert |s| == |t|;
    forall i | 0 <= i < |s| ensures EnumPreCasing(s)[i] == t[i] {
      if i < |a| {
        assert s[i] == a[i] == t[i];
      } else if i == |a| {
      } else if i < |a| + 1 + |b| {
        assert s[i] == b[i - |a| - 1] == t[i];
      } else if i == |a| + 1 + |b| {
      } else {
        assert s[i] == c[i - |a| - |b| - 2] == t[i];
      }
    }
  }

  /** A '@' in front of a property name is dropped and a '.' inside it becomes
      '-' (for instance "@odata.type" becomes "odata-type"). */
  lemma PropertyPreCasingJoins(a: string, b: string)
    requires '_' !in a + b && '@' !in a + b && '.' !in a + b
    ensures PropertyPreCasing("@" + a + "." + b) == a + "-" + b
  {
    PropertyPreCasingAppend("@" + a + ".", b);
    PropertyPreCasingAppend("@" + a, ".");
    PropertyPreCasingAppend("@", a);
    PropertyPreCasingSingle('@');
    PropertyPreCasingSingle('.');
    assert forall x :: x in a ==> x in a + b;
    assert forall x :: x in b ==> x in a + b;
    PropertyPreCasingFixedPoint(a);
    PropertyPreCasingFixedPoint(b);
  }

  // ---------------------------------------------------------------------------
  // The decorators
  // ---------------------------------------------------------------------------

  /** `CustomEnumNameGenerator.Generate`: the base name rewritten by
      `EnumRule`, cased, and then every '.' of the cased name turned into '_'.
      The result never holds a '.', and it differs from the cased name only
      where that had a '.'. */
  function CustomEnumGenerate<Schema, Value>(
    baseGenerator: (int, string, Value, Schema) -> string,
    upperCamel: (string, bool) -> string,
    index: int, name: string, value: Value, schema: Schema): (r: string)
    ensures var cased := upperCamel(Substitute(baseGenerator(index, name, value, schema), EnumRule), true);
      && |r| == |cased|
      && '.' !in r
      && forall i :: 0 <= i < |r| ==> r[i] == (if cased[i] == '.' then '_' else cased[i])
  {
    var baseString := baseGenerator(index, name, value, schema);
    EnumPreCasingIsRule(baseString);
    ReplaceChar(upperCamel(EnumPreCasing(baseString), true), '.', '_')
  }

  /** `CustomCSharpTypeNameGenerator.Generate`: the casing routine applied to
      the base name rewritten by `TypeRule`. */
  function CustomTypeGenerate<Schema>(
    baseGenerator: (Schema, string, seq<string>) -> string,
    upperCamel: (string, bool) -> string,
    schema: Schema, typeNameHint: string, reservedTypeNames: seq<string>): (r: string)
    ensures r == upperCamel(Substitute(baseGenerator(schema, typeNameHint, reservedTypeNames), TypeRule), true)
  {
    var baseString := baseGenerator(schema, typeNameHint, reservedTypeNames);
    TypePreCasingIsRule(baseString);
    upperCamel(TypePreCasing(baseString), true)
  }

  /** `CustomCSharpPropertyNameGenerator.Generate`: the casing routine applied
      to the base name rewritten by `PropertyRule`. */
  function CustomPropertyGenerate<Property>(
    baseGenerator: Property -> string,
    upperCamel: (string, bool) -> string,
    property: Property): (r: string)
    ensures r == upperCamel(Substitute(baseGenerator(property), PropertyRule), true)
  {
    var baseString := baseGenerator(property);
    PropertyPreCasingIsRule(baseString);
    upperCamel(PropertyPreCasing(baseString), true)
  }
}
