/**
 * The reduced generator module: the same legacy and enhanced generators
 * (modelled once, in Legacy and Enhanced, with the escaped separator), a
 * reduced example-value helper, a name-blind field description, constant
 * Swagger placeholders and a router without documentation comments.
 */
module FixedVariant {
  import opened Text
  import opened Wrappers
  import opened Naming
  import opened Descriptor
  import opened FieldHints
  import opened Artifacts
  import TypeMaps
  import Legacy

  // ---------------------------------------------------------------------
  // Example values
  // ---------------------------------------------------------------------

  /** The reduced `switch (type)`: four types have an example, every other string gets the generic one. */
  function ReducedTypeExample(t: string): (r: string)
    ensures r == DefaultExample <==> t !in {"STRING", "INTEGER", "BOOLEAN", "DATE"}
  {
    if t == "STRING" then "\"Sample text\""
    else if t == "INTEGER" then "123"
    else if t == "BOOLEAN" then "true"
    else if t == "DATE" then "\"2024-01-15T10:30:00.000Z\""
    else DefaultExample
  }

  /** The reduced `generateExampleValue(type, fieldName)`: only the name, e-mail and phone tests, then the reduced switch. */
  function ReducedExampleValue(t: string, fieldName: string): string
  {
    var lower := ToLower(fieldName);
    if Contains(lower, "name") then HintExample(NameHint)
    else if Contains(lower, "email") then HintExample(EmailHint)
    else if Contains(lower, "phone") then HintExample(PhoneHint)
    else ReducedTypeExample(t)
  }

  /**
   * The reduced helper agrees with the full one whenever the full one
   * settles on the name, e-mail or phone hint, and whenever no hint applies
   * and the type is one of the four it still knows.
   */
  lemma ReducedAgreesWithFull(t: string, fieldName: string)
    ensures Sniff(fieldName).Some? && Rank(Sniff(fieldName).value) <= 2 ==>
              ReducedExampleValue(t, fieldName) == ExampleValue(t, fieldName)
    ensures Sniff(fieldName).None? && t in {"STRING", "INTEGER", "BOOLEAN", "DATE"} ==>
              ReducedExampleValue(t, fieldName) == ExampleValue(t, fieldName)
  {
  }

  /**
   * A name without the words name, email and phone gets the generic example
   * for TEXT, DECIMAL, FLOAT, ENUM, JSON and every unknown type, whatever
   * other word it contains.
   */
  lemma ReducedFallsBack(t: string, fieldName: string)
    requires !Hits(ToLower(fieldName), NameHint) && !Hits(ToLower(fieldName), EmailHint) && !Hits(ToLower(fieldName), PhoneHint)
    ensures ReducedExampleValue(t, fieldName) == DefaultExample <==> t !in {"STRING", "INTEGER", "BOOLEAN", "DATE"}
  {
  }

  /** In "cost" the price test is the first that succeeds. */
  lemma CostIsFirstHit()
    ensures FirstHit("cost", PriceHint)
  {
    NotContains("cost", "name");
    NotContains("cost", "email");
    NotContains("cost", "phone");
    NotContains("cost", "url");
    NotContains("cost", "link");
    NotContains("cost", "description");
    NotContains("cost", "title");
    NotContains("cost", "address");
    ContainsAt("cost", "cost", 0);
  }

  /** A DECIMAL column called "cost": the full helper shows the price example, the reduced one the generic example. */
  lemma CostExamplesDiffer()
    ensures ExampleValue("DECIMAL", "cost") == HintExample(PriceHint)
    ensures ReducedExampleValue("DECIMAL", "cost") == DefaultExample
    ensures HintExample(PriceHint) != DefaultExample
  {
    assert ToLower("cost") == "cost";
    CostIsFirstHit();
    FirstHitDecides("cost", PriceHint, "DECIMAL", "DECIMAL", false);
  }

  // ---------------------------------------------------------------------
  // Field descriptions
  // ---------------------------------------------------------------------

  /**
   * The marker this copy writes before every description: the UTF-8 bytes
   * of the memo emoji read as Mac Roman, i.e. U+F8FF U+00FC U+00EC U+00F9.
   */
  const MangledMarker := "\U{F8FF}\U{FC}\U{EC}\U{F9}"

  /** The name-blind `generateFieldDescription(fieldName, dataType, isNullable)`. */
  function BlindFieldDescription(fieldName: string, t: string, nullable: bool): (r: string)
    ensures EndsWith(r, OptionalSuffix) <==> nullable
    ensures EndsWith(r, RequiredSuffix) <==> !nullable
  {
    var r := MangledMarker + " " + fieldName + " field" + NullableText(nullable);
    assert r[|r| - 11..] == NullableText(nullable);
    r
  }

  /**
   * The description reads neither the type nor the name's words, and when no
   * hint applies it has the full description's text after the marker: the
   * full one starts with the type's marker, this one with the mangled one.
   */
  lemma BlindDescriptionAgreesAfterMarker(fieldName: string, t1: string, t2: string, nullable: bool)
    requires Sniff(fieldName).None?
    ensures BlindFieldDescription(fieldName, t1, nullable) == BlindFieldDescription(fieldName, t2, nullable)
    ensures BlindFieldDescription(fieldName, t1, nullable)[..|MangledMarker|] == MangledMarker
    ensures FieldDescription(fieldName, t1, nullable)[..|TypeMarker(t1)|] == TypeMarker(t1)
    ensures BlindFieldDescription(fieldName, t1, nullable)[|MangledMarker|..]
            == FieldDescription(fieldName, t1, nullable)[|TypeMarker(t1)|..]
  {
    assert FieldDescription(fieldName, t1, nullable) == GenericPhrase(fieldName, t1) + NullableText(nullable);
    SameAfterMarker(MangledMarker, TypeMarker(t1), fieldName, NullableText(nullable));
  }

  /** Two descriptions that differ only in their leading marker agree once the marker is dropped. */
  lemma SameAfterMarker(m1: string, m2: string, fieldName: string, suffix: string)
    ensures (m1 + " " + fieldName + " field" + suffix)[..|m1|] == m1
    ensures (m2 + " " + fieldName + " field" + suffix)[..|m2|] == m2
    ensures (m1 + " " + fieldName + " field" + suffix)[|m1|..] == (m2 + " " + fieldName + " field" + suffix)[|m2|..]
  {
    var x1 := m1 + " " + fieldName + " field" + suffix;
    var x2 := m2 + " " + fieldName + " field" + suffix;
    var tail1, tail2 := x1[|m1|..], x2[|m2|..];
    assert |tail1| == |tail2|;
    forall i | 0 <= i < |tail1| ensures tail1[i] == tail2[i] {
    }
  }

  // ---------------------------------------------------------------------
  // Swagger placeholders
  // ---------------------------------------------------------------------

  datatype PlaceholderDoc = PlaceholderDoc(paths: string, requestSchemas: string, responseSchemas: string, combined: string)

  const CombinedPrefix := "# Swagger documentation for "

  /** `generateSwaggerSchemas(tableName, primaryKey, columns)` of this copy. */
  function PlaceholderSchemas(tableName: string, primaryKey: string, columns: seq<Column>): PlaceholderDoc
  {
    PlaceholderDoc("Swagger paths generated", "Swagger request schemas generated", "Swagger response schemas generated",
      CombinedPrefix + Capitalize(tableName))
  }

  /** The stand-alone section generators take no input and return constants. */
  function PlaceholderPaths(): string { "Swagger paths" }
  function PlaceholderRequestSchemas(): string { "Request schemas" }
  function PlaceholderResponseSchemas(): string { "Response schemas" }

  /**
   * The three sections do not depend on the input, and the combined text
   * depends on the table name only through its capitalised form: two
   * names give the same document exactly when they capitalise alike.
   */
  lemma PlaceholdersDependOnlyOnCapitalizedName(t1: string, pk1: string, c1: seq<Column>, t2: string, pk2: string, c2: seq<Column>)
    ensures var d1 := PlaceholderSchemas(t1, pk1, c1);
            var d2 := PlaceholderSchemas(t2, pk2, c2);
            d1.paths == d2.paths && d1.requestSchemas == d2.requestSchemas && d1.responseSchemas == d2.responseSchemas
            && (d1 == d2 <==> Capitalize(t1) == Capitalize(t2))
  {
    var d1 := PlaceholderSchemas(t1, pk1, c1);
    var d2 := PlaceholderSchemas(t2, pk2, c2);
    if d1.combined == d2.combined {
      assert Capitalize(t1) == d1.combined[|CombinedPrefix|..];
      assert Capitalize(t2) == d2.combined[|CombinedPrefix|..];
    }
  }

  /** The bundle's sections are not the stand-alone generators' texts: "Swagger paths generated" is not "Swagger paths", and so on. */
  lemma PlaceholdersDisagree(tableName: string, primaryKey: string, columns: seq<Column>)
    ensures var d := PlaceholderSchemas(tableName, primaryKey, columns);
            d.paths != PlaceholderPaths() && d.requestSchemas != PlaceholderRequestSchemas()
            && d.responseSchemas != PlaceholderResponseSchemas()
  {
    var d := PlaceholderSchemas(tableName, primaryKey, columns);
    assert |d.paths| != |PlaceholderPaths()|;
    assert |d.requestSchemas| != |PlaceholderRequestSchemas()|;
    assert |d.responseSchemas| != |PlaceholderResponseSchemas()|;
  }

  // ---------------------------------------------------------------------
  // Legacy router
  // ---------------------------------------------------------------------

  /** `generateRoutes(modelName)` of this copy: the four bindings with no documentation. */
  function PlainRoutes(modelName: string): RouterDef
  {
    RouterDef(modelName + "Controller", "../controller/" + Lower(modelName) + ".controller", None, [
      Route(Get, "/", "getAll" + modelName + "s", None),
      Route(Post, "/", "create" + modelName, None),
      Route(Put, "/:id", "update" + modelName, None),
      Route(Delete, "/:id", "delete" + modelName, None)
    ])
  }

  /** A router with its tag and route comments removed. */
  function StripDocs(r: RouterDef): RouterDef
  {
    RouterDef(r.controllerVar, r.controllerModule, None,
      seq(|r.routes|, i requires 0 <= i < |r.routes| => r.routes[i].(doc := None)))
  }

  /**
   * This router is the documented legacy router with its comments removed:
   * the same controller, the same four bindings in the same order, and no
   * documentation.
   */
  lemma PlainRoutesAreStrippedLegacy(modelName: string)
    ensures PlainRoutes(modelName) == StripDocs(Legacy.Routes(modelName))
    ensures Bindings(PlainRoutes(modelName)) == [(Get, "/"), (Post, "/"), (Put, "/:id"), (Delete, "/:id")]
    ensures forall i :: 0 <= i < |PlainRoutes(modelName).routes| ==> PlainRoutes(modelName).routes[i].doc.None?
  {
    Legacy.RouteTable(modelName);
  }
}
