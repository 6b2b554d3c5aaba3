/**
 * Field-name sniffing: the example value and the description the
 * documentation shows for a field are chosen first by words found in the
 * lower-cased field name, tested in a fixed order, and only when none is
 * found by the column's type.
 */
module FieldHints {
  import opened Text
  import opened Wrappers
  import TypeMaps

  /** What a field name can reveal about the field, in the order the tests run. */
  datatype Hint =
    | NameHint | EmailHint | PhoneHint | LinkHint | DescriptionHint
    | TitleHint | AddressHint | PriceHint | CountHint

  /** The position of a hint's test in the sequence of tests. */
  function Rank(h: Hint): nat
  {
    match h
    case NameHint => 0
    case EmailHint => 1
    case PhoneHint => 2
    case LinkHint => 3
    case DescriptionHint => 4
    case TitleHint => 5
    case AddressHint => 6
    case PriceHint => 7
    case CountHint => 8
  }

  /** The hint's test: one of its words occurs in the lower-cased field name. */
  predicate Hits(lower: string, h: Hint)
  {
    match h
    case NameHint => Contains(lower, "name")
    case EmailHint => Contains(lower, "email")
    case PhoneHint => Contains(lower, "phone")
    case LinkHint => Contains(lower, "url") || Contains(lower, "link")
    case DescriptionHint => Contains(lower, "description")
    case TitleHint => Contains(lower, "title")
    case AddressHint => Contains(lower, "address")
    case PriceHint => Contains(lower, "price") || Contains(lower, "cost") || Contains(lower, "amount")
    case CountHint => Contains(lower, "count") || Contains(lower, "quantity") || Contains(lower, "number")
  }

  /**
   * The chain of `lowerFieldName.includes(...)` tests. The first test that
   * succeeds decides: the result is a hint whose word occurs and no hint
   * tested earlier has a word that occurs; with no result, no word occurs.
   */
  function SniffLower(lower: string): (r: Option<Hint>)
    ensures r.Some? ==> Hits(lower, r.value) && forall h :: Rank(h) < Rank(r.value) ==> !Hits(lower, h)
    ensures r.None? ==> forall h :: !Hits(lower, h)
  {
    if Contains(lower, "name") then Some(NameHint)
    else if Contains(lower, "email") then Some(EmailHint)
    else if Contains(lower, "phone") then Some(PhoneHint)
    else if Contains(lower, "url") || Contains(lower, "link") then Some(LinkHint)
    else if Contains(lower, "description") then Some(DescriptionHint)
    else if Contains(lower, "title") then Some(TitleHint)
    else if Contains(lower, "address") then Some(AddressHint)
    else if Contains(lower, "price") || Contains(lower, "cost") || Contains(lower, "amount") then Some(PriceHint)
    else if Contains(lower, "count") || Contains(lower, "quantity") || Contains(lower, "number") then Some(CountHint)
    else None
  }

  /** The hint of a field name, tested on `fieldName.toLowerCase()`. */
  function Sniff(fieldName: string): Option<Hint>
  {
    SniffLower(ToLower(fieldName))
  }

  /** The hint that wins for `lower`: it hits, and no hint of smaller rank hits. */
  predicate FirstHit(lower: string, h: Hint)
  {
    Hits(lower, h) && forall g :: Rank(g) < Rank(h) ==> !Hits(lower, g)
  }

  /** The first hit is unique, and it is what the test chain returns. */
  lemma SniffIsFirstHit(fieldName: string, h: Hint)
    requires FirstHit(ToLower(fieldName), h)
    ensures Sniff(fieldName) == Some(h)
  {
    var lower := ToLower(fieldName);
    var r := SniffLower(lower);
    assert r.Some?;
    var g := r.value;
    assert Rank(h) <= Rank(g);
    assert Rank(g) <= Rank(h);
    assert g == h by {
      match g
      case NameHint =>
      case EmailHint =>
      case PhoneHint =>
      case LinkHint =>
      case DescriptionHint =>
      case TitleHint =>
      case AddressHint =>
      case PriceHint =>
      case CountHint =>
    }
  }

  /** `generateExampleValue`'s answer for a hint. */
  function HintExample(h: Hint): string
  {
    match h
    case NameHint => "\"Sample Name\""
    case EmailHint => "\"user@example.com\""
    case PhoneHint => "\"+1234567890\""
    case LinkHint => "\"https://example.com\""
    case DescriptionHint => "\"Sample description text\""
    case TitleHint => "\"Sample Title\""
    case AddressHint => "\"123 Main St, City, State 12345\""
    case PriceHint => "99.99"
    case CountHint => "10"
  }

  const DefaultExample := "\"sample value\""

  /** The `switch (type)` of `generateExampleValue`. */
  function TypeExample(t: string): string
  {
    if t == "STRING" then "\"Sample text\""
    else if t == "INTEGER" then "123"
    else if t == "BOOLEAN" then "true"
    else if t == "DATE" then "\"2024-01-15T10:30:00.000Z\""
    else if t == "TEXT" then "\"This is a longer text content that can span multiple lines and contain more detailed information.\""
    else if t == "DECIMAL" || t == "FLOAT" then "123.45"
    else if t == "ENUM" then "\"option1\""
    else if t == "JSON" then "{\"key\": \"value\"}"
    else DefaultExample
  }

  /** Every named type has an example of its own; every other string gets the generic one. */
  lemma TypeExampleDefault(t: string)
    ensures TypeExample(t) == DefaultExample <==> t !in TypeMaps.KnownTypes
  {
    KnownTypeExample(t);
    UnknownTypeExample(t);
  }

  lemma KnownTypeExample(t: string)
    ensures t in TypeMaps.KnownTypes ==> TypeExample(t) != DefaultExample
  {
    if t == "STRING" {
    } else if t == "INTEGER" {
    } else if t == "BOOLEAN" {
    } else if t == "DATE" {
    } else if t == "TEXT" {
    } else if t == "DECIMAL" {
    } else if t == "FLOAT" {
    } else if t == "ENUM" {
    } else if t == "JSON" {
    }
  }

  lemma UnknownTypeExample(t: string)
    ensures t !in TypeMaps.KnownTypes ==> TypeExample(t) == DefaultExample
  {
    if t !in TypeMaps.KnownTypes {
      assert t != "STRING" && t != "INTEGER" && t != "BOOLEAN" && t != "DATE" && t != "TEXT";
      assert t != "DECIMAL" && t != "FLOAT" && t != "ENUM" && t != "JSON";
    }
  }

  /** `generateExampleValue(type, fieldName)`: name sniffing first, then the type. */
  function ExampleValue(t: string, fieldName: string): string
  {
    match Sniff(fieldName)
    case Some(h) => HintExample(h)
    case None => TypeExample(t)
  }

  const OptionalSuffix := " (Optional)"
  const RequiredSuffix := " (Required)"

  function NullableText(nullable: bool): string
  {
    if nullable then OptionalSuffix else RequiredSuffix
  }

  /** `generateFieldDescription`'s phrase for a hint, with its marker. */
  function HintPhrase(h: Hint): string
  {
    match h
    case NameHint => "\U{1F4DB} Name or title field"
    case EmailHint => "\U{1F4E7} Email address field"
    case PhoneHint => "\U{1F4F1} Phone number field"
    case LinkHint => "\U{1F517} URL or link field"
    case DescriptionHint => "\U{1F4DD} Detailed description field"
    case TitleHint => "\U{1F3F7}\U{FE0F} Title field"
    case AddressHint => "\U{1F3E0} Address field"
    case PriceHint => "\U{1F4B0} Price or amount field"
    case CountHint => "\U{1F522} Numeric count or quantity field"
  }

  const DefaultMarker := "\U{1F4DD}"

  const TypeMarkers: map<string, string> := map[
    "STRING" := "\U{1F4DD}", "INTEGER" := "\U{1F522}", "BOOLEAN" := "\U{2705}",
    "DATE" := "\U{1F4C5}", "TEXT" := "\U{1F4C4}", "DECIMAL" := "\U{1F4B0}",
    "FLOAT" := "\U{1F4CA}", "ENUM" := "\U{1F3AF}", "JSON" := "\U{1F4E6}"]

  /**
   * `typeEmojis[dataType] || '📝'` as written into the description: a
   * named type's marker, an inherited member's text, or the 📝 marker.
   */
  function TypeMarker(t: string): (r: string)
    ensures t in TypeMaps.KnownTypes ==> t in TypeMarkers && r == TypeMarkers[t]
    ensures t in TypeMaps.InheritedKeys ==> r == TypeMaps.Interpolate(TypeMaps.ProtoMember(t))
    ensures t !in TypeMaps.KnownTypes && t !in TypeMaps.InheritedKeys ==> r == DefaultMarker
  {
    TypeMaps.KnownNotInherited(t);
    TypeMaps.Interpolate(TypeMaps.LookupOr(TypeMarkers, t, DefaultMarker))
  }

  /** The generic description of a field no hint applies to. */
  function GenericPhrase(fieldName: string, t: string): string
  {
    TypeMarker(t) + " " + fieldName + " field"
  }

  /**
   * `generateFieldDescription(fieldName, dataType, isNullable)`: every
   * description ends in " (Optional)" exactly when the field is nullable,
   * and in " (Required)" otherwise.
   */
  function FieldDescription(fieldName: string, t: string, nullable: bool): (r: string)
    ensures EndsWith(r, OptionalSuffix) <==> nullable
    ensures EndsWith(r, RequiredSuffix) <==> !nullable
  {
    var phrase := match Sniff(fieldName)
      case Some(h) => HintPhrase(h)
      case None => GenericPhrase(fieldName, t);
    var r := phrase + NullableText(nullable);
    assert r[|r| - 11..] == NullableText(nullable);
    r
  }

  /**
   * Example values and descriptions run the same tests in the same order:
   * when `h` is the first hint the lower-cased name hits, the example is
   * `h`'s example and the description `h`'s phrase, whatever the type.
   */
  lemma FirstHitDecides(fieldName: string, h: Hint, t1: string, t2: string, nullable: bool)
    requires FirstHit(ToLower(fieldName), h)
    ensures ExampleValue(t1, fieldName) == HintExample(h)
    ensures FieldDescription(fieldName, t2, nullable) == HintPhrase(h) + NullableText(nullable)
  {
    SniffIsFirstHit(fieldName, h);
  }

  /**
   * When no word hits, the example comes from the type (the generic one for
   * an unknown type) and the description is the type's marker (the 📝
   * marker for an unknown type, the member's text for an inherited name),
   * the field name and " field".
   */
  lemma NoHitFallsBackToType(fieldName: string, t: string, nullable: bool)
    requires forall h :: !Hits(ToLower(fieldName), h)
    ensures ExampleValue(t, fieldName) == TypeExample(t)
    ensures FieldDescription(fieldName, t, nullable) == TypeMarker(t) + " " + fieldName + " field" + NullableText(nullable)
    ensures t !in TypeMaps.KnownTypes ==> ExampleValue(t, fieldName) == DefaultExample
    ensures t !in TypeMaps.KnownTypes && t !in TypeMaps.InheritedKeys ==>
              FieldDescription(fieldName, t, nullable) == DefaultMarker + " " + fieldName + " field" + NullableText(nullable)
    ensures t in TypeMaps.InheritedKeys ==>
              FieldDescription(fieldName, t, nullable)
              == TypeMaps.Interpolate(TypeMaps.ProtoMember(t)) + " " + fieldName + " field" + NullableText(nullable)
  {
    assert Sniff(fieldName).None?;
    TypeExampleDefault(t);
    assert FieldDescription(fieldName, t, nullable) == GenericPhrase(fieldName, t) + NullableText(nullable);
  }

  /** A name that reveals a hint gets the same example whatever its type. */
  lemma ExampleIgnoresTypeOnHit(fieldName: string, t1: string, t2: string)
    requires exists h :: Hits(ToLower(fieldName), h)
    ensures ExampleValue(t1, fieldName) == ExampleValue(t2, fieldName)
    ensures ExampleValue(t1, fieldName) != DefaultExample
  {
    var s := SniffLower(ToLower(fieldName));
    assert s.Some?;
  }

  lemma LowerUserEmail()
    ensures ToLower("userEmail") == "useremail"
  {
    var lower := ToLower("userEmail");
    assert LowerChar('E') == 'e';
    forall i | 0 <= i < 9 ensures lower[i] == "useremail"[i] {
      assert lower[i] == LowerChar("userEmail"[i]);
    }
  }

  /** In "useremail" the e-mail test is the first that succeeds. */
  lemma EmailIsFirstHit()
    ensures FirstHit("useremail", EmailHint)
  {
    NotContains("useremail", "name");
    assert "useremail" == "user" + "email";
    assert ("user" + "email")[4..9] == "email";
    ContainsAt("useremail", "email", 4);
  }

  /** ("STRING", "userEmail") gives the e-mail example: the name is sniffed before the type. */
  lemma UserEmailExample()
    ensures ExampleValue("STRING", "userEmail") == "\"user@example.com\""
  {
    LowerUserEmail();
    EmailIsFirstHit();
    FirstHitDecides("userEmail", EmailHint, "STRING", "STRING", false);
  }

  lemma LowerEmailName()
    ensures ToLower("emailName") == "emailname"
  {
    var lower := ToLower("emailName");
    forall i | 0 <= i < 9 ensures lower[i] == "emailname"[i] {
    }
  }

  /** In "emailname" the name test, which runs first, succeeds. */
  lemma NameIsFirstHit()
    ensures FirstHit("emailname", NameHint)
  {
    assert "emailname" == "email" + "name";
    assert ("email" + "name")[5..9] == "name";
    ContainsAt("emailname", "name", 5);
  }

  /** "emailName" contains both words; the name test runs first, so it wins. */
  lemma NameBeatsEmail()
    ensures ExampleValue("STRING", "emailName") == "\"Sample Name\""
  {
    LowerEmailName();
    NameIsFirstHit();
    FirstHitDecides("emailName", NameHint, "STRING", "STRING", false);
  }
}
