/**
 * The two lookup tables from a column's logical type to the Sequelize
 * storage type of the generated model and to the Swagger type of the
 * generated documentation. Both are JavaScript object literals read as
 * `table[type] || default`: a listed type takes its entry, a property the
 * literal inherits from `Object.prototype` takes that inherited member, and
 * every other string takes the default.
 */
module TypeMaps {
  import opened Text

  /** The nine logical types both tables name. */
  const KnownTypes: set<string> := {"STRING", "INTEGER", "BOOLEAN", "DATE", "TEXT", "DECIMAL", "FLOAT", "ENUM", "JSON"}

  /** The properties every object literal inherits from `Object.prototype`: `table[key]` finds them although no table lists them. */
  const InheritedKeys: set<string> := {
    "constructor", "__proto__", "toString", "toLocaleString", "valueOf", "hasOwnProperty",
    "isPrototypeOf", "propertyIsEnumerable", "__defineGetter__", "__defineSetter__",
    "__lookupGetter__", "__lookupSetter__"}

  /**
   * A value `table[key] || default` can yield: a string, or an inherited
   * member (a built-in function, or `Object.prototype` itself for
   * `__proto__`), which is truthy and so is kept by `||`.
   */
  datatype JsValue = JsString(s: string) | ProtoMember(key: string)

  /** `table[key] || default` on an object literal whose entries are all non-empty strings. */
  function LookupOr(table: map<string, string>, key: string, default: string): JsValue
  {
    if key in table then JsString(table[key])
    else if key in InheritedKeys then ProtoMember(key)
    else JsString(default)
  }

  /**
   * The text a template literal makes of a value: a string is itself, an
   * inherited method prints as V8 prints a native function, and
   * `Object.prototype` prints as "[object Object]". Either text is longer
   * than every table entry.
   */
  function Interpolate(v: JsValue): (r: string)
    ensures v.ProtoMember? ==> |r| >= 15
  {
    match v
    case JsString(s) => s
    case ProtoMember(k) =>
      if k == "__proto__" then "[object Object]"
      else "function " + (if k == "constructor" then "Object" else k) + "() { [native code] }"
  }

  const SequelizeTable: map<string, string> := map[
    "STRING" := "STRING(255)", "INTEGER" := "INTEGER", "BOOLEAN" := "BOOLEAN",
    "DATE" := "DATE", "TEXT" := "TEXT", "DECIMAL" := "DECIMAL(10,2)",
    "FLOAT" := "FLOAT", "ENUM" := "STRING(50)", "JSON" := "JSON"]

  const SwaggerTable: map<string, string> := map[
    "STRING" := "string", "INTEGER" := "integer", "BOOLEAN" := "boolean",
    "DATE" := "string", "TEXT" := "string", "DECIMAL" := "number",
    "FLOAT" := "number", "ENUM" := "string", "JSON" := "object"]

  const DefaultSequelizeType := "STRING(255)"
  const DefaultSwaggerType := "string"

  /** No logical type is an inherited property name: the former are upper case, the latter start with a lower-case letter or '_'. */
  lemma KnownNotInherited(t: string)
    ensures t in KnownTypes ==> t !in InheritedKeys
  {
    if t in KnownTypes {
      assert 'A' <= t[0] <= 'Z';
    }
  }

  /** `getSequelizeType(type)`: the named types take their entry, inherited names their member, every other string the default. */
  function SequelizeType(t: string): (r: JsValue)
    ensures t in KnownTypes ==> t in SequelizeTable && r == JsString(SequelizeTable[t])
    ensures t in InheritedKeys ==> r == ProtoMember(t)
    ensures t !in KnownTypes && t !in InheritedKeys ==> r == JsString(DefaultSequelizeType)
    ensures r.JsString? ==> r.s in SequelizeTable.Values
  {
    KnownNotInherited(t);
    assert SequelizeTable["STRING"] == DefaultSequelizeType;
    LookupOr(SequelizeTable, t, DefaultSequelizeType)
  }

  /** `getSwaggerType(type)` as written after `type:`: the named types' entries, an inherited member's text, or 'string'. */
  function SwaggerType(t: string): (r: string)
    ensures t in KnownTypes ==> t in SwaggerTable && r == SwaggerTable[t]
    ensures t in InheritedKeys ==> r == Interpolate(ProtoMember(t)) && |r| >= 15
    ensures t !in KnownTypes && t !in InheritedKeys ==> r == DefaultSwaggerType
    ensures t !in InheritedKeys ==> r in {"string", "integer", "boolean", "number", "object"}
  {
    KnownNotInherited(t);
    Interpolate(LookupOr(SwaggerTable, t, DefaultSwaggerType))
  }

  /**
   * The model attaches `len: [1, 255]` when the storage type contains
   * 'STRING'; on an inherited member `includes` is not a method, so the
   * generator throws instead (see `Enhanced.Model`).
   */
  predicate HasLengthValidator(t: string)
  {
    SequelizeType(t).JsString? && Contains(SequelizeType(t).s, "STRING")
  }

  /**
   * The length validator is attached exactly to STRING, ENUM and the
   * unknown types that are not inherited names: their storage types
   * STRING(255) and STRING(50) are the only entries that contain 'STRING'.
   */
  lemma LengthValidatorIff(t: string)
    ensures HasLengthValidator(t) <==> t == "STRING" || t == "ENUM" || (t !in KnownTypes && t !in InheritedKeys)
  {
    StringStorageValidated(t);
    OtherStorageNotValidated(t);
  }

  lemma StringStorageValidated(t: string)
    ensures t == "STRING" || t == "ENUM" || (t !in KnownTypes && t !in InheritedKeys) ==> HasLengthValidator(t)
  {
    if t == "STRING" || t == "ENUM" || (t !in KnownTypes && t !in InheritedKeys) {
      var r := SequelizeType(t);
      assert r == JsString("STRING(255)") || r == JsString("STRING(50)");
      assert r.s[..6] == "STRING";
      ContainsAt(r.s, "STRING", 0);
    }
  }

  lemma OtherStorageNotValidated(t: string)
    ensures t in KnownTypes && t != "STRING" && t != "ENUM" ==> !HasLengthValidator(t)
  {
    if t in KnownTypes && t != "STRING" && t != "ENUM" {
      var r := SequelizeType(t);
      assert r.s in {"INTEGER", "BOOLEAN", "DATE", "TEXT", "DECIMAL(10,2)", "FLOAT", "JSON"};
      assert |r.s| < 6 || 'S' !in r.s;
      NotContains(r.s, "STRING");
    }
  }

  /**
   * The Swagger type is 'string' exactly for STRING, DATE, TEXT, ENUM and
   * the unknown types that are not inherited names; an inherited name gets
   * the text of the member instead.
   */
  lemma SwaggerStringIff(t: string)
    ensures SwaggerType(t) == "string" <==> t in {"STRING", "DATE", "TEXT", "ENUM"} || (t !in KnownTypes && t !in InheritedKeys)
  {
  }

  /**
   * The two tables agree on what a column holds: the documentation says
   * 'integer' exactly where the model stores INTEGER, and 'number' exactly
   * where it stores DECIMAL(10,2) or FLOAT; the documentation shows an
   * inherited member's text exactly where the model finds that member.
   */
  lemma TablesAgree(t: string)
    ensures SwaggerType(t) == "integer" <==> SequelizeType(t) == JsString("INTEGER")
    ensures SwaggerType(t) == "number" <==> SequelizeType(t) in {JsString("DECIMAL(10,2)"), JsString("FLOAT")}
    ensures SwaggerType(t) == "boolean" <==> SequelizeType(t) == JsString("BOOLEAN")
    ensures SwaggerType(t) == "object" <==> SequelizeType(t) == JsString("JSON")
    ensures SequelizeType(t).ProtoMember? <==> SwaggerType(t) == Interpolate(SequelizeType(t))
  {
  }
}
