/**
 * The naming conventions every generator derives its identifiers from:
 * the lower-cased name, the capitalised name, the plural, the table name
 * and the not-found error codes.
 */
module Naming {
  import opened Text

  /** `name.toLowerCase()`: module paths and variable names. */
  function Lower(name: string): string
  {
    ToLower(name)
  }

  /** `name.charAt(0).toUpperCase() + name.slice(1)`. */
  function Capitalize(name: string): (r: string)
    ensures |r| == |name|
    ensures |name| > 0 ==> r[0] == UpperChar(name[0]) && r[1..] == name[1..]
  {
    if name == [] then [] else [UpperChar(name[0])] + name[1..]
  }

  /** `name.toLowerCase() + 's'`: the variable that holds a list of records. */
  function Plural(name: string): (r: string)
    ensures |r| == |name| + 1 && r[|name|] == 's'
    ensures r[..|name|] == Lower(name)
  {
    Lower(name) + "s"
  }

  /** The table name of the enhanced model: the capitalised name followed by 's'. */
  function TableName(name: string): (r: string)
    ensures |r| == |name| + 1 && r[|name|] == 's'
    ensures r[..|name|] == Capitalize(name)
  {
    Capitalize(name) + "s"
  }

  /** The enhanced not-found code: the capitalised name upper-cased, then `_NOT_FOUND`. */
  function NotFoundCode(name: string): string
  {
    ToUpper(Capitalize(name)) + "_NOT_FOUND"
  }

  /** The legacy list handler's code when there is nothing to list: the name upper-cased, then `S_NOT_FOUND`. */
  function LegacyListNotFoundCode(name: string): string
  {
    ToUpper(name) + "S_NOT_FOUND"
  }

  /** The legacy single-record code: the name upper-cased, then `_NOT_FOUND`. */
  function LegacyNotFoundCode(name: string): string
  {
    ToUpper(name) + "_NOT_FOUND"
  }

  /** Capitalising changes only the case of the first character. */
  lemma CapitalizeSameIgnoringCase(name: string)
    ensures SameIgnoringCase(Capitalize(name), name)
  {
    if |name| > 0 {
      var c := name[0];
      assert LowerChar(UpperChar(c)) == LowerChar(c);
    }
  }

  /**
   * The enhanced not-found code is the legacy one: capitalising before
   * upper-casing makes no difference, so both read NAME_NOT_FOUND.
   */
  lemma NotFoundCodeIgnoresCapitalization(name: string)
    ensures NotFoundCode(name) == LegacyNotFoundCode(name)
  {
    CapitalizeSameIgnoringCase(name);
    ToUpperCaseBlind(Capitalize(name), name);
  }

  /** Names that differ only in case share their lower name, their plural and their not-found code. */
  lemma CaseVariantsShareNames(a: string, b: string)
    requires SameIgnoringCase(a, b)
    ensures Lower(a) == Lower(b) && Plural(a) == Plural(b)
    ensures NotFoundCode(a) == NotFoundCode(b)
  {
    ToLowerEqualIff(a, b);
    NotFoundCodeIgnoresCapitalization(a);
    NotFoundCodeIgnoresCapitalization(b);
    ToUpperCaseBlind(a, b);
  }

  /** The list-level code is the record-level code of the plural-by-'S' name. */
  lemma LegacyCodesAgree(name: string)
    ensures LegacyListNotFoundCode(name) == LegacyNotFoundCode(name + "s")
  {
    var up := ToUpper(name + "s");
    assert up == ToUpper(name) + "S" by {
      assert |up| == |name| + 1;
      forall i | 0 <= i < |up| ensures up[i] == (ToUpper(name) + "S")[i] {
        if i < |name| {
          assert (name + "s")[i] == name[i];
        } else {
          assert (name + "s")[i] == 's';
        }
      }
    }
  }

  lemma CapitalizeProduct()
    ensures Capitalize("product") == "Product"
  {
    assert UpperChar('p') == 'P';
    assert "product"[1..] == "roduct";
  }

  lemma PluralProduct()
    ensures Plural("Product") == "products"
  {
    forall i | 0 <= i < 7 ensures Lower("Product")[i] == "product"[i] {
    }
    assert "product" + "s" == "products";
  }

  lemma ProductCode()
    ensures NotFoundCode("product") == "PRODUCT_NOT_FOUND"
  {
    CapitalizeProduct();
    var up := ToUpper("Product");
    forall i | 0 <= i < 7 ensures up[i] == "PRODUCT"[i] {
    }
    assert up == "PRODUCT";
    assert "PRODUCT" + "_NOT_FOUND" == "PRODUCT_NOT_FOUND";
  }

  /** Example: the name "product" capitalises to "Product", its table is "Products" and its code "PRODUCT_NOT_FOUND". */
  lemma ProductNames()
    ensures Capitalize("product") == "Product"
    ensures TableName("product") == "Products"
    ensures Plural("Product") == "products"
    ensures NotFoundCode("product") == "PRODUCT_NOT_FOUND"
  {
    CapitalizeProduct();
    assert "Product" + "s" == "Products";
    PluralProduct();
    ProductCode();
  }
}
