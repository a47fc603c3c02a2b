/**
 * `components/product/ProductForm.tsx`: create or edit mode from the route's `id`, the
 * form record that `handleChange` and the load effect replace, and the submit branch.
 */
module ProductForm {
  import opened Wrappers
  import opened Json
  import opened ClientTypes

  // ---------------------------------------------------------------------------
  // parseInt

  /**
   * The white space `parseInt` skips: ECMAScript's WhiteSpace (tab, vertical tab, form
   * feed, the byte-order mark and the space separators of Unicode category Zs) and its
   * LineTerminator (line feed, carriage return, U+2028 and U+2029).
   */
  predicate IsSpace(c: char)
  {
    var u := c as int;
    || u == 0x09 || u == 0x0B || u == 0x0C || u == 0xFEFF
    || u == 0x20 || u == 0xA0 || u == 0x1680 || 0x2000 <= u <= 0x200A || u == 0x202F || u == 0x205F || u == 0x3000
    || u == 0x0A || u == 0x0D || u == 0x2028 || u == 0x2029
  }

  function TrimStart(s: string): (t: string)
    ensures |t| <= |s| && t == s[|s| - |t|..]
    ensures t != [] ==> !IsSpace(t[0])
  {
    if s != [] && IsSpace(s[0]) then TrimStart(s[1..]) else s
  }

  function IsHexDigit(c: char): bool
  {
    HexValue(c).Some?
  }

  function HexRun(s: string): (k: nat)
    ensures k <= |s|
    ensures forall i :: 0 <= i < k ==> IsHexDigit(s[i])
  {
    if s == [] || !IsHexDigit(s[0]) then 0 else 1 + HexRun(s[1..])
  }

  function HexDigitsValue(ds: string): nat
    requires forall i :: 0 <= i < |ds| ==> IsHexDigit(ds[i])
  {
    if ds == [] then 0
    else
      assert IsHexDigit(ds[|ds| - 1]);
      HexDigitsValue(ds[..|ds| - 1]) * 16 + HexValue(ds[|ds| - 1]).value
  }

  /** The magnitude `parseInt` reads after the sign: hexadecimal after `0x`, else decimal; None is NaN. */
  function UnsignedPrefix(u: string): (r: Option<nat>)
  {
    if |u| >= 2 && u[0] == '0' && (u[1] == 'x' || u[1] == 'X') then
      var k := HexRun(u[2..]);
      if k == 0 then None else Some(HexDigitsValue(u[2..][..k]))
    else
      var k := DigitRun(u);
      if k == 0 then None else Some(DigitsValue(u[..k]))
  }

  /** `parseInt(s)` on integer values; None is NaN. Leading space and an optional sign come first; trailing text is ignored. */
  function ParseInt(s: string): (r: Option<int>)
  {
    var t := TrimStart(s);
    if t != [] && t[0] == '-' then
      match UnsignedPrefix(t[1..]) case None => None case Some(n) => Some(-(n as int))
    else if t != [] && t[0] == '+' then
      match UnsignedPrefix(t[1..]) case None => None case Some(n) => Some(n)
    else
      match UnsignedPrefix(t) case None => None case Some(n) => Some(n)
  }

  /** A run of decimal digits reads as its value. */
  lemma ParseIntDigits(t: string)
    requires t != [] && forall i :: 0 <= i < |t| ==> IsDigit(t[i])
    ensures ParseInt(t) == Some(DigitsValue(t))
  {
    assert !IsSpace(t[0]);
    assert TrimStart(t) == t;
    assert !(|t| >= 2 && (t[1] == 'x' || t[1] == 'X'));
    DigitRunOfDigits(t, "");
    assert t + "" == t && t[..|t|] == t;
  }

  /** The decimal text of a number reads back as that number. */
  lemma ParseIntNatText(n: nat)
    ensures ParseInt(NatText(n)) == Some(n)
  {
    ParseIntDigits(NatText(n));
    DigitsValueOfNatText(n);
  }

  // ---------------------------------------------------------------------------
  // Mode

  /** `productId`: `parseInt(id)` unless `id` is absent, empty or "new"; None is undefined or NaN. */
  function ProductId(id: Option<string>): (r: Option<int>)
    ensures id.None? || id == Some("") || id == Some("new") ==> r.None?
  {
    if id.None? || id.value == "" || id.value == "new" then None else ParseInt(id.value)
  }

  /** `isNewProduct = !productId`: no id, "new", or an id that reads as 0 or NaN. */
  predicate IsNewProduct(id: Option<string>)
  {
    ProductId(id).None? || ProductId(id) == Some(0)
  }

  /** The route `/products/<n>` with n > 0 edits product n. */
  lemma EditModeForPositiveId(n: nat)
    requires n > 0
    ensures !IsNewProduct(Some(NatText(n))) && ProductId(Some(NatText(n))) == Some(n)
  {
    var t := NatText(n);
    ParseIntNatText(n);
    assert t[0] != 'n';
    assert t != "" && t != "new";
  }

  /** Any white space `parseInt` skips may precede the number: an ideographic space before "5" reads as 5. */
  lemma ParseIntSkipsUnicodeSpace()
    ensures ParseInt("\U{3000}" + "5") == Some(5)
  {
    assert TrimStart("\U{3000}" + "5") == "5" by {
      assert ("\U{3000}" + "5")[1..] == "5";
    }
    ParseIntDigits("5");
    assert DigitsValue("5") == 5 by {
      assert "5"[..0] == "";
    }
  }

  /** `/products/new` and `/products/0` both open the form in create mode. */
  lemma CreateModeForNewAndZero()
    ensures IsNewProduct(Some("new")) && IsNewProduct(Some("0"))
  {
    ParseIntDigits("0");
    assert DigitsValue("0") == 0 by {
      assert "0"[..0] == "";
    }
  }

  // ---------------------------------------------------------------------------
  // The form record

  /** A field of the form record: text, a number, or `undefined`. */
  datatype FieldValue = Text(s: string) | Number(x: real) | Undefined

  const NumericFields: set<string> := {"cost_price", "selling_price", "stock_available", "units_sold", "customer_rating"}

  /** The initial state: empty texts, category "Stationary", every number 0. */
  const InitialForm: map<string, FieldValue> := map[
    "name" := Text(""), "description" := Text(""), "cost_price" := Number(0.0),
    "selling_price" := Number(0.0), "category" := Text("Stationary"), "stock_available" := Number(0.0),
    "units_sold" := Number(0.0), "customer_rating" := Number(0.0)]

  /** `parseFloat(value) || 0`, with `parseFloat` given (None is NaN): NaN and 0 both give 0. */
  function NumberOrZero(parsed: Option<real>): (x: real)
    ensures parsed.Some? ==> x == parsed.value
    ensures parsed.None? ==> x == 0.0
  {
    parsed.GetOr(0.0)
  }

  /** The value `handleChange` stores for field `name`. */
  function ChangedValue(name: string, value: string, parseFloat: string -> Option<real>): (v: FieldValue)
    ensures name in NumericFields ==> v == Number(NumberOrZero(parseFloat(value)))
    ensures name !in NumericFields ==> v == Text(value)
  {
    if name in NumericFields then Number(NumberOrZero(parseFloat(value))) else Text(value)
  }

  /** The record the load effect sets from an existing product; a missing rating becomes 0. */
  function LoadedForm(p: Product): (form: map<string, FieldValue>)
    ensures form.Keys == InitialForm.Keys
    ensures form["name"] == Text(p.name) && form["description"] == Text(p.description)
    ensures form["cost_price"] == Number(p.costPrice) && form["selling_price"] == Number(p.sellingPrice)
    ensures form["stock_available"] == Number(p.stockAvailable) && form["units_sold"] == Number(p.unitsSold)
    ensures form["customer_rating"] == Number(OrZero(p.customerRating))
    ensures form["category"] == if p.category.Some? then Text(p.category.value) else Undefined
  {
    map["name" := Text(p.name), "description" := Text(p.description), "cost_price" := Number(p.costPrice),
        "selling_price" := Number(p.sellingPrice),
        "category" := (if p.category.Some? then Text(p.category.value) else Undefined),
        "stock_available" := Number(p.stockAvailable), "units_sold" := Number(p.unitsSold),
        "customer_rating" := Number(OrZero(p.customerRating))]
  }

  /** The mutation a submit sends. */
  datatype SaveCall = CreateProduct(product: map<string, FieldValue>) | UpdateProduct(id: int, product: map<string, FieldValue>)

  class ProductForm {
    const id: Option<string>
    var formData: map<string, FieldValue>
    /** The mutations sent so far, in order. */
    var saves: seq<SaveCall>
    /** Where the page has navigated, if anywhere. */
    var navigatedTo: Option<string>

    constructor (id: Option<string>)
      ensures this.id == id && formData == InitialForm && saves == [] && navigatedTo.None?
    {
      this.id := id;
      formData := InitialForm;
      saves := [];
      navigatedTo := None;
    }

    /** Stores the new value of field `name`; every other field keeps its value. */
    method HandleChange(name: string, value: string, parseFloat: string -> Option<real>)
      modifies this
      ensures formData == old(formData)[name := ChangedValue(name, value, parseFloat)]
      ensures forall k :: k in old(formData) && k != name ==> k in formData && formData[k] == old(formData)[k]
      ensures saves == old(saves) && navigatedTo == old(navigatedTo)
    {
      if name in NumericFields {
        formData := formData[name := Number(NumberOrZero(parseFloat(value)))];
      } else {
        formData := formData[name := Text(value)];
      }
    }

    /** The load effect: an existing product, once fetched, replaces the whole record. */
    method LoadExisting(existing: Option<Product>)
      modifies this
      ensures existing.Some? ==> formData == LoadedForm(existing.value)
      ensures existing.None? ==> formData == old(formData)
      ensures saves == old(saves) && navigatedTo == old(navigatedTo)
    {
      if existing.Some? {
        formData := LoadedForm(existing.value);
      }
    }

    /**
     * Sends `createProduct(formData)` in create mode and `updateProduct` with the parsed
     * id otherwise, and navigates to /products only when the mutation succeeded
     * (`succeeded` is what `unwrap()` settles to).
     */
    method HandleSubmit(succeeded: bool)
      modifies this
      ensures IsNewProduct(id) ==> saves == old(saves) + [CreateProduct(formData)]
      ensures !IsNewProduct(id) ==> saves == old(saves) + [UpdateProduct(ProductId(id).value, formData)]
      ensures navigatedTo == if succeeded then Some("/products") else old(navigatedTo)
      ensures formData == old(formData)
    {
      var productId := ProductId(id);
      if IsNewProduct(id) {
        saves := saves + [CreateProduct(formData)];
      } else {
        saves := saves + [UpdateProduct(productId.value, formData)];
      }
      if succeeded {
        navigatedTo := Some("/products");
      }
    }
  }
}
