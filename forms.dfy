/** What the car and part dialogs share: form fields that start as numbers
    and become text once edited, JavaScript's `Number()` coercion, the sale
    price input, the discount preview and the payload shaping. */
module DialogForms {
  import opened Wrappers
  import opened Strings
  import opened Items

  /** A JavaScript number, limited here to integers, or `NaN`. */
  datatype JsNumber = Finite(n: int) | NaN

  /** A form field value: a number, the text of an edited field, or a list. */
  datatype Value = Num(num: JsNumber) | Text(text: string) | List(items: seq<string>)

  /** A form: `formData` / `form`, keyed by field name. */
  type Form = map<string, Value>

  /** `form[key]`, `None` for `undefined`. */
  function Lookup(form: Form, key: string): Option<Value> {
    if key in form then Some(form[key]) else None
  }

  predicate AllDigits(s: string) {
    forall i :: 0 <= i < |s| ==> IsDigit(s[i])
  }

  /** `Number(text)` on integer numerals: white space around is ignored, a
      blank text is 0, an optional sign and decimal digits give their value,
      anything else is `NaN`. */
  function ParseNumber(text: string): JsNumber {
    var t := Trim(text);
    if t == "" then Finite(0)
    else if |t| > 1 && (t[0] == '-' || t[0] == '+') && AllDigits(t[1..]) then
      var v: int := DigitsValue(t[1..]);
      Finite(if t[0] == '-' then -v else v)
    else if AllDigits(t) then Finite(DigitsValue(t))
    else NaN
  }

  /** `Number(String(n)) === n`: a number shown in a field and read back is
      the same number. */
  lemma {:induction false} ParseRendered(n: int)
    ensures ParseNumber(IntToString(n)) == Finite(n)
  {
    var r := IntToString(n);
    NumeralIsTrimmed(n);
    if n < 0 {
      var d := NatToString(-n);
      assert r[1..] == d;
      DigitsValueOfNat(-n);
      assert ParseNumber(r) == Finite(0 - DigitsValue(d));
    } else {
      assert AllDigits(r);
      DigitsValueOfNat(n);
    }
  }

  lemma NumeralIsTrimmed(n: int)
    ensures Trim(IntToString(n)) == IntToString(n)
  {
    var r := IntToString(n);
    assert !IsWhitespace(r[0]);
    assert !IsWhitespace(r[|r| - 1]);
  }

  /** The number JavaScript uses when it compares a field or applies
      `Number()` to it: `undefined` is `NaN`, a list goes through its text. */
  function ToNumber(v: Option<Value>): JsNumber {
    match v
    case None => NaN
    case Some(Num(x)) => x
    case Some(Text(s)) => ParseNumber(s)
    case Some(List(xs)) => if |xs| == 0 then Finite(0) else if |xs| == 1 then ParseNumber(xs[0]) else NaN
  }

  /** `${v}` for a field value. */
  function TemplateText(v: Option<Value>): string {
    match v
    case None => "undefined"
    case Some(Num(Finite(n))) => IntToString(n)
    case Some(Num(NaN)) => "NaN"
    case Some(Text(s)) => s
    case Some(List(xs)) => if |xs| == 0 then "" else Join(xs, ',')
  }

  /** The sale price input: `''` or a number. */
  datatype SaleInput = Empty | Entered(num: JsNumber)

  /** The sale price field's `onChange`: `value === '' ? '' : Number(value)`. */
  function SaleFromText(value: string): (s: SaleInput)
    ensures s == Empty <==> value == ""
    ensures value != "" ==> s == Entered(ParseNumber(value))
    ensures forall n :: value == IntToString(n) ==> s == Entered(Finite(n))
  {
    forall n | value == IntToString(n)
      ensures value != "" && ParseNumber(value) == Finite(n)
    {
      ParseRendered(n);
    }
    if value == "" then Empty else Entered(ParseNumber(value))
  }

  /** `item.salePrice ?? ''` */
  function SaleFromItem(salePrice: Option<int>): (s: SaleInput)
    ensures s.Entered? <==> salePrice.Some?
    ensures s.Entered? ==> s.num == Finite(salePrice.value)
  {
    match salePrice
    case Some(v) => Entered(Finite(v))
    case None => Empty
  }

  /** `Math.round(((price - sale) / price) * 100)` for integers with a
      positive price: `Math.round` takes the nearest integer, halves upwards. */
  function RoundedPercent(price: int, sale: int): (k: int)
    requires price > 0
    ensures 2 * price * k - price <= 200 * (price - sale) < 2 * price * k + price
  {
    var num := 200 * (price - sale) + price;
    var k := num / (2 * price);
    assert num == 2 * price * k + num % (2 * price);
    k
  }

  /** `previewDiscount`: `None` (the helper text instead of a percentage)
      when no sale price is entered, the price is not positive, or the sale
      price is not below it; otherwise the discount as a percentage of the
      price, rounded to the nearest integer, or `NaN` if either is `NaN`. */
  function PreviewDiscount(sale: SaleInput, price: JsNumber): (r: Option<JsNumber>)
    ensures r.None? <==>
      || sale.Empty?
      || (price.Finite? && price.n <= 0)
      || (sale.Entered? && sale.num.Finite? && price.Finite? && sale.num.n >= price.n)
    ensures r == Some(NaN) <==> sale.Entered? && !(price.Finite? && price.n <= 0) && (sale.num.NaN? || price.NaN?)
    ensures r.Some? && r.value.Finite? ==>
      var p, s, k := price.n, sale.num.n, r.value.n;
      0 <= s < p ==> 0 <= k <= 100
  {
    match sale
    case Empty => None
    case Entered(s) =>
      if price.Finite? && price.n <= 0 then None
      else if s.Finite? && price.Finite? && s.n >= price.n then None
      else if s.Finite? && price.Finite? then
        var k := RoundedPercent(price.n, s.n);
        PercentInRange(price.n, s.n, k);
        Some(Finite(k))
      else Some(NaN)
  }

  lemma PercentInRange(p: int, s: int, k: int)
    requires p > 0 && 2 * p * k - p <= 200 * (p - s) < 2 * p * k + p
    ensures 0 <= s < p ==> 0 <= k <= 100
  {
    if 0 <= s < p {
      if k < 0 {
        MulMono(p, k, -1);
        assert false;
      }
      if k > 100 {
        MulMono(p, 101, k);
        assert false;
      }
    }
  }

  lemma MulMono(p: int, a: int, b: int)
    requires p > 0 && a <= b
    ensures p * a <= p * b
  {
  }

  /** A shown discount is the percentage nearest to the real saving. */
  lemma PreviewIsNearestPercent(sale: SaleInput, price: JsNumber)
    requires PreviewDiscount(sale, price).Some? && PreviewDiscount(sale, price).value.Finite?
    ensures sale.Entered? && sale.num.Finite? && price.Finite?
    ensures var p, s, k := price.n, sale.num.n, PreviewDiscount(sale, price).value.n;
      0 < p && s < p && 2 * p * k - p <= 200 * (p - s) < 2 * p * k + p
  {
  }

  /** `handleChange`: `{...form, [name]: value}`, the edited field becomes text. */
  function WithField(form: Form, name: string, value: string): (r: Form)
    ensures r.Keys == form.Keys + {name}
    ensures r[name] == Text(value)
    ensures forall k :: k in form && k != name ==> r[k] == form[k]
  {
    form[name := Text(value)]
  }

  /** Typing a number's own numeral into its field changes neither what
      `Number()` reads nor, hence, the preview or the payload. */
  lemma RetypedNumberUnchanged(form: Form, name: string, n: int)
    requires Lookup(form, name) == Some(Num(Finite(n)))
    ensures ToNumber(Lookup(WithField(form, name, IntToString(n)), name)) == ToNumber(Lookup(form, name))
  {
    ParseRendered(n);
  }

  /** A form filled from an item (`useState(item)` / `setFormData(item)`):
      the item's fields as values; absent optional fields are absent keys. */
  function FormOf(item: Item): (form: Form)
    ensures form.Keys == {"id", "name", "stock", "price"}
      + (if item.salePrice.Some? then {"salePrice"} else {})
      + (if item.discount.Some? then {"discount"} else {})
      + (if item.imageGallery.Some? then {"imageGallery"} else {})
      + (if item.Car? then {"year", "engine", "gearType", "gasType"} else {"description"})
    ensures Lookup(form, "price") == Some(Num(Finite(item.price)))
    ensures Lookup(form, "id") == Some(Text(item.id))
    ensures Lookup(form, "name") == Some(Text(item.name))
    ensures Lookup(form, "stock") == Some(Text(item.stock))
    ensures item.salePrice.Some? ==> Lookup(form, "salePrice") == Some(Num(Finite(item.salePrice.value)))
    ensures item.discount.Some? ==> Lookup(form, "discount") == Some(Num(Finite(item.discount.value)))
    ensures item.imageGallery.Some? ==> Lookup(form, "imageGallery") == Some(List(item.imageGallery.value))
    ensures item.Car? ==> Lookup(form, "year") == Some(Num(Finite(item.year)))
    ensures item.Car? ==> Lookup(form, "engine") == Some(Text(item.engine))
    ensures item.Car? ==> Lookup(form, "gearType") == Some(Text(item.gearType))
    ensures item.Car? ==> Lookup(form, "gasType") == Some(Text(item.gasType))
    ensures item.UsedCarPart? ==> Lookup(form, "description") == Some(Text(item.description))
  {
    var common := map[
      "id" := Text(item.id), "name" := Text(item.name), "stock" := Text(item.stock),
      "price" := Num(Finite(item.price))];
    var withSale := if item.salePrice.Some? then common["salePrice" := Num(Finite(item.salePrice.value))] else common;
    var withDiscount := if item.discount.Some? then withSale["discount" := Num(Finite(item.discount.value))] else withSale;
    var withGallery := if item.imageGallery.Some? then withDiscount["imageGallery" := List(item.imageGallery.value)] else withDiscount;
    match item
    case Car(_, _, _, _, _, _, _, year, engine, gearType, gasType) =>
      withGallery["year" := Num(Finite(year))]["engine" := Text(engine)]["gearType" := Text(gearType)]["gasType" := Text(gasType)]
    case UsedCarPart(_, _, _, _, _, _, _, description) =>
      withGallery["description" := Text(description)]
  }

  /** The serialized edit payload: `{ id, imageGallery, discount, ...payload } = form`,
      the fields in `numeric` put through `Number()`, and `salePrice` taken
      from the sale input (`undefined`, so absent, when it is empty). */
  function EditPayload(form: Form, numeric: set<string>, sale: SaleInput): (payload: Form)
    requires "salePrice" !in numeric && "id" !in numeric && "imageGallery" !in numeric && "discount" !in numeric
    ensures "id" !in payload && "imageGallery" !in payload && "discount" !in payload
    ensures forall k :: k in numeric ==> k in payload && payload[k] == Num(ToNumber(Lookup(form, k)))
    ensures "salePrice" in payload <==> sale.Entered?
    ensures sale.Entered? ==> payload["salePrice"] == Num(sale.num)
    ensures forall k :: k in payload && k !in numeric && k != "salePrice" ==> k in form && payload[k] == form[k]
    ensures forall k :: k in form && k != "id" && k != "imageGallery" && k != "discount" && k != "salePrice" ==> k in payload
    ensures payload.Keys == (form.Keys - {"id", "imageGallery", "discount", "salePrice"}) + numeric
      + (if sale.Entered? then {"salePrice"} else {})
  {
    var rest := map k | k in form && k != "id" && k != "imageGallery" && k != "discount" && k != "salePrice" :: form[k];
    var numbers := map k | k in numeric :: Num(ToNumber(Lookup(form, k)));
    var merged := rest + numbers;
    if sale.Entered? then merged["salePrice" := Num(sale.num)] else merged
  }
}
