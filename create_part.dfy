/** The create-used-car-part dialog: a blank form, the discount preview
    and the `POST /used-car-parts` payload. */
module CreateUsedCarPart {
  import opened Wrappers
  import opened DialogForms

  /** The fields the payload copies from the form as they are. */
  const CopiedFields: set<string> := {"name", "description", "stock"}

  /** The form the dialog starts with: empty texts and a price of 0. */
  function InitialForm(): Form {
    map["name" := Text(""), "description" := Text(""), "price" := Num(Finite(0)), "stock" := Text("")]
  }

  /** Until a price is typed, no sale price can show a discount. */
  lemma InitialPreviewIsNull(sale: SaleInput)
    ensures PreviewDiscount(sale, ToNumber(Lookup(InitialForm(), "price"))) == None
  {
    assert Lookup(InitialForm(), "price") == Some(Num(Finite(0)));
  }

  /** The create payload: `name`, `description` and `stock` as the form
      holds them (absent if the form lacks them), `price` through
      `Number()`, and `salePrice` only when one was entered. */
  function CreatePayload(form: Form, sale: SaleInput): (payload: Form)
    ensures forall k :: k in payload ==> k in CopiedFields || k == "price" || k == "salePrice"
    ensures forall k :: k in CopiedFields ==> (k in payload <==> k in form) && (k in form ==> payload[k] == form[k])
    ensures "price" in payload && payload["price"] == Num(ToNumber(Lookup(form, "price")))
    ensures "salePrice" in payload <==> sale.Entered?
    ensures sale.Entered? ==> payload["salePrice"] == Num(sale.num)
  {
    var copied := map k | k in form && k in CopiedFields :: form[k];
    var priced := copied["price" := Num(ToNumber(Lookup(form, "price")))];
    if sale.Entered? then priced["salePrice" := Num(sale.num)] else priced
  }

  /** Whatever fields are edited, the payload keeps its shape: the three
      copied fields and `price`, plus `salePrice` when one was entered. */
  lemma {:induction false} EditsKeepPayloadShape(form: Form, name: string, value: string, sale: SaleInput)
    requires InitialForm().Keys <= form.Keys
    ensures InitialForm().Keys <= WithField(form, name, value).Keys
    ensures CreatePayload(WithField(form, name, value), sale).Keys
      == CopiedFields + {"price"} + (if sale.Entered? then {"salePrice"} else {})
  {
    var edited := WithField(form, name, value);
    var payload := CreatePayload(edited, sale);
    var expected := CopiedFields + {"price"} + (if sale.Entered? then {"salePrice"} else {});
    forall k | k in expected ensures k in payload {
      if k in CopiedFields {
        assert k in InitialForm().Keys;
      }
    }
  }

  class CreatePartDialog {
    var form: Form
    var salePrice: SaleInput
    var loading: bool

    constructor()
      ensures form == InitialForm() && salePrice == Empty && !loading
    {
      form := InitialForm();
      salePrice := Empty;
      loading := false;
    }

    /** `previewDiscount()`, shown under the sale price field. */
    function Preview(): Option<JsNumber>
      reads this
    {
      PreviewDiscount(salePrice, ToNumber(Lookup(form, "price")))
    }

    /** `handleChange`: only the named field changes, and holds the text. */
    method HandleChange(name: string, value: string)
      modifies this`form
      ensures form == WithField(old(form), name, value)
    {
      form := form[name := Text(value)];
    }

    /** The sale price field's `onChange`. */
    method OnSalePriceChange(value: string)
      modifies this`salePrice
      ensures salePrice == SaleFromText(value)
    {
      salePrice := if value == "" then Empty else Entered(ParseNumber(value));
    }

    /** `handleSubmit`: the request it sends; the form is kept as it is and
        `loading` ends false. */
    method HandleSubmit() returns (path: string, payload: Form)
      modifies this`loading
      ensures path == "/used-car-parts"
      ensures payload == CreatePayload(form, salePrice)
      ensures !loading
    {
      loading := true;
      path := "/used-car-parts";
      payload := CreatePayload(form, salePrice);
      loading := false;
    }
  }
}
