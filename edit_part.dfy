/** The edit-used-car-part dialog: the same form logic as the car dialog,
    with `price` the only numeric field and `PUT /used-car-parts/{id}`. */
module EditUsedCarPart {
  import opened Wrappers
  import opened Items
  import opened DialogForms

  /** The fields `handleSubmit` puts through `Number()`. */
  const NumericFields: set<string> := {"price"}

  /** The request path of an update, relative to the API base. */
  function UpdatePath(form: Form): string {
    "/used-car-parts/" + TemplateText(Lookup(form, "id"))
  }

  class EditPartDialog {
    var formData: Form
    var salePrice: SaleInput
    var loading: bool

    /** `useState(part)` and `useState('')`, before the first effect runs. */
    constructor(part: Item)
      ensures formData == FormOf(part) && salePrice == Empty && !loading
    {
      formData := FormOf(part);
      salePrice := Empty;
      loading := false;
    }

    /** `previewDiscount()`, shown under the sale price field. */
    function Preview(): Option<JsNumber>
      reads this
    {
      PreviewDiscount(salePrice, ToNumber(Lookup(formData, "price")))
    }

    /** The `[part]` effect: the form becomes the part and the sale price
        its `salePrice` or `''`. */
    method OnPartProp(part: Item)
      modifies this`formData, this`salePrice
      ensures formData == FormOf(part) && salePrice == SaleFromItem(part.salePrice)
      ensures Preview() == PreviewDiscount(SaleFromItem(part.salePrice), Finite(part.price))
    {
      formData := FormOf(part);
      salePrice := SaleFromItem(part.salePrice);
    }

    /** `handleChange`: only the named field changes, and holds the text. */
    method HandleChange(name: string, value: string)
      modifies this`formData
      ensures formData == WithField(old(formData), name, value)
    {
      formData := formData[name := Text(value)];
    }

    /** The sale price field's `onChange`. */
    method OnSalePriceChange(value: string)
      modifies this`salePrice
      ensures salePrice == SaleFromText(value)
    {
      salePrice := if value == "" then Empty else Entered(ParseNumber(value));
    }

    /** `handleSubmit`: the request it sends; `loading` ends false. */
    method HandleSubmit() returns (path: string, payload: Form)
      modifies this`loading
      ensures path == UpdatePath(formData)
      ensures payload == EditPayload(formData, NumericFields, salePrice)
      ensures !loading
    {
      loading := true;
      path := UpdatePath(formData);
      payload := EditPayload(formData, NumericFields, salePrice);
      loading := false;
    }
  }

  /** Submitting a freshly reset dialog sends the part back as it was, less
      the identifier, the gallery and the stored discount. */
  lemma UneditedPartSubmitsItsValues(part: Item)
    requires part.UsedCarPart?
    ensures var payload := EditPayload(FormOf(part), NumericFields, SaleFromItem(part.salePrice));
      && "id" !in payload && "imageGallery" !in payload && "discount" !in payload
      && payload["price"] == Num(Finite(part.price))
      && payload["name"] == Text(part.name)
      && payload["description"] == Text(part.description)
      && payload["stock"] == Text(part.stock)
      && ("salePrice" in payload <==> part.salePrice.Some?)
      && (part.salePrice.Some? ==> payload["salePrice"] == Num(Finite(part.salePrice.value)))
      && UpdatePath(FormOf(part)) == "/used-car-parts/" + part.id
  {
    var form := FormOf(part);
    var payload := EditPayload(form, NumericFields, SaleFromItem(part.salePrice));
    assert "name" !in NumericFields && "name" != "salePrice" && "name" != "id" && "name" != "imageGallery" && "name" != "discount";
    assert "name" in payload;
    assert "description" !in NumericFields && "description" != "salePrice" && "description" != "id" && "description" != "imageGallery" && "description" != "discount";
    assert "description" in payload;
    assert "stock" in payload;
  }

  /** The untouched part's payload has exactly the part's own editable
      fields, and the sale price when the part has one. */
  lemma UneditedPartPayloadKeys(part: Item)
    requires part.UsedCarPart?
    ensures EditPayload(FormOf(part), NumericFields, SaleFromItem(part.salePrice)).Keys
      == {"name", "stock", "price", "description"}
         + (if part.salePrice.Some? then {"salePrice"} else {})
  {
    var form := FormOf(part);
    var dropped := {"id", "imageGallery", "discount", "salePrice"};
    var kept := {"name", "stock", "price", "description"};
    assert form.Keys - dropped == kept by {
      assert form.Keys == {"id", "salePrice", "discount", "imageGallery"} * form.Keys + kept;
    }
    assert NumericFields <= kept;
  }
}
