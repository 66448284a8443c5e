/** The edit-car dialog: the form state, the discount preview, the
    sale-price input and the `PUT /cars/{id}` payload. */
module EditCar {
  import opened Wrappers
  import opened Items
  import opened DialogForms

  /** The fields `handleSubmit` puts through `Number()`. */
  const NumericFields: set<string> := {"price", "year"}

  /** The request path of an update, relative to the API base. */
  function UpdatePath(form: Form): string {
    "/cars/" + TemplateText(Lookup(form, "id"))
  }

  class EditCarDialog {
    var formData: Form
    var salePrice: SaleInput
    var loading: bool

    /** `useState(car)` and `useState('')`, before the first effect runs. */
    constructor(car: Item)
      ensures formData == FormOf(car) && salePrice == Empty && !loading
    {
      formData := FormOf(car);
      salePrice := Empty;
      loading := false;
    }

    /** `previewDiscount()`, shown under the sale price field. */
    function Preview(): Option<JsNumber>
      reads this
    {
      PreviewDiscount(salePrice, ToNumber(Lookup(formData, "price")))
    }

    /** The `[car]` effect, run on mount and whenever the prop changes:
        the form becomes the car and the sale price its `salePrice` or `''`. */
    method OnCarProp(car: Item)
      modifies this`formData, this`salePrice
      ensures formData == FormOf(car) && salePrice == SaleFromItem(car.salePrice)
      ensures Preview() == PreviewDiscount(SaleFromItem(car.salePrice), Finite(car.price))
    {
      formData := FormOf(car);
      salePrice := SaleFromItem(car.salePrice);
    }

    /** `handleChange`: only the named field changes, and holds the text. */
    method HandleChange(name: string, value: string)
      modifies this`formData
      ensures formData == WithField(old(formData), name, value)
    {
      formData := formData[name := Text(value)];
    }

    /** The sale price field's `onChange`. */
    method OnSalePriceChange(value: string)
      modifies this`salePrice
      ensures salePrice == SaleFromText(value)
    {
      salePrice := if value == "" then Empty else Entered(ParseNumber(value));
    }

    /** `handleSubmit`: the request it sends; `loading` is back to false
        once the request settles, whatever its outcome. */
    method HandleSubmit() returns (path: string, payload: Form)
      modifies this`loading
      ensures path == UpdatePath(formData)
      ensures payload == EditPayload(formData, NumericFields, salePrice)
      ensures !loading
    {
      loading := true;
      path := UpdatePath(formData);
      payload := EditPayload(formData, NumericFields, salePrice);
      loading := false;
    }
  }

  /** Submitting a freshly reset dialog sends the car back as it was, less
      the identifier, the gallery and the stored discount. */
  lemma UneditedCarSubmitsItsValues(car: Item)
    requires car.Car?
    ensures var payload := EditPayload(FormOf(car), NumericFields, SaleFromItem(car.salePrice));
      && "id" !in payload && "imageGallery" !in payload && "discount" !in payload
      && payload["price"] == Num(Finite(car.price))
      && payload["year"] == Num(Finite(car.year))
      && payload["name"] == Text(car.name)
      && payload["engine"] == Text(car.engine)
      && payload["stock"] == Text(car.stock)
      && payload["gearType"] == Text(car.gearType)
      && payload["gasType"] == Text(car.gasType)
      && ("salePrice" in payload <==> car.salePrice.Some?)
      && (car.salePrice.Some? ==> payload["salePrice"] == Num(Finite(car.salePrice.value)))
      && UpdatePath(FormOf(car)) == "/cars/" + car.id
  {
    var form := FormOf(car);
    var payload := EditPayload(form, NumericFields, SaleFromItem(car.salePrice));
    assert "name" !in NumericFields && "name" != "salePrice" && "name" != "id" && "name" != "imageGallery" && "name" != "discount";
    assert "name" in payload;
    assert "engine" !in NumericFields && "engine" != "salePrice" && "engine" != "id" && "engine" != "imageGallery" && "engine" != "discount";
    assert "engine" in payload;
    assert "stock" in payload && "gearType" in payload && "gasType" in payload;
  }

  /** The untouched car's payload has exactly the car's own editable fields,
      and the sale price when the car has one. */
  lemma UneditedCarPayloadKeys(car: Item)
    requires car.Car?
    ensures EditPayload(FormOf(car), NumericFields, SaleFromItem(car.salePrice)).Keys
      == {"name", "stock", "price", "year", "engine", "gearType", "gasType"}
         + (if car.salePrice.Some? then {"salePrice"} else {})
  {
    var form := FormOf(car);
    var dropped := {"id", "imageGallery", "discount", "salePrice"};
    var kept := {"name", "stock", "price", "year", "engine", "gearType", "gasType"};
    assert form.Keys - dropped == kept by {
      assert form.Keys == {"id", "salePrice", "discount", "imageGallery"} * form.Keys + kept;
    }
    assert NumericFields <= kept;
  }
}
