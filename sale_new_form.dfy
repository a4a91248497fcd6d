/** The form that records a new sale, directly or through a business: its
    validation schema, the payload it builds, which API call it makes, the
    checkbox that switches business fields off, and its error message. */
module SaleNewForm {
  import opened Wrappers
  import opened FormErrors
  import SaleUpdateForm

  /** Formik's values. `None` is a select or number field left or made empty:
      the field then holds `""`, which Formik hands to Yup as `undefined`, so
      it fails a `.required()` rule and passes an optional one. */
  datatype NewSaleValues = NewSaleValues(
    productId: Option<int>,
    quantitySold: Option<real>,
    salePrice: Option<real>,
    saleDate: string,
    businessId: Option<int>,
    businessPercentage: Option<real>,
    isBusinessSale: bool)

  /** `initialValues`. */
  const InitialValues := NewSaleValues(None, Some(1.0), Some(0.0), "", None, Some(0.0), false)

  predicate IsWhole(x: real) {
    x == x.Floor as real
  }

  /** `SaleSchema`: a product, a whole quantity of at least 1, a price of at
      least 0, a date, and a business percentage in [0, 100] when the field
      holds one; the percentage is not required. Nothing is asked of
      `businessId`. */
  predicate SchemaAccepts(v: NewSaleValues) {
    && v.productId.Some?
    && v.quantitySold.Some? && IsWhole(v.quantitySold.value) && v.quantitySold.value >= 1.0
    && v.salePrice.Some? && v.salePrice.value >= 0.0
    && v.saleDate != ""
    && (v.businessPercentage.Some? ==> 0.0 <= v.businessPercentage.value <= 100.0)
  }

  /** `saleData`: exactly these four fields. */
  datatype SaleData = SaleData(productId: Option<int>, quantitySold: Option<real>, salePrice: Option<real>, saleDate: string)

  /** `{ ...saleData, businessPercentage }`. */
  datatype BusinessSaleData = BusinessSaleData(
    productId: Option<int>,
    quantitySold: Option<real>,
    salePrice: Option<real>,
    saleDate: string,
    businessPercentage: Option<real>)

  /** The API call `onSubmit` makes. */
  datatype SaleRequest =
    | CreateSale(productId: Option<int>, sale: SaleData)
    | CreateBusinessSale(businessId: Option<int>, businessSale: BusinessSaleData)

  /** `saleData`, with `toIso` standing for `convertToISODate`: the product,
      quantity and price as the form holds them and the date converted; the
      business fields and the checkbox have no place in it. */
  function SaleDataOf(v: NewSaleValues, toIso: string -> string): (sale: SaleData)
    ensures (sale.productId, sale.quantitySold, sale.salePrice) == (v.productId, v.quantitySold, v.salePrice)
    ensures sale.saleDate == toIso(v.saleDate)
  {
    SaleData(v.productId, v.quantitySold, v.salePrice, toIso(v.saleDate))
  }

  /** The call `onSubmit` makes: a business sale goes to `createBusinessSale`
      with the percentage added, any other sale to `createSale`. */
  function Dispatch(v: NewSaleValues, toIso: string -> string): (call: SaleRequest)
    ensures call.CreateBusinessSale? <==> v.isBusinessSale
    ensures call.CreateSale? ==> call.productId == v.productId
    ensures call.CreateBusinessSale? ==>
              call.businessId == v.businessId && call.businessSale.businessPercentage == v.businessPercentage
  {
    var saleData := SaleDataOf(v, toIso);
    if v.isBusinessSale then
      CreateBusinessSale(v.businessId, BusinessSaleData(saleData.productId, saleData.quantitySold,
                                                        saleData.salePrice, saleData.saleDate,
                                                        v.businessPercentage))
    else CreateSale(v.productId, saleData)
  }

  /** The sale fields a request carries, whichever call it is. */
  function SaleFieldsOf(call: SaleRequest): SaleData {
    match call
    case CreateSale(_, sale) => sale
    case CreateBusinessSale(_, b) => SaleData(b.productId, b.quantitySold, b.salePrice, b.saleDate)
  }

  /** Both calls carry the same four sale fields, taken from the form; a
      direct sale carries nothing else. */
  lemma DispatchCarriesSaleData(v: NewSaleValues, toIso: string -> string)
    ensures SaleFieldsOf(Dispatch(v, toIso)) == SaleDataOf(v, toIso)
    ensures !v.isBusinessSale ==> Dispatch(v, toIso) == CreateSale(v.productId, SaleDataOf(v, toIso))
  {
  }

  /** The initial values pass the quantity, price and percentage rules; only
      the product and the date are still to be chosen. */
  lemma InitialValuesNeedProductAndDate()
    ensures !SchemaAccepts(InitialValues)
    ensures SchemaAccepts(InitialValues.(productId := Some(0), saleDate := "x"))
  {
    assert IsWhole(1.0) by {
      assert 1.0.Floor == 1;
    }
  }

  /** This schema is stricter than the update form's on the fields they
      share: whatever it accepts, the update schema accepts; a fractional
      quantity shows the converse fails. */
  lemma StricterThanUpdateSchema(v: NewSaleValues)
    ensures SchemaAccepts(v) ==>
              SaleUpdateForm.SchemaAccepts(SaleUpdateForm.SaleInput(v.quantitySold, v.salePrice, v.saleDate))
    ensures var half := v.(productId := Some(0), quantitySold := Some(1.5), salePrice := Some(0.0),
                           saleDate := "x", businessPercentage := Some(0.0));
            !SchemaAccepts(half)
            && SaleUpdateForm.SchemaAccepts(SaleUpdateForm.SaleInput(half.quantitySold, half.salePrice, half.saleDate))
  {
    assert (1.5).Floor == 1;
  }

  /** A cleared percentage field does not block submission: the business sale
      then goes out with no percentage at all. */
  lemma ClearedPercentageAccepted(v: NewSaleValues, toIso: string -> string)
    requires SchemaAccepts(v)
    ensures SchemaAccepts(v.(isBusinessSale := true, businessPercentage := None))
    ensures Dispatch(v.(isBusinessSale := true, businessPercentage := None), toIso)
            == CreateBusinessSale(v.businessId, BusinessSaleData(v.productId, v.quantitySold, v.salePrice,
                                                                 toIso(v.saleDate), None))
  {
  }

  /** The sale fields a request may carry once the schema has passed: a
      product, a whole quantity of at least 1 and a price of at least 0. */
  predicate ValidSaleFields(sale: SaleData) {
    && sale.productId.Some?
    && sale.quantitySold.Some? && IsWhole(sale.quantitySold.value) && sale.quantitySold.value >= 1.0
    && sale.salePrice.Some? && sale.salePrice.value >= 0.0
  }

  /** Whatever call an accepted form makes, its sale fields are valid, and a
      business sale carries either no percentage or one in [0, 100]. */
  lemma AcceptedFormSendsValidSale(v: NewSaleValues, toIso: string -> string)
    requires SchemaAccepts(v)
    ensures ValidSaleFields(SaleFieldsOf(Dispatch(v, toIso)))
    ensures Dispatch(v, toIso).CreateBusinessSale? ==>
              var pct := Dispatch(v, toIso).businessSale.businessPercentage;
              pct.Some? ==> 0.0 <= pct.value <= 100.0
  {
    DispatchCarriesSaleData(v, toIso);
  }

  /** A business sale passes validation without a business chosen. */
  lemma BusinessIdNotValidated(v: NewSaleValues)
    requires SchemaAccepts(v)
    ensures SchemaAccepts(v.(isBusinessSale := true, businessId := None))
    ensures Dispatch(v.(isBusinessSale := true, businessId := None), (s: string) => s).businessId == None
  {
  }

  const CreateFallback := "Failed to create sale. Please check your inputs and try again."

  /** The message shown when the create call reports failure: the create
      form's own sentence unless the server sent a non-empty array, which is
      then shown exactly as the edit form shows it. */
  function CreateErrorMessage(errors: ResponseErrors): (text: string)
    ensures !(errors.ErrorArray? && |errors.messages| > 0) ==> text == CreateFallback
    ensures errors.ErrorArray? && |errors.messages| > 0 ==> text == SaleUpdateForm.UpdateErrorMessage(errors)
    ensures text == SaleUpdateForm.UpdateErrorMessage(errors) <==> errors.ErrorArray? && |errors.messages| > 0
  {
    ErrorMessage(errors, CreateFallback)
  }

  /** Formik's state for this form and the component's error message. */
  class SaleNewFormState {
    var values: NewSaleValues
    var errorMessage: string

    constructor ()
      ensures values == InitialValues && errorMessage == ""
    {
      values := InitialValues;
      errorMessage := "";
    }

    /** The "Is Business Sale" checkbox: `handleChange` records the new state;
        unchecking also resets the business and the percentage. */
    method OnBusinessSaleChange(checked: bool)
      modifies this`values
      ensures checked ==> values == old(values).(isBusinessSale := true)
      ensures !checked ==> values == old(values).(isBusinessSale := false, businessId := None, businessPercentage := Some(0.0))
    {
      values := values.(isBusinessSale := checked);
      if !checked {
        values := values.(businessId := None);
        values := values.(businessPercentage := Some(0.0));
      }
    }

    /** `onSubmit`, which Formik calls only once the schema accepts the
        values: clears the message and makes the API call. */
    method Submit(toIso: string -> string) returns (call: SaleRequest)
      requires SchemaAccepts(values)
      modifies this`errorMessage
      ensures errorMessage == ""
      ensures call == Dispatch(values, toIso)
      ensures ValidSaleFields(SaleFieldsOf(call))
    {
      errorMessage := "";
      call := Dispatch(values, toIso);
      AcceptedFormSendsValidSale(values, toIso);
    }

    /** The answer of the call: on failure the message is set. */
    method OnCreateResponse(success: bool, errors: ResponseErrors)
      modifies this`errorMessage
      ensures errorMessage == if success then old(errorMessage) else CreateErrorMessage(errors)
    {
      if !success {
        errorMessage := CreateErrorMessage(errors);
      }
    }
  }

  /** After unchecking the box the form makes a direct sale, and the reset
      percentage satisfies the schema's bound. */
  lemma UncheckedFormSubmitsDirectSale(v: NewSaleValues, toIso: string -> string)
    ensures var reset := v.(isBusinessSale := false, businessId := None, businessPercentage := Some(0.0));
            && Dispatch(reset, toIso) == CreateSale(v.productId, SaleDataOf(v, toIso))
            && 0.0 <= reset.businessPercentage.value <= 100.0
  {
  }
}
