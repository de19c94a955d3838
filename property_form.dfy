/**
 * The agent's listing form of frontend/src/features/agent/PropertyForm.tsx:
 * nine text fields, the payload built from them on submit, and what a
 * successful or failed create does to the form.
 */
module PropertyForm {
  import opened Common
  import opened Text

  datatype Form = Form(
    title: string, description: string, price: string,
    city: string, address: string,
    bedrooms: string, bathrooms: string, areaSqFt: string,
    image: string)

  /** The `name` attributes of the inputs. */
  datatype FormField = Title | Description | Price | City | Address | Bedrooms | Bathrooms | AreaSqFt | Image

  const EmptyForm := Form("", "", "", "", "", "", "", "", "")

  function Field(f: Form, field: FormField): string
  {
    match field
    case Title => f.title
    case Description => f.description
    case Price => f.price
    case City => f.city
    case Address => f.address
    case Bedrooms => f.bedrooms
    case Bathrooms => f.bathrooms
    case AreaSqFt => f.areaSqFt
    case Image => f.image
  }

  /** `{ ...form, [name]: value }`. */
  function WithField(f: Form, field: FormField, value: string): (r: Form)
    ensures Field(r, field) == value
    ensures forall g :: g != field ==> Field(r, g) == Field(f, g)
  {
    match field
    case Title => f.(title := value)
    case Description => f.(description := value)
    case Price => f.(price := value)
    case City => f.(city := value)
    case Address => f.(address := value)
    case Bedrooms => f.(bedrooms := value)
    case Bathrooms => f.(bathrooms := value)
    case AreaSqFt => f.(areaSqFt := value)
    case Image => f.(image := value)
  }

  datatype PayloadLocation = PayloadLocation(city: string, address: string)

  /** `propertyData`. A number is `None` for NaN; an optional count is `None` when left out (`undefined`). */
  datatype Payload = Payload(
    title: string,
    description: string,
    price: Option<int>,
    location: PayloadLocation,
    bedrooms: Option<int>,
    bathrooms: Option<int>,
    areaSqFt: Option<int>,
    images: seq<string>)

  /** `Number(s) || undefined`: NaN and 0 are falsy, so both are left out. */
  function CountOrOmit(s: string): (r: Option<int>)
    ensures r.None? <==> JsNumber(s).None? || JsNumber(s) == Some(0)
    ensures r.Some? ==> r == JsNumber(s)
  {
    var n := JsNumber(s);
    if n.None? || n.value == 0 then None else n
  }

  function ToPayload(f: Form): Payload
  {
    Payload(
      f.title, f.description, JsNumber(f.price),
      PayloadLocation(f.city, f.address),
      CountOrOmit(f.bedrooms), CountOrOmit(f.bathrooms), CountOrOmit(f.areaSqFt),
      if f.image != "" then [f.image] else [])
  }

  /**
   * The payload: the two texts and the location copied verbatim; the price
   * parsed with no fallback (so an empty price is 0 and a non-number NaN);
   * each count left out when it parses to 0 or NaN, and otherwise its value;
   * at most one image, present iff the field is non-empty.
   */
  lemma PayloadMeaning(f: Form)
    ensures var p := ToPayload(f);
      && p.title == f.title && p.description == f.description
      && p.location.city == f.city && p.location.address == f.address
      && p.price == JsNumber(f.price)
      && (f.price == "" ==> p.price == Some(0))
      && (p.images == [] <==> f.image == "")
      && (f.image != "" ==> p.images == [f.image])
      && (p.bedrooms.None? <==> JsNumber(f.bedrooms).None? || JsNumber(f.bedrooms) == Some(0))
      && (p.bathrooms.None? <==> JsNumber(f.bathrooms).None? || JsNumber(f.bathrooms) == Some(0))
      && (p.areaSqFt.None? <==> JsNumber(f.areaSqFt).None? || JsNumber(f.areaSqFt) == Some(0))
      && (p.bedrooms.Some? ==> p.bedrooms == JsNumber(f.bedrooms))
  {
  }

  /** An empty count field and a field holding "0" both leave the count out; any other digits send it. */
  lemma CountFieldOmitted(n: nat)
    ensures CountOrOmit("") == None
    ensures CountOrOmit(DecimalString(n)) == (if n == 0 then None else Some(n))
  {
    JsNumberOfDecimal(n);
  }

  /** How the `createProperty` mutation ended: created, or rejected with the server's message if any. */
  datatype SubmitResult = Created | Failed(serverMessage: Option<string>)

  /** The toast shown after a submit. */
  function ToastText(result: SubmitResult): (r: string)
    ensures result.Created? ==> r == "Property listed successfully!"
    ensures result.Failed? && result.serverMessage.Some? && result.serverMessage.value != "" ==> r == result.serverMessage.value
    ensures result.Failed? && (result.serverMessage.None? || result.serverMessage.value == "") ==> r == "Failed to create property."
  {
    match result
    case Created => "Property listed successfully!"
    case Failed(m) => if m.Some? && m.value != "" then m.value else "Failed to create property."
  }

  /** The component's state: the form, and how often the parent's `onCreated` has been called. */
  class FormState {
    var form: Form
    const hasOnCreated: bool
    var createdCalls: nat

    constructor(hasOnCreated: bool)
      ensures form == EmptyForm && this.hasOnCreated == hasOnCreated && createdCalls == 0
    {
      form := EmptyForm;
      this.hasOnCreated := hasOnCreated;
      createdCalls := 0;
    }

    /** `handleChange`: only the named field changes. */
    method HandleChange(field: FormField, value: string)
      modifies this
      ensures form == WithField(old(form), field, value) && createdCalls == old(createdCalls)
    {
      form := WithField(form, field, value);
    }

    /**
     * `handleSubmit`: sends the payload of the current form. On success every
     * field is reset to "" and `onCreated` (when given) is called once; on
     * failure the form stays as it was and nothing is called.
     */
    method HandleSubmit(result: SubmitResult) returns (sent: Payload, toast: string)
      modifies this
      ensures sent == ToPayload(old(form))
      ensures toast == ToastText(result)
      ensures result.Created? ==> form == EmptyForm && createdCalls == old(createdCalls) + (if hasOnCreated then 1 else 0)
      ensures result.Failed? ==> form == old(form) && createdCalls == old(createdCalls)
    {
      sent := ToPayload(form);
      toast := ToastText(result);
      if result.Created? {
        form := EmptyForm;
        if hasOnCreated {
          createdCalls := createdCalls + 1;
        }
      }
    }
  }

  /** A form that was just reset sends an empty title, a zero price, no counts and no image. */
  lemma EmptyFormPayload()
    ensures ToPayload(EmptyForm) == Payload("", "", Some(0), PayloadLocation("", ""), None, None, None, [])
  {
  }
}
