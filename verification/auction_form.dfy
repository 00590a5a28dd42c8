/** The auction listing form: the form record, the field-change handler, the
    two description generators and their "use" buttons, the price prediction
    and the strategy buttons, and submission.

    Each asynchronous handler is split in two: `Begin…` is what happens when
    the button is pressed (the guard, the busy flag, whether a request goes
    out) and `Finish…` is what happens when the request settles with a given
    `Reply`. */
module AuctionForm {
  import opened JsValues
  import opened Http
  import opened Pricing

  /** A file picked in the image input; its content is irrelevant here. */
  datatype File = File(name: string)

  datatype Form = Form(
    productName: string,
    productDescription: string,
    productImage: Option<File>,
    productMaterial: string,
    productWeight: string,
    productColor: string,
    basePrice: string,
    startTime: string,
    duration: string)

  /** The empty form the page starts with and returns to after a listing is created. */
  const InitialForm := Form("", "", None, "", "", "", "", "", "")

  /** The text inputs of the form, by their `name` attribute. */
  datatype TextField =
    | ProductName | ProductDescription | ProductMaterial | ProductWeight
    | ProductColor | BasePrice | StartTime | Duration

  function FieldValue(f: Form, field: TextField): string {
    match field
    case ProductName => f.productName
    case ProductDescription => f.productDescription
    case ProductMaterial => f.productMaterial
    case ProductWeight => f.productWeight
    case ProductColor => f.productColor
    case BasePrice => f.basePrice
    case StartTime => f.startTime
    case Duration => f.duration
  }

  /** A change event from one input: a text input with its new value, or the
      file input with the list of files picked. */
  datatype ChangeEvent =
    | TextInput(name: TextField, value: string)
    | FileInput(files: seq<File>)

  /** `handleChange`: a text input replaces exactly its own field; the file
      input replaces only the image, with the first file picked (undefined
      when none was). */
  function HandleChange(form: Form, e: ChangeEvent): (r: Form)
    ensures e.TextInput? ==> FieldValue(r, e.name) == e.value
    ensures e.TextInput? ==> r.productImage == form.productImage
    ensures e.TextInput? ==>
      forall g :: g != e.name ==> FieldValue(r, g) == FieldValue(form, g)
    ensures e.FileInput? ==> forall g :: FieldValue(r, g) == FieldValue(form, g)
    ensures e.FileInput? && |e.files| > 0 ==> r.productImage == Some(e.files[0])
    ensures e.FileInput? && |e.files| == 0 ==> r.productImage.None?
  {
    match e
    case FileInput(files) =>
      form.(productImage := if |files| > 0 then Some(files[0]) else None)
    case TextInput(name, value) =>
      match name
      case ProductName => form.(productName := value)
      case ProductDescription => form.(productDescription := value)
      case ProductMaterial => form.(productMaterial := value)
      case ProductWeight => form.(productWeight := value)
      case ProductColor => form.(productColor := value)
      case BasePrice => form.(basePrice := value)
      case StartTime => form.(startTime := value)
      case Duration => form.(duration := value)
  }

  /** Content returned by the SAP description generator. An absent
      description is the empty string. */
  datatype SapContent = SapContent(description: string)

  /** A price prediction; only the suggested market price drives any logic. */
  datatype Prediction = Prediction(suggestedPrice: int)

  /** The page's state. */
  datatype Page = Page(
    form: Form,
    loading: bool,
    msg: string,
    aiLoading: bool,
    aiSuggestion: string,
    sapAiLoading: bool,
    sapAiSuggestion: Option<SapContent>,
    pricePrediction: Option<Prediction>,
    isPredictingPrice: bool,
    showPricingInsights: bool)

  const InitialPage := Page(InitialForm, false, "", false, "", false, None, None, false, false)

  /** A handler's effect: the next state and whether a request was issued. */
  datatype Step = Step(page: Page, requested: bool)

  const NameFirstMsg := "Please enter a product name first"
  const FillNameMsg := "Please fill in product name first"
  const AiGeneratedMsg := "AI description generated! You can edit it before using."
  const AiFallbackMsg := "Generated a basic description. AI service temporarily unavailable."
  const AiFailedMsg := "Failed to generate AI description. Please try again."
  const AiAppliedMsg := "AI description applied! You can edit it further if needed."
  const SapGeneratedMsg := "SAP AI content generated with enterprise analytics!"
  const SapFailedMsg := "Failed to generate SAP AI content. Please try again."
  const SapAppliedMsg := "SAP AI description applied! Enterprise-grade content is now active."
  const PredictedMsg := "SAP AI auction pricing generated! Base price set to 70% of market value."
  const PredictFailedMsg := "Failed to generate SAP AI price prediction. Please try again."
  const CreatedMsg := "Auction created successfully!"
  const CreateFailedMsg := "Failed to create auction."

  /** `!form.productName.trim()` */
  predicate NameIsBlank(f: Form) {
    Trim(f.productName) == ""
  }

  // ---------------------------------------------------------------------
  // Quick AI description
  // ---------------------------------------------------------------------

  /** Pressing "Quick AI": a name that is empty or only whitespace is refused
      with a message and no request; otherwise the request goes out with the
      busy flag set and the message cleared. The form is not touched. */
  function BeginAIDescription(p: Page): (r: Step)
    ensures r.requested <==> !AllWhitespace(p.form.productName)
    ensures !r.requested ==> r.page == p.(msg := NameFirstMsg)
    ensures r.requested ==> r.page == p.(aiLoading := true, msg := "")
  {
    TrimEmptyIffBlank(p.form.productName);
    if NameIsBlank(p.form) then Step(p.(msg := NameFirstMsg), false)
    else Step(p.(aiLoading := true, msg := ""), true)
  }

  /** The generator's answer: the `success` flag, the description, and, on an
      error answer, the fallback description ("" when absent). */
  datatype DescriptionBody = DescriptionBody(success: bool, description: string, fallbackDescription: string)

  /** The Quick AI request settles. A successful answer offers its
      description; an error answer with a fallback offers the fallback; every
      other outcome (including a 2xx answer whose `success` is false) only
      reports failure. The busy flag is cleared and nothing else changes —
      in particular the form never does. */
  function FinishAIDescription(p: Page, reply: Reply<DescriptionBody>): (r: Page)
    ensures !r.aiLoading && r.form == p.form
    ensures r == p.(aiLoading := false, aiSuggestion := r.aiSuggestion, msg := r.msg)
    ensures r.aiSuggestion != p.aiSuggestion ==> r.msg in {AiGeneratedMsg, AiFallbackMsg}
    ensures reply.Success? && reply.body.success ==>
      r.aiSuggestion == reply.body.description && r.msg == AiGeneratedMsg
    ensures reply.Failure? && reply.errorBody.Some? && reply.errorBody.value.fallbackDescription != "" ==>
      r.aiSuggestion == reply.errorBody.value.fallbackDescription && r.msg == AiFallbackMsg
    ensures reply.Failure? && !(reply.errorBody.Some? && reply.errorBody.value.fallbackDescription != "") ==>
      r.aiSuggestion == p.aiSuggestion && r.msg == AiFailedMsg
    ensures reply.Thrown? || (reply.Success? && !reply.body.success) ==>
      r.aiSuggestion == p.aiSuggestion && r.msg == AiFailedMsg
  {
    var done := p.(aiLoading := false);
    match reply
    case Success(b) =>
      if b.success then done.(aiSuggestion := b.description, msg := AiGeneratedMsg)
      else done.(msg := AiFailedMsg)
    case Failure(eb) =>
      if eb.Some? && eb.value.fallbackDescription != "" then
        done.(aiSuggestion := eb.value.fallbackDescription, msg := AiFallbackMsg)
      else done.(msg := AiFailedMsg)
    case Thrown => done.(msg := AiFailedMsg)
  }

  /** "Use This": the suggestion becomes the description, the suggestion is
      cleared, and no other field changes. */
  function UseAISuggestion(p: Page): (r: Page)
    ensures r.form.productDescription == p.aiSuggestion
    ensures forall g :: g != ProductDescription ==> FieldValue(r.form, g) == FieldValue(p.form, g)
    ensures r.form.productImage == p.form.productImage
    ensures r.aiSuggestion == "" && r.msg == AiAppliedMsg
    ensures r == p.(form := r.form, aiSuggestion := "", msg := AiAppliedMsg)
  {
    p.(form := p.form.(productDescription := p.aiSuggestion), aiSuggestion := "", msg := AiAppliedMsg)
  }

  /** Applying the suggestion changes the form exactly as typing it into the
      description box would. */
  lemma UseAISuggestionIsTyping(p: Page)
    ensures UseAISuggestion(p).form == HandleChange(p.form, TextInput(ProductDescription, p.aiSuggestion))
  {
  }

  // ---------------------------------------------------------------------
  // SAP AI description
  // ---------------------------------------------------------------------

  /** Pressing "SAP AI Pro": the same blank-name guard as Quick AI. */
  function BeginSAPAIDescription(p: Page): (r: Step)
    ensures r.requested <==> !AllWhitespace(p.form.productName)
    ensures !r.requested ==> r.page == p.(msg := NameFirstMsg)
    ensures r.requested ==> r.page == p.(sapAiLoading := true, msg := "")
  {
    TrimEmptyIffBlank(p.form.productName);
    if NameIsBlank(p.form) then Step(p.(msg := NameFirstMsg), false)
    else Step(p.(sapAiLoading := true, msg := ""), true)
  }

  /** The SAP generator's answer: the `success` flag and the content (`data`). */
  datatype SapBody = SapBody(success: bool, data: Option<SapContent>)

  /** The SAP request settles: only a successful answer replaces the pending
      content (with whatever `data` holds); there is no fallback. The busy
      flag is cleared and the form is not touched. */
  function FinishSAPAIDescription(p: Page, reply: Reply<SapBody>): (r: Page)
    ensures !r.sapAiLoading && r.form == p.form
    ensures r == p.(sapAiLoading := false, sapAiSuggestion := r.sapAiSuggestion, msg := r.msg)
    ensures reply.Success? && reply.body.success ==>
      r.sapAiSuggestion == reply.body.data && r.msg == SapGeneratedMsg
    ensures !(reply.Success? && reply.body.success) ==>
      r.sapAiSuggestion == p.sapAiSuggestion && r.msg == SapFailedMsg
  {
    var done := p.(sapAiLoading := false);
    if reply.Success? && reply.body.success then
      done.(sapAiSuggestion := reply.body.data, msg := SapGeneratedMsg)
    else done.(msg := SapFailedMsg)
  }

  /** "Use SAP Content": with a non-empty description pending, it becomes the
      description and the pending content is dropped; otherwise nothing at
      all changes. */
  function UseSAPAISuggestion(p: Page): (r: Page)
    ensures (p.sapAiSuggestion.None? || p.sapAiSuggestion.value.description == "") ==> r == p
    ensures p.sapAiSuggestion.Some? && p.sapAiSuggestion.value.description != "" ==>
      && r.form == HandleChange(p.form, TextInput(ProductDescription, p.sapAiSuggestion.value.description))
      && r.sapAiSuggestion.None? && r.msg == SapAppliedMsg
    ensures r == p.(form := r.form, sapAiSuggestion := r.sapAiSuggestion, msg := r.msg)
  {
    match p.sapAiSuggestion
    case Some(c) =>
      if c.description != "" then
        p.(form := p.form.(productDescription := c.description), sapAiSuggestion := None, msg := SapAppliedMsg)
      else p
    case None => p
  }

  // ---------------------------------------------------------------------
  // Price prediction and strategy buttons
  // ---------------------------------------------------------------------

  /** Pressing "SAP AI Base Price": unlike the description generators, only an
      empty name is refused; a name of spaces goes through. */
  function BeginPricePrediction(p: Page): (r: Step)
    ensures r.requested <==> p.form.productName != ""
    ensures !r.requested ==> r.page == p.(msg := FillNameMsg)
    ensures r.requested ==> r.page == p.(isPredictingPrice := true, msg := "")
  {
    if p.form.productName == "" then Step(p.(msg := FillNameMsg), false)
    else Step(p.(isPredictingPrice := true, msg := ""), true)
  }

  /** The predictor's answer: the `success` flag and the prediction (`data`). */
  datatype PredictionBody = PredictionBody(success: bool, data: Option<Prediction>)

  /** `useSAPPrice(price, percentage = 0.7)`: the base price becomes
      `Math.round(price × percentage)` as a numeral, the message names the
      percentage, and no other field changes. */
  function UseSAPPrice(p: Page, price: int, pct: int := DefaultPct): (r: Page)
    ensures ParseInt(r.form.basePrice) == Some(ScaledPrice(price, pct))
    ensures r.form.basePrice == IntToString(ScaledPrice(price, pct))
    ensures forall g :: g != BasePrice ==> FieldValue(r.form, g) == FieldValue(p.form, g)
    ensures r.form.productImage == p.form.productImage
    ensures r.msg == "SAP AI suggested base price applied! (" + IntToString(pct) + "% of market value)"
    ensures r == p.(form := r.form, msg := r.msg)
  {
    IntStringRoundTrip(ScaledPrice(price, pct));
    p.(form := p.form.(basePrice := IntToString(ScaledPrice(price, pct))),
       msg := "SAP AI suggested base price applied! (" + IntToString(pct) + "% of market value)")
  }

  /** The prediction settles. On success the prediction is shown and the base
      price — and no other field — becomes 70 per cent of the market value.
      A successful answer without data still records the (missing)
      prediction and opens the insights panel before failing on
      `suggestedPrice`, so the form is kept and failure is reported. Any
      other outcome only reports failure. The busy flag is cleared always. */
  function FinishPricePrediction(p: Page, reply: Reply<PredictionBody>): (r: Page)
    ensures !r.isPredictingPrice
    ensures r == p.(isPredictingPrice := false, pricePrediction := r.pricePrediction,
                    showPricingInsights := r.showPricingInsights, form := r.form, msg := r.msg)
    ensures r.form == p.form.(basePrice := r.form.basePrice)
    ensures r.form.productImage == p.form.productImage
    ensures reply.Success? && reply.body.success && reply.body.data.Some? ==>
      && ParseInt(r.form.basePrice) == Some(StrategyPrice(reply.body.data.value.suggestedPrice, Balanced))
      && r.pricePrediction == reply.body.data && r.showPricingInsights && r.msg == PredictedMsg
    ensures reply.Success? && reply.body.success && reply.body.data.Some? ==>
      r.form.basePrice == IntToString(StrategyPrice(reply.body.data.value.suggestedPrice, Balanced))
    ensures !(reply.Success? && reply.body.success && reply.body.data.Some?) ==>
      r.form == p.form && r.msg == PredictFailedMsg
    ensures reply.Success? && reply.body.success && reply.body.data.None? ==>
      r.pricePrediction.None? && r.showPricingInsights
    ensures !(reply.Success? && reply.body.success) ==>
      r == p.(isPredictingPrice := false, msg := PredictFailedMsg)
  {
    var done := p.(isPredictingPrice := false);
    match reply
    case Success(b) =>
      if !b.success then done.(msg := PredictFailedMsg)
      else if b.data.None? then done.(pricePrediction := None, showPricingInsights := true, msg := PredictFailedMsg)
      else
        var base := ScaledPrice(b.data.value.suggestedPrice, BalancedPct);
        IntStringRoundTrip(base);
        done.(pricePrediction := b.data, showPricingInsights := true,
              form := done.form.(basePrice := IntToString(base)), msg := PredictedMsg)
    case Failure(_) => done.(msg := PredictFailedMsg)
    case Thrown => done.(msg := PredictFailedMsg)
  }

  /** A successful prediction fills in the same base price as pressing
      "Balanced Start" (or "Use This Base") for the predicted market value. */
  lemma PredictionMatchesBalancedButton(p: Page, pred: Prediction)
    ensures FinishPricePrediction(p, Success(PredictionBody(true, Some(pred)))).form ==
            UseSAPPrice(p, pred.suggestedPrice, Balanced.Pct()).form
  {
  }

  /** The button for a strategy applies exactly the price it displays. */
  lemma StrategyButtonAppliesShownPrice(p: Page, price: int, s: Strategy)
    ensures ParseInt(UseSAPPrice(p, price, s.Pct()).form.basePrice) == Some(StrategyPrice(price, s))
  {
  }

  // ---------------------------------------------------------------------
  // Buttons' enabled state
  // ---------------------------------------------------------------------

  /** `disabled={isPredictingPrice || !form.productName.trim()}` negated. */
  predicate PredictButtonEnabled(p: Page) {
    !p.isPredictingPrice && !NameIsBlank(p.form)
  }

  /** The price button is stricter than its handler's guard: whenever it can
      be pressed the request goes out. */
  lemma PredictButtonImpliesRequest(p: Page)
    requires PredictButtonEnabled(p)
    ensures BeginPricePrediction(p).requested
  {
  }

  /** The guards differ: a name of spaces passes the prediction handler but
      is refused by both description generators. */
  lemma GuardsDiffer()
    ensures BeginPricePrediction(InitialPage.(form := InitialForm.(productName := " "))).requested
    ensures !BeginAIDescription(InitialPage.(form := InitialForm.(productName := " "))).requested
    ensures !BeginSAPAIDescription(InitialPage.(form := InitialForm.(productName := " "))).requested
  {
  }

  // ---------------------------------------------------------------------
  // Submission
  // ---------------------------------------------------------------------

  /** Pressing "Submit": busy and message cleared; the chain of requests starts. */
  function BeginSubmit(p: Page): (r: Page)
    ensures r.loading && r.msg == "" && r.form == p.form
    ensures r == p.(loading := true, msg := "")
  {
    p.(loading := true, msg := "")
  }

  /** Whether the listing gets created: the signature request, then the image
      upload (made only when an image was picked), then the listing itself,
      each of which must succeed. */
  predicate Created(f: Form, signature: Reply<Ack>, upload: Reply<Ack>, create: Reply<Ack>) {
    signature.Success? && (f.productImage.None? || upload.Success?) && create.Success?
  }

  /** The submission settles. A created listing resets the form to the very
      initial record; any failure keeps the form as it was. The busy flag is
      cleared either way, and nothing else changes. */
  function FinishSubmit(p: Page, signature: Reply<Ack>, upload: Reply<Ack>, create: Reply<Ack>): (r: Page)
    ensures !r.loading
    ensures Created(p.form, signature, upload, create) ==> r.form == InitialForm && r.msg == CreatedMsg
    ensures !Created(p.form, signature, upload, create) ==> r.form == p.form && r.msg == CreateFailedMsg
    ensures r == p.(loading := false, form := r.form, msg := r.msg)
  {
    if Created(p.form, signature, upload, create) then
      p.(msg := CreatedMsg, form := InitialForm, loading := false)
    else p.(msg := CreateFailedMsg, loading := false)
  }

  /** After a listing is created every text field is empty and no image is held. */
  lemma SubmitClearsEveryField(p: Page, signature: Reply<Ack>, upload: Reply<Ack>, create: Reply<Ack>)
    requires Created(p.form, signature, upload, create)
    ensures forall g :: FieldValue(FinishSubmit(p, signature, upload, create).form, g) == ""
    ensures FinishSubmit(p, signature, upload, create).form.productImage.None?
  {
  }
}
