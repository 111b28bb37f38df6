/**
 * The request gateway of src/lib/actions.ts: two server actions, each of which
 * checks an untyped form, makes at most one call to an analysis flow, and folds
 * the flow's answer, or its failure, into the state the page renders.
 *
 * A flow is an opaque function parameter from its validated input to an
 * `Outcome`. A handler returns the new state together with the list of flow
 * calls it made, so "called once when valid, never when invalid" is a
 * statement about that list.
 */
module Actions {
  import opened Wrappers

  /** What one entry of a submitted form holds: a string or an uploaded file. */
  datatype FormValue = Text(s: string) | File

  /** The result of `formData.get(name)`: `None` is the `null` of a missing field. */
  type Field = Option<FormValue>

  /**
   * An error message for the user. `NotAString` stands for the validation
   * library's own message for a value that is not a string; its wording is
   * not part of this model.
   */
  datatype Message = Said(text: string) | NotAString

  /** How a flow call ended: with a value, or by throwing an error whose `message` may be absent. */
  datatype Outcome<+T> = Returned(value: T) | Threw(message: Option<string>)

  /** A handler's answer, with every flow call it made, in order. */
  datatype Handled<+S, +I> = Handled(state: S, calls: seq<I>)

  const FramesRequired := "At least one video frame is required."
  const DescriptionTooShort := "Behavior description is too short."
  const AnalyzeInvalid := "Invalid input."
  const AnalyzeUnknown := "An unknown error occurred during analysis."
  const AnimalIdRequired := "Hayvan ID'si gerekli."
  const BehaviorTooShort := "Gözlenen davranış açıklaması çok kısa."
  const PredictInvalid := "Geçersiz girdi."
  const PredictUnknown := "Tahmin sırasında bilinmeyen bir hata oluştu."

  // ---------------------------------------------------------------------------
  // Pieces shared by both handlers
  // ---------------------------------------------------------------------------

  /** The field holds a string (`z.string()` accepts it). */
  predicate IsString(f: Field) {
    f.Some? && f.value.Text?
  }

  /** The field holds a string of at least `n` characters (`z.string().min(n)` accepts it). */
  predicate IsStringOfAtLeast(f: Field, n: nat) {
    IsString(f) && |f.value.s| >= n
  }

  /** The first issue `z.string().min(min, tooShort)` raises for a field, if any. */
  function StringIssue(f: Field, min: nat, tooShort: string): Option<Message> {
    match f
    case Some(Text(s)) => if |s| < min then Some(Said(tooShort)) else None
    case _ => Some(NotAString)
  }

  /** `a?.[0] || b?.[0] || fallback`: every message is non-empty, so the first present one wins. */
  function FirstIssue(a: Option<Message>, b: Option<Message>, fallback: string): Message {
    if a.Some? then a.value else if b.Some? then b.value else Said(fallback)
  }

  /** `e.message || fallback`: an absent or empty message gives way to the fallback. */
  function ThrownText(message: Option<string>, fallback: string): (r: string)
    ensures message.Some? && message.value != "" ==> r == message.value
    ensures message.None? || message.value == "" ==> r == fallback
  {
    if message.Some? && message.value != "" then message.value else fallback
  }

  // ---------------------------------------------------------------------------
  // handleAnalyzeBehavior
  // ---------------------------------------------------------------------------

  /** The form `handleAnalyzeBehavior` reads: every `frames` entry, and two single fields. */
  datatype AnalyzeForm = AnalyzeForm(frames: seq<FormValue>, behaviorDescription: Field, feedId: Field)

  /** The validated request handed to the behaviour flow. */
  datatype AnalyzeBehaviorInput = AnalyzeBehaviorInput(frames: seq<string>, behaviorDescription: string, feedId: string)

  /** The behaviour flow's result; its output schema declares no `causePrediction`, so that field is optional. */
  datatype AnalyzeBehaviorOutput = AnalyzeBehaviorOutput(anomalies: seq<string>, causePrediction: Option<string>)

  /** `AnalyzeState`: what the behaviour page renders. */
  datatype AnalyzeState = AnalyzeState(anomalies: Option<seq<string>>, causePrediction: Option<string>, error: Option<Message>)

  /** Every entry is a string (`z.array(z.string())` accepts the elements). */
  predicate AllText(vs: seq<FormValue>) {
    forall i :: 0 <= i < |vs| ==> vs[i].Text?
  }

  /** The strings of a list of string entries, in order. */
  function Texts(vs: seq<FormValue>): (r: seq<string>)
    requires AllText(vs)
    ensures |r| == |vs|
    ensures forall i :: 0 <= i < |vs| ==> vs[i] == Text(r[i])
  {
    if vs == [] then [] else [vs[0].s] + Texts(vs[1..])
  }

  /** The first issue the `frames` rule raises: the length check runs before the element checks. */
  function FramesIssue(frames: seq<FormValue>): Option<Message> {
    if |frames| < 1 then Some(Said(FramesRequired))
    else if !AllText(frames) then Some(NotAString)
    else None
  }

  /** The form satisfies every rule of `AnalyzeSchema`. */
  predicate AnalyzeFormValid(form: AnalyzeForm) {
    && |form.frames| >= 1
    && AllText(form.frames)
    && IsStringOfAtLeast(form.behaviorDescription, 10)
    && IsString(form.feedId)
  }

  /**
   * `AnalyzeSchema.safeParse` followed by the choice of the reported error:
   * the frames error, else the description error, else "Invalid input.".
   */
  function ValidateAnalyze(form: AnalyzeForm): (r: Result<AnalyzeBehaviorInput, Message>)
    ensures r.Success? <==> AnalyzeFormValid(form)
    ensures r.Success? ==>
      && |r.value.frames| == |form.frames|
      && (forall i :: 0 <= i < |form.frames| ==> form.frames[i] == Text(r.value.frames[i]))
      && form.behaviorDescription == Some(Text(r.value.behaviorDescription))
      && form.feedId == Some(Text(r.value.feedId))
    ensures |form.frames| == 0 ==> r == Failure(Said(FramesRequired))
    ensures |form.frames| >= 1 && !AllText(form.frames) ==> r == Failure(NotAString)
    ensures |form.frames| >= 1 && AllText(form.frames) && !IsString(form.behaviorDescription) ==>
      r == Failure(NotAString)
    ensures (|form.frames| >= 1 && AllText(form.frames) && IsString(form.behaviorDescription)
             && |form.behaviorDescription.value.s| < 10) ==> r == Failure(Said(DescriptionTooShort))
    ensures (|form.frames| >= 1 && AllText(form.frames) && IsStringOfAtLeast(form.behaviorDescription, 10)
             && !IsString(form.feedId)) ==> r == Failure(Said(AnalyzeInvalid))
  {
    var framesIssue := FramesIssue(form.frames);
    var descriptionIssue := StringIssue(form.behaviorDescription, 10, DescriptionTooShort);
    if framesIssue.None? && descriptionIssue.None? && IsString(form.feedId) then
      Success(AnalyzeBehaviorInput(Texts(form.frames), form.behaviorDescription.value.s, form.feedId.value.s))
    else
      Failure(FirstIssue(framesIssue, descriptionIssue, AnalyzeInvalid))
  }

  /**
   * `handleAnalyzeBehavior(prevState, formData)`: validate, then call the
   * behaviour flow once and forward its result, or report why not.
   */
  function HandleAnalyzeBehavior(
    prevState: AnalyzeState,
    form: AnalyzeForm,
    flow: AnalyzeBehaviorInput -> Outcome<AnalyzeBehaviorOutput>
  ): (r: Handled<AnalyzeState, AnalyzeBehaviorInput>)
    ensures |r.calls| == if AnalyzeFormValid(form) then 1 else 0
    ensures !AnalyzeFormValid(form) ==>
      r.state == AnalyzeState(None, None, Some(ValidateAnalyze(form).error))
    ensures AnalyzeFormValid(form) ==>
      && r.calls[0].frames == Texts(form.frames)
      && Some(Text(r.calls[0].behaviorDescription)) == form.behaviorDescription
      && Some(Text(r.calls[0].feedId)) == form.feedId
    ensures AnalyzeFormValid(form) && flow(r.calls[0]).Returned? ==>
      var out := flow(r.calls[0]).value;
      r.state == AnalyzeState(Some(out.anomalies), out.causePrediction, None)
    ensures AnalyzeFormValid(form) && flow(r.calls[0]).Threw? ==>
      r.state == AnalyzeState(None, None, Some(Said(ThrownText(flow(r.calls[0]).message, AnalyzeUnknown))))
    ensures r.state.error.None? <==> r.state.anomalies.Some?
    ensures r.state.error.Some? ==> r.state.causePrediction.None? && r.state.error != Some(Said(""))
  {
    match ValidateAnalyze(form)
    case Failure(message) =>
      Handled(AnalyzeState(None, None, Some(message)), [])
    case Success(input) =>
      var state := match flow(input)
        case Returned(out) => AnalyzeState(Some(out.anomalies), out.causePrediction, None)
        case Threw(message) => AnalyzeState(None, None, Some(Said(ThrownText(message, AnalyzeUnknown))));
      Handled(state, [input])
  }

  /** The previous state plays no part in the answer. */
  lemma AnalyzeIgnoresPrevState(
    p: AnalyzeState, q: AnalyzeState, form: AnalyzeForm,
    flow: AnalyzeBehaviorInput -> Outcome<AnalyzeBehaviorOutput>)
    ensures HandleAnalyzeBehavior(p, form, flow) == HandleAnalyzeBehavior(q, form, flow)
  {
  }

  // ---------------------------------------------------------------------------
  // handlePredictCause
  // ---------------------------------------------------------------------------

  /** The form `handlePredictCause` reads. */
  datatype PredictForm = PredictForm(animalId: Field, observedBehavior: Field, historicalData: Field)

  /** What `PredictSchema` lets through; `historicalData` is optional. */
  datatype PredictData = PredictData(animalId: string, observedBehavior: string, historicalData: Option<string>)

  /** The request handed to the cause-prediction flow; here `historicalData` is always a string. */
  datatype PredictAnomalyCauseInput = PredictAnomalyCauseInput(animalId: string, observedBehavior: string, historicalData: string)

  /** The cause-prediction flow's result. */
  datatype PredictAnomalyCauseOutput = PredictAnomalyCauseOutput(probableCauses: seq<string>)

  /** `PredictState`: what the cause-prediction card renders. */
  datatype PredictState = PredictState(probableCauses: Option<seq<string>>, error: Option<Message>)

  /**
   * The `historicalData` rule as written: `z.string().optional()` admits
   * `undefined` but not the `null` that `formData.get` yields for a missing field.
   */
  function HistoryAsWritten(f: Field): Result<Option<string>, Message> {
    match f
    case Some(Text(s)) => Success(Some(s))
    case _ => Failure(NotAString)
  }

  /** The `historicalData` rule as evidently intended: a missing field is simply absent. */
  function HistoryIntended(f: Field): Result<Option<string>, Message> {
    match f
    case Some(Text(s)) => Success(Some(s))
    case None => Success(None)
    case Some(File) => Failure(NotAString)
  }

  /**
   * `PredictSchema.safeParse` followed by the choice of the reported error,
   * given the outcome of the `historicalData` rule: the animal id error, else
   * the observed-behaviour error, else "Geçersiz girdi.".
   */
  function ValidatePredictWith(form: PredictForm, history: Result<Option<string>, Message>): (r: Result<PredictData, Message>)
    ensures r.Success? <==>
      IsStringOfAtLeast(form.animalId, 1) && IsStringOfAtLeast(form.observedBehavior, 10) && history.Success?
    ensures r.Success? ==>
      && form.animalId == Some(Text(r.value.animalId))
      && form.observedBehavior == Some(Text(r.value.observedBehavior))
      && r.value.historicalData == history.value
    ensures !IsString(form.animalId) ==> r == Failure(NotAString)
    ensures IsString(form.animalId) && |form.animalId.value.s| < 1 ==> r == Failure(Said(AnimalIdRequired))
    ensures IsStringOfAtLeast(form.animalId, 1) && !IsString(form.observedBehavior) ==> r == Failure(NotAString)
    ensures (IsStringOfAtLeast(form.animalId, 1) && IsString(form.observedBehavior)
             && |form.observedBehavior.value.s| < 10) ==> r == Failure(Said(BehaviorTooShort))
    ensures (IsStringOfAtLeast(form.animalId, 1) && IsStringOfAtLeast(form.observedBehavior, 10)
             && history.Failure?) ==> r == Failure(Said(PredictInvalid))
  {
    var idIssue := StringIssue(form.animalId, 1, AnimalIdRequired);
    var behaviorIssue := StringIssue(form.observedBehavior, 10, BehaviorTooShort);
    if idIssue.None? && behaviorIssue.None? && history.Success? then
      Success(PredictData(form.animalId.value.s, form.observedBehavior.value.s, history.value))
    else
      Failure(FirstIssue(idIssue, behaviorIssue, PredictInvalid))
  }

  /** `{...data, historicalData: data.historicalData || ''}`: the request the flow receives. */
  function FlowRequest(data: PredictData): (r: PredictAnomalyCauseInput)
    ensures r.animalId == data.animalId && r.observedBehavior == data.observedBehavior
    ensures data.historicalData.None? ==> r.historicalData == ""
    ensures data.historicalData.Some? ==> r.historicalData == data.historicalData.value
  {
    var history := if data.historicalData.Some? && data.historicalData.value != "" then data.historicalData.value else "";
    PredictAnomalyCauseInput(data.animalId, data.observedBehavior, history)
  }

  /** Call the flow once with the validated data and fold its outcome into the card's state. */
  function DispatchPredict(
    validated: Result<PredictData, Message>,
    flow: PredictAnomalyCauseInput -> Outcome<PredictAnomalyCauseOutput>
  ): (r: Handled<PredictState, PredictAnomalyCauseInput>)
    ensures validated.Failure? ==> r == Handled(PredictState(None, Some(validated.error)), [])
    ensures validated.Success? ==> r.calls == [FlowRequest(validated.value)]
    ensures validated.Success? && flow(FlowRequest(validated.value)).Returned? ==>
      r.state == PredictState(Some(flow(FlowRequest(validated.value)).value.probableCauses), None)
    ensures validated.Success? && flow(FlowRequest(validated.value)).Threw? ==>
      r.state == PredictState(None, Some(Said(ThrownText(flow(FlowRequest(validated.value)).message, PredictUnknown))))
    ensures r.state.error.None? <==> r.state.probableCauses.Some?
  {
    match validated
    case Failure(message) =>
      Handled(PredictState(None, Some(message)), [])
    case Success(data) =>
      var request := FlowRequest(data);
      var state := match flow(request)
        case Returned(out) => PredictState(Some(out.probableCauses), None)
        case Threw(message) => PredictState(None, Some(Said(ThrownText(message, PredictUnknown))));
      Handled(state, [request])
  }

  /**
   * `handlePredictCause(prevState, formData)` as written. A form without a
   * `historicalData` field is rejected with "Geçersiz girdi.".
   */
  function HandlePredictCause(
    prevState: PredictState,
    form: PredictForm,
    flow: PredictAnomalyCauseInput -> Outcome<PredictAnomalyCauseOutput>
  ): (r: Handled<PredictState, PredictAnomalyCauseInput>)
    ensures |r.calls| ==
      if IsStringOfAtLeast(form.animalId, 1) && IsStringOfAtLeast(form.observedBehavior, 10)
         && IsString(form.historicalData) then 1 else 0
    ensures |r.calls| == 1 ==>
      && Some(Text(r.calls[0].animalId)) == form.animalId
      && Some(Text(r.calls[0].observedBehavior)) == form.observedBehavior
      && Some(Text(r.calls[0].historicalData)) == form.historicalData
    ensures r.calls == [] ==> r.state.probableCauses.None? && r.state.error.Some?
    ensures r.state.error.None? <==> r.state.probableCauses.Some?
    ensures r.state.error.Some? ==> r.state.error != Some(Said(""))
  {
    DispatchPredict(ValidatePredictWith(form, HistoryAsWritten(form.historicalData)), flow)
  }

  /**
   * `handlePredictCause` as evidently intended: a missing `historicalData`
   * counts as absent and reaches the flow as `''`.
   */
  function HandlePredictCauseIntended(
    prevState: PredictState,
    form: PredictForm,
    flow: PredictAnomalyCauseInput -> Outcome<PredictAnomalyCauseOutput>
  ): (r: Handled<PredictState, PredictAnomalyCauseInput>)
    ensures |r.calls| ==
      if IsStringOfAtLeast(form.animalId, 1) && IsStringOfAtLeast(form.observedBehavior, 10)
         && (form.historicalData.None? || IsString(form.historicalData)) then 1 else 0
    ensures |r.calls| == 1 && form.historicalData.None? ==> r.calls[0].historicalData == ""
    ensures |r.calls| == 1 && form.historicalData.Some? ==> Some(Text(r.calls[0].historicalData)) == form.historicalData
    ensures r.state.error.None? <==> r.state.probableCauses.Some?
    ensures r.state.error.Some? ==> r.state.error != Some(Said(""))
  {
    DispatchPredict(ValidatePredictWith(form, HistoryIntended(form.historicalData)), flow)
  }

  /**
   * The discrepancy: with a valid animal id and behaviour but no
   * `historicalData` field, the handler as written answers "Geçersiz girdi."
   * without calling the flow, where the intended one calls it once with `''`.
   */
  lemma MissingHistoryRejected(
    prevState: PredictState, animalId: string, observed: string,
    flow: PredictAnomalyCauseInput -> Outcome<PredictAnomalyCauseOutput>)
    requires |animalId| >= 1 && |observed| >= 10
    ensures var form := PredictForm(Some(Text(animalId)), Some(Text(observed)), None);
      && HandlePredictCause(prevState, form, flow) == Handled(PredictState(None, Some(Said(PredictInvalid))), [])
      && HandlePredictCauseIntended(prevState, form, flow).calls == [PredictAnomalyCauseInput(animalId, observed, "")]
  {
  }

  /** Whenever the form carries a `historicalData` field, the two handlers agree. */
  lemma IntendedAgreesWhenHistoryPresent(
    prevState: PredictState, form: PredictForm,
    flow: PredictAnomalyCauseInput -> Outcome<PredictAnomalyCauseOutput>)
    requires form.historicalData.Some?
    ensures HandlePredictCauseIntended(prevState, form, flow) == HandlePredictCause(prevState, form, flow)
  {
  }

  /** The previous state plays no part in the answer. */
  lemma PredictIgnoresPrevState(
    p: PredictState, q: PredictState, form: PredictForm,
    flow: PredictAnomalyCauseInput -> Outcome<PredictAnomalyCauseOutput>)
    ensures HandlePredictCause(p, form, flow) == HandlePredictCause(q, form, flow)
  {
  }
}
