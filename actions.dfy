/**
 * The three server actions: validate the submitted form fields, call the flow,
 * and shape `{ message, errors, data }`. Each flow is a parameter that returns a
 * value or throws. The schema validation of the form fields is written out:
 * a field read from the form is a string, or null when it is missing, and a
 * failed field contributes its issue texts under its own key.
 */
module Actions {
  import opened Wrappers
  import TryOn

  /** `error.flatten().fieldErrors`: the issue texts of each failing field. */
  type FieldErrors = map<string, seq<string>>

  /** What an action returns to the page. */
  datatype ActionResult<T> = ActionResult(message: string, errors: FieldErrors, data: Option<T>)

  /** What an awaited flow does: returns its output or throws. */
  datatype FlowOutcome<T> = Returned(value: T) | Threw(error: Exception)

  datatype StylingInput = StylingInput(userPreferences: string, latestTrends: string)

  datatype LearningPathInput = LearningPathInput(skills: string, interests: string)

  const SuccessMessage := "success"
  const InvalidInputMessage := "Invalid input."
  const InvalidTryOnMessage := "Invalid input for virtual try-on."
  const StylingFailureMessage := "An error occurred while getting recommendations."
  const LearningPathFailureMessage := "An error occurred while generating your learning path."
  const TryOnFailurePrefix := "An error occurred during virtual try-on: "
  const UnknownErrorText := "An unknown error occurred."
  /** The schema library's issue for a field that is not a string (a missing field reads as null). */
  const NotAStringIssue := "Expected string, received null"
  const InvalidUrlIssue := "Invalid url"

  const StylingMinLength := 10
  const LearningPathMinLength := 3

  /** A form field that is a string of at least `minLength` characters. */
  predicate MeetsMin(v: Option<string>, minLength: nat) {
    v.Some? && |v.value| >= minLength
  }

  /** The issues of a `z.string().min(minLength, { message: tooShort })` field. */
  function MinLengthIssues(v: Option<string>, minLength: nat, tooShort: string): (r: seq<string>)
    ensures r == [] <==> MeetsMin(v, minLength)
    ensures v.None? ==> r == [NotAStringIssue]
    ensures v.Some? && !MeetsMin(v, minLength) ==> r == [tooShort]
  {
    if v.None? then [NotAStringIssue]
    else if |v.value| < minLength then [tooShort]
    else []
  }

  /** The issues of a `z.string().url()` field; `isUrl` is the schema library's URL test. */
  function UrlIssues(v: Option<string>, isUrl: string -> bool): (r: seq<string>)
    ensures r == [] <==> v.Some? && isUrl(v.value)
  {
    if v.None? then [NotAStringIssue]
    else if !isUrl(v.value) then [InvalidUrlIssue]
    else []
  }

  /** The field errors of a two-field schema: each failing field under its own name. */
  function FieldErrorsOf(name1: string, issues1: seq<string>, name2: string, issues2: seq<string>): (m: FieldErrors)
    requires name1 != name2
    ensures m.Keys <= {name1, name2}
    ensures name1 in m <==> issues1 != []
    ensures name2 in m <==> issues2 != []
    ensures name1 in m ==> m[name1] == issues1
    ensures name2 in m ==> m[name2] == issues2
  {
    (if issues1 == [] then map[] else map[name1 := issues1])
    + (if issues2 == [] then map[] else map[name2 := issues2])
  }

  /** The result for a flow that was called: its output on return, the action's message on a throw. */
  function Respond<T>(outcome: FlowOutcome<T>, onThrow: Exception -> string): (r: ActionResult<T>)
    ensures r.errors == map[]
    ensures r.data.Some? <==> outcome.Returned?
    ensures outcome.Returned? ==> r.message == SuccessMessage && r.data.value == outcome.value
    ensures outcome.Threw? ==> r.message == onThrow(outcome.error)
  {
    match outcome
    case Returned(value) => ActionResult(SuccessMessage, map[], Some(value))
    case Threw(e) => ActionResult(onThrow(e), map[], None)
  }

  /** `getStylingRecommendationsAction`. */
  function StylingAction<T>(userPreferences: Option<string>, latestTrends: Option<string>,
                            flow: StylingInput -> FlowOutcome<T>): (r: ActionResult<T>)
    ensures r.errors == map[] <==> MeetsMin(userPreferences, StylingMinLength) && MeetsMin(latestTrends, StylingMinLength)
    ensures r.errors != map[] ==>
      && r.message == InvalidInputMessage && r.data.None?
      && ("userPreferences" in r.errors <==> !MeetsMin(userPreferences, StylingMinLength))
      && ("latestTrends" in r.errors <==> !MeetsMin(latestTrends, StylingMinLength))
    ensures r.errors == map[] ==>
      var outcome := flow(StylingInput(userPreferences.value, latestTrends.value));
      && (outcome.Returned? ==> r == ActionResult(SuccessMessage, map[], Some(outcome.value)))
      && (outcome.Threw? ==> r == ActionResult(StylingFailureMessage, map[], None))
  {
    var errors := FieldErrorsOf(
      "userPreferences", MinLengthIssues(userPreferences, StylingMinLength, "Please describe your preferences in more detail."),
      "latestTrends", MinLengthIssues(latestTrends, StylingMinLength, "Please describe the latest trends in more detail."));
    if errors != map[] then ActionResult(InvalidInputMessage, errors, None)
    else
      assert "userPreferences" !in errors && "latestTrends" !in errors;
      Respond(flow(StylingInput(userPreferences.value, latestTrends.value)), _ => StylingFailureMessage)
  }

  /** `personalizedLearningPathAction`. */
  function LearningPathAction<T>(skills: Option<string>, interests: Option<string>,
                                 flow: LearningPathInput -> FlowOutcome<T>): (r: ActionResult<T>)
    ensures r.errors == map[] <==> MeetsMin(skills, LearningPathMinLength) && MeetsMin(interests, LearningPathMinLength)
    ensures r.errors != map[] ==>
      && r.message == InvalidInputMessage && r.data.None?
      && ("skills" in r.errors <==> !MeetsMin(skills, LearningPathMinLength))
      && ("interests" in r.errors <==> !MeetsMin(interests, LearningPathMinLength))
    ensures r.errors == map[] ==>
      var outcome := flow(LearningPathInput(skills.value, interests.value));
      && (outcome.Returned? ==> r == ActionResult(SuccessMessage, map[], Some(outcome.value)))
      && (outcome.Threw? ==> r == ActionResult(LearningPathFailureMessage, map[], None))
  {
    var errors := FieldErrorsOf(
      "skills", MinLengthIssues(skills, LearningPathMinLength, "Please list at least one skill."),
      "interests", MinLengthIssues(interests, LearningPathMinLength, "Please list at least one interest."));
    if errors != map[] then ActionResult(InvalidInputMessage, errors, None)
    else
      assert "skills" !in errors && "interests" !in errors;
      Respond(flow(LearningPathInput(skills.value, interests.value)), _ => LearningPathFailureMessage)
  }

  /** The try-on failure message: the fixed prefix, then the error's message. */
  function TryOnFailureMessage(e: Exception): (r: string)
    ensures e.Error? ==> r == TryOnFailurePrefix + e.message
    ensures e.NonError? ==> r == TryOnFailurePrefix + UnknownErrorText
  {
    TryOnFailurePrefix + (if e.Error? then e.message else UnknownErrorText)
  }

  /** `virtualTryOnAction`; `isUrl` is the schema library's URL test. */
  function TryOnAction(userImageDataUri: Option<string>, productImageUrl: Option<string>, isUrl: string -> bool,
                       flow: TryOn.TryOnInput -> FlowOutcome<TryOn.TryOnOutput>): (r: ActionResult<TryOn.TryOnOutput>)
    ensures r.errors == map[] <==> userImageDataUri.Some? && productImageUrl.Some? && isUrl(productImageUrl.value)
    ensures r.errors != map[] ==>
      && r.message == InvalidTryOnMessage && r.data.None?
      && ("userImageDataUri" in r.errors <==> userImageDataUri.None?)
      && ("productImageUrl" in r.errors <==> !(productImageUrl.Some? && isUrl(productImageUrl.value)))
    ensures r.errors == map[] ==>
      var outcome := flow(TryOn.TryOnInput(userImageDataUri.value, productImageUrl.value));
      && (outcome.Returned? ==> r == ActionResult(SuccessMessage, map[], Some(outcome.value)))
      && (outcome.Threw? ==> r == ActionResult(TryOnFailureMessage(outcome.error), map[], None))
  {
    var errors := FieldErrorsOf(
      "userImageDataUri", if userImageDataUri.None? then [NotAStringIssue] else [],
      "productImageUrl", UrlIssues(productImageUrl, isUrl));
    if errors != map[] then ActionResult(InvalidTryOnMessage, errors, None)
    else
      assert "userImageDataUri" !in errors && "productImageUrl" !in errors;
      Respond(flow(TryOn.TryOnInput(userImageDataUri.value, productImageUrl.value)), TryOnFailureMessage)
  }

  /** On invalid input no action consults its flow: any two flows give the same result. */
  lemma InvalidInputNeverCallsFlow<T>(
    a: Option<string>, b: Option<string>, isUrl: string -> bool,
    s1: StylingInput -> FlowOutcome<T>, s2: StylingInput -> FlowOutcome<T>,
    l1: LearningPathInput -> FlowOutcome<T>, l2: LearningPathInput -> FlowOutcome<T>,
    t1: TryOn.TryOnInput -> FlowOutcome<TryOn.TryOnOutput>, t2: TryOn.TryOnInput -> FlowOutcome<TryOn.TryOnOutput>)
    ensures !(MeetsMin(a, StylingMinLength) && MeetsMin(b, StylingMinLength)) ==>
      StylingAction(a, b, s1) == StylingAction(a, b, s2)
    ensures !(MeetsMin(a, LearningPathMinLength) && MeetsMin(b, LearningPathMinLength)) ==>
      LearningPathAction(a, b, l1) == LearningPathAction(a, b, l2)
    ensures !(a.Some? && b.Some? && isUrl(b.value)) ==>
      TryOnAction(a, b, isUrl, t1) == TryOnAction(a, b, isUrl, t2)
  {
  }

  /** The try-on flow's result as an awaited call: its output, or what it throws. */
  function Awaited(r: Result<TryOn.TryOnOutput, Exception>): (o: FlowOutcome<TryOn.TryOnOutput>)
    ensures o.Returned? <==> r.Ok?
    ensures r.Ok? ==> o.value == r.value
    ensures r.Err? ==> o.error == r.error
  {
    match r
    case Ok(v) => Returned(v)
    case Err(e) => Threw(e)
  }

  /**
   * End to end: a valid try-on request whose product image answers with a
   * non-OK status reports the fetch failure and its status text to the page.
   */
  lemma UnreachableProductImageIsReported(
    userImageDataUri: string, productImageUrl: string, isUrl: string -> bool,
    fetch: string -> TryOn.FetchOutcome, base64: seq<TryOn.Byte> -> string,
    generate: TryOn.GenerateRequest -> TryOn.GenerateOutcome)
    requires isUrl(productImageUrl)
    requires fetch(productImageUrl).Response? && !fetch(productImageUrl).ok
    ensures TryOnAction(Some(userImageDataUri), Some(productImageUrl), isUrl,
                        i => Awaited(TryOn.VirtualTryOnFlow(i, fetch, base64, generate)))
      == ActionResult(TryOnFailurePrefix + TryOn.FetchFailedPrefix + fetch(productImageUrl).statusText, map[], None)
  {
    var input := TryOn.TryOnInput(userImageDataUri, productImageUrl);
    TryOn.UnreachableImageFails(input, fetch, base64, generate);
    assert TryOnFailurePrefix + (TryOn.FetchFailedPrefix + fetch(productImageUrl).statusText)
        == TryOnFailurePrefix + TryOn.FetchFailedPrefix + fetch(productImageUrl).statusText;
  }
}
