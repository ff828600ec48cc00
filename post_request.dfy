/** The four-step "post a request" form (`client/pages/PostRequest.tsx`): the form data, the
    attached images, the current step, and the rule that decides whether a step is
    complete. */
module PostRequest {
  import opened Common
  import opened Requests

  /** `requestData`, without the map coordinates (always `null` in this form). Urgency is
      the raw string the form holds. */
  datatype FormData = FormData(
    category: string,
    title: string,
    description: string,
    address: string,
    city: string,
    state: string,
    urgency: string,
    budgetMin: string,
    budgetMax: string,
    budgetKind: BudgetType,
    preferredDate: string,
    preferredTime: string,
    contactPreference: ContactPreference)

  /** The initial form, which is also what a successful submit resets it to. */
  function DefaultForm(): (f: FormData)
    ensures f.category == "" && f.title == "" && f.description == ""
    ensures f.address == "" && f.city == "" && f.state == ""
    ensures f.urgency == "medium" && f.budgetMin == "" && f.budgetMax == "" && f.budgetKind == Range
    ensures f.preferredDate == "" && f.preferredTime == "" && f.contactPreference == Both
  {
    FormData("", "", "", "", "", "", "medium", "", "", Range, "", "", Both)
  }

  /** `isStepComplete`: the required fields of steps 1 to 3 are non-empty; no other step
      number is ever complete. */
  function IsStepComplete(data: FormData, step: int): (r: bool)
    ensures step == 1 ==> (r <==> data.category != "" && data.title != "" && data.description != "")
    ensures step == 2 ==> (r <==> data.address != "" && data.city != "" && data.state != "")
    ensures step == 3 ==> (r <==>
      data.urgency != "" && data.budgetMin != "" && (data.budgetKind == Range ==> data.budgetMax != ""))
    ensures step !in {1, 2, 3} ==> !r
  {
    if step == 1 then data.category != "" && data.title != "" && data.description != ""
    else if step == 2 then data.address != "" && data.city != "" && data.state != ""
    else if step == 3 then
      data.urgency != "" && (if data.budgetKind == Fixed then data.budgetMin != "" else data.budgetMin != "" && data.budgetMax != "")
    else false
  }

  /** A fresh (or reset) form completes no step, so "next" starts out disabled. */
  lemma DefaultFormIncomplete(step: int)
    ensures !IsStepComplete(DefaultForm(), step)
  {
  }

  /** For a fixed budget, the maximum plays no part in completing step 3. */
  lemma FixedBudgetIgnoresMax(data: FormData, max: string, step: int)
    requires data.budgetKind == Fixed
    ensures IsStepComplete(data.(budgetMax := max), step) == IsStepComplete(data, step)
  {
  }

  datatype Notice = Quiet | Success(message: string) | Failure(message: string)

  /** How the `POST /api/requests` call ended: accepted, answered with an error status,
      or rejected by `fetch` with an `Error` carrying a message (`Some`) or with some
      other value (`None`). */
  datatype PostOutcome = Posted | NotOk | Threw(errorMessage: Option<string>)

  /** The text of the error notice for a failed post. */
  function FailureText(outcome: PostOutcome): (t: string)
    ensures outcome.Threw? && outcome.errorMessage.Some? ==> t == outcome.errorMessage.value
    ensures !(outcome.Threw? && outcome.errorMessage.Some?) ==> t == "Erro ao publicar solicitação"
  {
    if outcome.Threw? && outcome.errorMessage.Some? then outcome.errorMessage.value
    else "Erro ao publicar solicitação"
  }

  class PostRequestForm {
    var currentStep: int
    var data: FormData
    var images: seq<string>
    var authModalOpen: bool

    /** The step shown is always one of the four. */
    predicate Valid()
      reads this
    {
      1 <= currentStep <= 4
    }

    constructor ()
      ensures Valid() && currentStep == 1 && data == DefaultForm() && images == [] && !authModalOpen
    {
      currentStep := 1;
      data := DefaultForm();
      images := [];
      authModalOpen := false;
    }

    /** "Voltar", offered only above step 1. */
    method Back()
      requires Valid() && currentStep > 1
      modifies this
      ensures Valid() && currentStep == old(currentStep) - 1
      ensures data == old(data) && images == old(images) && authModalOpen == old(authModalOpen)
    {
      currentStep := currentStep - 1;
    }

    /** "Próximo", offered only below step 4 and enabled only when the step is complete. */
    method Next()
      requires Valid() && currentStep < 4 && IsStepComplete(data, currentStep)
      modifies this
      ensures Valid() && currentStep == old(currentStep) + 1
      ensures data == old(data) && images == old(images) && authModalOpen == old(authModalOpen)
    {
      currentStep := currentStep + 1;
    }

    /** Typing into the form. */
    method Edit(newData: FormData)
      requires Valid()
      modifies this
      ensures Valid() && data == newData
      ensures currentStep == old(currentStep) && images == old(images) && authModalOpen == old(authModalOpen)
    {
      data := newData;
    }

    /** A finished file read appends its data URL. */
    method AddImage(url: string)
      requires Valid()
      modifies this
      ensures Valid() && images == old(images) + [url]
      ensures currentStep == old(currentStep) && data == old(data) && authModalOpen == old(authModalOpen)
    {
      images := images + [url];
    }

    /** `removeImage(index)`: drops the image at `index` and keeps the others in order; an
        index out of range changes nothing. */
    method RemoveImage(index: int)
      requires Valid()
      modifies this
      ensures Valid() && images == RemoveAt(old(images), index)
      ensures 0 <= index < |old(images)| ==>
        && images == old(images)[..index] + old(images)[index + 1..]
        && multiset(images) == multiset(old(images)) - multiset{old(images)[index]}
      ensures currentStep == old(currentStep) && data == old(data) && authModalOpen == old(authModalOpen)
    {
      if 0 <= index < |images| {
        RemoveAtMultiset(images, index);
      }
      images := RemoveAt(images, index);
    }

    /** "Publicar Solicitação". Without a user it opens the login dialog; otherwise
        `outcome` is how the post ended, and only a post the server accepted resets the
        form. */
    method Submit(loggedIn: bool, outcome: PostOutcome) returns (notice: Notice)
      requires Valid()
      modifies this
      ensures Valid()
      ensures !loggedIn ==>
        && notice == Quiet && authModalOpen
        && currentStep == old(currentStep) && data == old(data) && images == old(images)
      ensures loggedIn && outcome == Posted ==>
        && notice == Success("Solicitação publicada com sucesso!")
        && currentStep == 1 && data == DefaultForm() && images == [] && authModalOpen == old(authModalOpen)
      ensures loggedIn && outcome != Posted ==>
        && notice == Failure(FailureText(outcome))
        && currentStep == old(currentStep) && data == old(data) && images == old(images)
        && authModalOpen == old(authModalOpen)
    {
      if !loggedIn {
        authModalOpen := true;
        return Quiet;
      }
      if outcome != Posted {
        return Failure(FailureText(outcome));
      }
      data := DefaultForm();
      images := [];
      currentStep := 1;
      notice := Success("Solicitação publicada com sucesso!");
    }
  }
}
