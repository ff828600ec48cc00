/** The request detail page (`client/pages/RequestDetail.tsx`): the budget and time
    formatting, the proposal form with its "what is included" list, and the rules that
    decide who may send a proposal and who may accept or reject one. */
module RequestDetail {
  import opened Common
  import opened Requests
  import Auth
  import StatusTracker

  /** `formatBudget`: a fixed budget shows only its minimum. */
  function FormatBudget(b: Budget): (r: string)
    ensures b.kind == Fixed ==> r == "R$ " + b.min
    ensures b.kind == Range ==> r == "R$ " + b.min + " - R$ " + b.max
  {
    if b.kind == Fixed then "R$ " + b.min else "R$ " + b.min + " - R$ " + b.max
  }

  /** The fixed form ignores the maximum, and is where the range form starts. */
  lemma FormatBudgetShapes(b: Budget, otherMax: string)
    ensures FormatBudget(b.(kind := Fixed, max := otherMax)) == FormatBudget(b.(kind := Fixed))
    ensures FormatBudget(b.(kind := Fixed)) <= FormatBudget(b.(kind := Range))
    ensures |FormatBudget(b.(kind := Range))| == |FormatBudget(b.(kind := Fixed))| + 6 + |b.max|
  {
  }

  const TimeLabels: map<string, string> := map[
    "morning" := "Manhã (8h - 12h)",
    "afternoon" := "Tarde (12h - 18h)",
    "evening" := "Noite (18h - 22h)",
    "flexible" := "Horário flexível"]

  /** `formatTime`: the four preferred-time keys become their labels; any other string is
      shown as it is. */
  function FormatTime(t: string): (r: string)
    ensures t == "morning" ==> r == "Manhã (8h - 12h)"
    ensures t == "afternoon" ==> r == "Tarde (12h - 18h)"
    ensures t == "evening" ==> r == "Noite (18h - 22h)"
    ensures t == "flexible" ==> r == "Horário flexível"
    ensures t !in {"morning", "afternoon", "evening", "flexible"} ==> r == t
  {
    if t in TimeLabels then TimeLabels[t] else t
  }

  /** No label is itself a key, so formatting a formatted time changes nothing. */
  lemma FormatTimeIdempotent(t: string)
    ensures FormatTime(FormatTime(t)) == FormatTime(t)
  {
  }

  /** The characters `String.prototype.trim` removes: ECMAScript white space and line
      terminators. */
  const JsSpaces: set<char> := {'\t', '\n', '\U{000B}', '\U{000C}', '\r', ' ', '\U{00A0}', '\U{1680}',
                                 '\U{2028}', '\U{2029}', '\U{202F}', '\U{205F}', '\U{3000}', '\U{FEFF}'}

  predicate IsJsWhitespace(c: char) {
    c in JsSpaces || ('\U{2000}' <= c <= '\U{200A}')
  }

  predicate Blank(s: string) {
    forall i :: 0 <= i < |s| ==> IsJsWhitespace(s[i])
  }

  function TrimStart(s: string): (r: string)
    ensures r == "" <==> Blank(s)
    ensures |r| <= |s| && r == s[|s| - |r|..]
    ensures r != "" ==> !IsJsWhitespace(r[0])
    decreases |s|
  {
    if s == [] || !IsJsWhitespace(s[0]) then s else TrimStart(s[1..])
  }

  function TrimEnd(s: string): (r: string)
    ensures r == "" <==> Blank(s)
    ensures |r| <= |s| && r == s[..|r|]
    ensures r != "" ==> !IsJsWhitespace(r[|r| - 1])
    decreases |s|
  {
    if s == [] || !IsJsWhitespace(s[|s| - 1]) then s else TrimEnd(s[..|s| - 1])
  }

  lemma BlankCons(c: char, s: string, k: nat)
    requires s != [] && s[0] == c && k < |s| && IsJsWhitespace(c) && Blank(s[1..][..k])
    ensures Blank(s[..k + 1])
  {
    assert forall i :: 1 <= i < k + 1 ==> s[..k + 1][i] == s[i] == s[1..][..k][i - 1];
  }

  lemma BlankSnoc(s: string, c: char)
    requires IsJsWhitespace(c) && Blank(s)
    ensures Blank(s + [c])
  {
    assert forall i :: 0 <= i < |s| ==> (s + [c])[i] == s[i];
  }

  /** What `TrimStart` drops is white space. */
  lemma {:induction false} TrimStartDropsBlank(s: string)
    ensures Blank(s[..|s| - |TrimStart(s)|])
    decreases |s|
  {
    if s != [] && IsJsWhitespace(s[0]) {
      var rest := s[1..];
      TrimStartDropsBlank(rest);
      var k := |rest| - |TrimStart(rest)|;
      assert TrimStart(s) == TrimStart(rest);
      BlankCons(s[0], s, k);
    }
  }

  /** What `TrimEnd` drops is white space. */
  lemma {:induction false} TrimEndDropsBlank(s: string)
    ensures Blank(s[|TrimEnd(s)|..])
    decreases |s|
  {
    if s != [] && IsJsWhitespace(s[|s| - 1]) {
      var rest := s[..|s| - 1];
      TrimEndDropsBlank(rest);
      var k := |TrimEnd(rest)|;
      assert TrimEnd(s) == TrimEnd(rest);
      BlankSnoc(rest[k..], s[|s| - 1]);
      assert s[k..] == rest[k..] + [s[|s| - 1]];
    }
  }

  /** `s.trim()`: empty exactly when `s` is all white space, and otherwise the piece of
      `s` between a blank prefix and a blank suffix that starts and ends with a visible
      character. */
  function Trim(s: string): (r: string)
    ensures r == "" <==> Blank(s)
    ensures r != "" ==> !IsJsWhitespace(r[0]) && !IsJsWhitespace(r[|r| - 1])
    ensures |r| <= |s|
  {
    var t := TrimStart(s);
    var r := TrimEnd(t);
    assert t != "" ==> t[..1] == [t[0]];
    r
  }

  /** `Trim(s)` is the piece of `s` that starts where `TrimStart` stops ... */
  lemma TrimIsInfix(s: string)
    ensures var lead := |s| - |TrimStart(s)|;
      lead + |Trim(s)| <= |s| && Trim(s) == s[lead..lead + |Trim(s)|]
  {
    var t := TrimStart(s);
    assert Trim(s) == TrimEnd(t);
  }

  /** ... and what it drops after that piece is white space (what it drops before it is
      what `TrimStart` drops). */
  lemma TrimDropsBlankSuffix(s: string)
    ensures Blank(s[|s| - |TrimStart(s)| + |Trim(s)|..])
  {
    var t := TrimStart(s);
    TrimEndDropsBlank(t);
    assert Trim(s) == TrimEnd(t);
    BlankSuffixOf(s, |s| - |t|, |TrimEnd(t)|, t);
  }

  lemma BlankSuffixOf(s: string, lead: nat, n: nat, t: string)
    requires lead <= |s| && t == s[lead..] && n <= |t| && Blank(t[n..])
    ensures Blank(s[lead + n..])
  {
    assert s[lead + n..] == t[n..];
  }

  function NotBlank(): string -> bool {
    (s: string) => Trim(s) != ""
  }

  /** `includes.filter(item => item.trim())`: the entries that are not all white space, in
      their order. */
  function SubmittedIncludes(items: seq<string>): (r: seq<string>)
    ensures forall x :: x in r <==> x in items && !Blank(x)
    ensures forall x :: multiset(r)[x] == if Blank(x) then 0 else multiset(items)[x]
    ensures |r| <= |items|
  {
    Filter(items, NotBlank())
  }

  /** Filtering the list of a concatenation filters each part, so the kept entries keep
      their relative order. */
  lemma SubmittedIncludesOrder(a: seq<string>, b: seq<string>)
    ensures SubmittedIncludes(a + b) == SubmittedIncludes(a) + SubmittedIncludes(b)
  {
    FilterAppend(a, b, NotBlank());
  }

  /** `proposalData` */
  datatype ProposalForm = ProposalForm(
    message: string, price: string, estimatedDuration: string, deliveryDate: string, includes: seq<string>)

  /** The form as first shown and as reset after a successful send. */
  function EmptyProposalForm(): (f: ProposalForm)
    ensures f.message == "" && f.price == "" && f.estimatedDuration == "" && f.deliveryDate == ""
    ensures f.includes == [""]
  {
    ProposalForm("", "", "", "", [""])
  }

  /** What a click on "send" does: refuse with a message, or send this body. */
  datatype Submission =
    | Refused(message: string)
    | Send(body: NewProposalBody, includes: seq<string>, deliveryDate: string)

  /** `handleSubmitProposal`: message, price and duration are required. The body carries
      neither an id nor a professional id, so the server fills in both. `toNumber` is
      `Number(...)` on the price text. */
  function SubmitProposal(form: ProposalForm, userName: string, toNumber: string -> real): (r: Submission)
    ensures r.Refused? <==> form.message == "" || form.price == "" || form.estimatedDuration == ""
    ensures r.Refused? ==> r.message == "Preencha todos os campos obrigatórios"
    ensures r.Send? ==>
      && r.body.id.None? && r.body.professionalId.None?
      && r.body.professionalName == (if userName == "" then "Professional" else userName)
      && r.body.message == form.message && r.body.price == toNumber(form.price)
      && r.body.estimatedDuration == form.estimatedDuration
      && r.includes == SubmittedIncludes(form.includes)
  {
    if form.message == "" || form.price == "" || form.estimatedDuration == "" then
      Refused("Preencha todos os campos obrigatórios")
    else
      Send(NewProposalBody(None, None, if userName == "" then "Professional" else userName, "/placeholder.svg",
                           form.message, toNumber(form.price), form.estimatedDuration),
           SubmittedIncludes(form.includes), form.deliveryDate)
  }

  /** "+ Adicionar item" */
  function AddInclude(items: seq<string>): (r: seq<string>)
    ensures |r| == |items| + 1 && r[..|items|] == items && r[|items|] == ""
  {
    items + [""]
  }

  /** Typing into entry `index`. */
  function UpdateInclude(items: seq<string>, index: int, value: string): (r: seq<string>)
    ensures |r| == |items|
    ensures forall k :: 0 <= k < |items| && k != index ==> r[k] == items[k]
    ensures 0 <= index < |items| ==> r[index] == value
  {
    UpdateAt(items, index, value)
  }

  /** The remove button of entry `index`. */
  function RemoveInclude(items: seq<string>, index: int): (r: seq<string>)
    ensures 0 <= index < |items| ==> r == items[..index] + items[index + 1..] && |r| == |items| - 1
    ensures !(0 <= index < |items|) ==> r == items
  {
    RemoveAt(items, index)
  }

  /** The remove button is shown only while the list has more than one entry. */
  predicate CanRemoveInclude(items: seq<string>) {
    |items| > 1
  }

  /** The list starts with one entry and no offered edit empties it. */
  lemma IncludesStayNonEmpty(items: seq<string>, index: int, value: string)
    requires |items| >= 1
    ensures |EmptyProposalForm().includes| == 1
    ensures |AddInclude(items)| >= 1 && |UpdateInclude(items, index, value)| >= 1
    ensures CanRemoveInclude(items) ==> |RemoveInclude(items, index)| >= 1
  {
  }

  predicate IsOwner(r: ServiceRequest, user: Auth.Profile) {
    r.userId == user.id
  }

  predicate IsProfessional(user: Auth.Profile) {
    user.role == Professional
  }

  /** `request.proposals.some(p => p.professionalId === user.id)` */
  predicate HasProposal(r: ServiceRequest, user: Auth.Profile) {
    exists k :: 0 <= k < |r.proposals| && r.proposals[k].professionalId == user.id
  }

  /** The "send a proposal" panel: a professional who does not own the request and has not
      proposed yet, on an open request. */
  function CanPropose(r: ServiceRequest, user: Auth.Profile): (b: bool)
    ensures b ==> IsProfessional(user) && !IsOwner(r, user) && !HasProposal(r, user) && r.status == Open
    ensures IsProfessional(user) && !IsOwner(r, user) && !HasProposal(r, user) && r.status == Open ==> b
  {
    IsProfessional(user) && !IsOwner(r, user) && !HasProposal(r, user) && r.status == Open
  }

  /** The accept / reject buttons: only the owner, only on a pending proposal. */
  function CanDecide(r: ServiceRequest, user: Auth.Profile, p: Proposal): (b: bool)
    ensures b <==> IsOwner(r, user) && p.status == Pending
  {
    IsOwner(r, user) && p.status == Pending
  }

  /** `request.proposals.find(p => p.status === "accepted")` */
  function AcceptedProposal(r: ServiceRequest): (res: Option<Proposal>)
    ensures res.None? <==> forall k :: 0 <= k < |r.proposals| ==> !IsAccepted(r.proposals[k])
    ensures res.Some? ==> res.value.status == Accepted
    ensures res.Some? ==> exists k :: 0 <= k < |r.proposals| && r.proposals[k] == res.value && (forall j :: 0 <= j < k ==> !IsAccepted(r.proposals[j]))
  {
    match FindIndex(r.proposals, IsAccepted)
    case None => None
    case Some(k) => Some(r.proposals[k])
  }

  /** The properties the page hands to the status tracker: the accepted proposal, with
      `acceptedAt` and the completion and cancellation times all set to the current time
      `nowIso`, no review, and a pending payment. */
  function TrackerFor(r: ServiceRequest, nowIso: string): (t: StatusTracker.TrackerInput)
    ensures t.requestStatus == r.status
    ensures t.acceptedProposal.Some? <==> AcceptedProposal(r).Some?
    ensures t.completedAt == (if r.status == Completed then Some(nowIso) else None)
    ensures t.cancelledAt == (if r.status == Cancelled then Some(nowIso) else None)
    ensures !t.reviewSubmitted && t.paymentStatus == Some(StatusTracker.Unpaid)
    ensures t.acceptedProposal.Some? ==>
      var p := AcceptedProposal(r).value;
      t.acceptedProposal.value == StatusTracker.AcceptedSummary(p.professionalName, p.professionalAvatar, p.price, nowIso)
  {
    var summary := match AcceptedProposal(r)
      case None => None
      case Some(p) => Some(StatusTracker.AcceptedSummary(p.professionalName, p.professionalAvatar, p.price, nowIso));
    StatusTracker.TrackerInput(
      r.status, summary,
      if r.status == Completed then Some(nowIso) else None,
      if r.status == Cancelled then Some(nowIso) else None,
      false, Some(StatusTracker.Unpaid))
  }

  /** Once the server has stored a professional's proposal (sent without a professional
      id, as the page sends it), the page no longer offers that professional the form. */
  lemma ProposingEndsEligibility(r: ServiceRequest, user: Auth.Profile, body: NewProposalBody, freshId: string, now: Timestamp)
    requires body.professionalId.None?
    ensures var r' := r.(proposals := r.proposals + [NewProposal(user.id, body, freshId, now)], updatedAt := now);
      HasProposal(r', user) && !CanPropose(r', user)
  {
    var r' := r.(proposals := r.proposals + [NewProposal(user.id, body, freshId, now)], updatedAt := now);
    assert r'.proposals[|r.proposals|].professionalId == user.id;
  }

  /** After the owner accepts a proposal (ids distinct), no proposal of the request offers
      accept / reject any more, nobody is offered the proposal form, and the page's lookup
      finds exactly the accepted proposal. */
  lemma AcceptClosesDecisions(r: ServiceRequest, j: nat, id: string, now: Timestamp, user: Auth.Profile)
    requires j < |r.proposals| && r.proposals[j].id == id
    requires DistinctIds(r.proposals)
    ensures var r' := Decided(r, j, id, Accepted, now);
      && (forall k :: 0 <= k < |r'.proposals| ==> !CanDecide(r', user, r'.proposals[k]))
      && !CanPropose(r', user)
      && AcceptedProposal(r') == Some(r'.proposals[j])
  {
    var r' := Decided(r, j, id, Accepted, now);
    AcceptLeavesExactlyOne(r, j, id, now);
    assert forall k :: 0 <= k < j ==> !IsAccepted(r'.proposals[k]);
    assert FindIndex(r'.proposals, IsAccepted) == Some(j);
  }

  /** After an accept, the tracker on the page shows the proposals step done and the
      in-progress step as the single current step. */
  lemma AcceptShownInTracker(r: ServiceRequest, j: nat, id: string, now: Timestamp, user: Auth.Profile, nowIso: string)
    requires j < |r.proposals| && r.proposals[j].id == id
    requires DistinctIds(r.proposals)
    ensures var steps := StatusTracker.GetSteps(TrackerFor(Decided(r, j, id, Accepted, now), nowIso));
      && steps[1].status == StatusTracker.Done
      && steps[2].status == StatusTracker.Current
      && StatusTracker.CountCurrent(steps) == 1
  {
    var r' := Decided(r, j, id, Accepted, now);
    AcceptClosesDecisions(r, j, id, now, user);
    var t := TrackerFor(r', nowIso);
    assert t.requestStatus == InProgress && t.acceptedProposal.Some?;
    StatusTracker.CurrentStepCount(t);
  }
}
