/** The progress display of a service request (`client/components/RequestStatusTracker.tsx`):
    the list of steps derived from the request's status, the accepted proposal, the review
    and the payment, and which quick actions are shown. */
module StatusTracker {
  import opened Common
  import opened Requests

  /** `"completed" | "current" | "pending" | "cancelled"` */
  datatype StepStatus = Done | Current | Pending | Stopped
  datatype PaymentStatus = Unpaid | Paid | Refunded

  /** The `acceptedProposal` property. */
  datatype AcceptedSummary = AcceptedSummary(professionalName: string, professionalAvatar: string, price: real, acceptedAt: string)

  /** A step as displayed, without its icon and its free-text details. */
  datatype Step = Step(id: string, title: string, description: string, status: StepStatus, timestamp: Option<string>)

  /** The properties of the component the steps depend on. */
  datatype TrackerInput = TrackerInput(
    requestStatus: RequestStatus,
    acceptedProposal: Option<AcceptedSummary>,
    completedAt: Option<string>,
    cancelledAt: Option<string>,
    reviewSubmitted: bool,
    paymentStatus: Option<PaymentStatus>)

  /** The payment step's description: fixed by the payment status, with an absent status
      treated like a pending one. */
  function PaymentDescription(paymentStatus: Option<PaymentStatus>): (r: string)
    ensures paymentStatus == Some(Paid) <==> r == "Pagamento confirmado"
    ensures paymentStatus == Some(Refunded) <==> r == "Pagamento estornado"
    ensures paymentStatus.None? || paymentStatus == Some(Unpaid) <==> r == "Processar pagamento"
  {
    match paymentStatus
    case Some(Paid) => "Pagamento confirmado"
    case Some(Refunded) => "Pagamento estornado"
    case _ => "Processar pagamento"
  }

  /** The payment step's details, chosen the same way. */
  function PaymentDetails(paymentStatus: Option<PaymentStatus>): (r: string)
    ensures paymentStatus == Some(Paid) <==> r == "Pagamento foi processado com sucesso"
    ensures paymentStatus == Some(Refunded) <==> r == "Valor foi estornado para sua conta"
    ensures paymentStatus.None? || paymentStatus == Some(Unpaid) <==> r == "Efetue o pagamento para finalizar a transação"
  {
    match paymentStatus
    case Some(Paid) => "Pagamento foi processado com sucesso"
    case Some(Refunded) => "Valor foi estornado para sua conta"
    case _ => "Efetue o pagamento para finalizar a transação"
  }

  /** The four steps every request shows. */
  function BaseSteps(t: TrackerInput): (r: seq<Step>)
    ensures |r| == 4
    ensures r[0].id == "created" && r[1].id == "proposals" && r[2].id == "in_progress" && r[3].id == "completed"
    ensures r[0].status == Done
    ensures t.acceptedProposal.Some? ==> r[1].timestamp == Some(t.acceptedProposal.value.acceptedAt) && r[2].timestamp == r[1].timestamp
    ensures t.acceptedProposal.None? ==> r[1].timestamp.None? && r[2].timestamp.None?
    ensures r[0].timestamp == Some("2024-02-10 14:30")
    ensures r[3].timestamp == t.completedAt
  {
    var s := t.requestStatus;
    var acceptedAt := if t.acceptedProposal.Some? then Some(t.acceptedProposal.value.acceptedAt) else None;
    [ Step("created", "Solicitação Criada", "Sua solicitação foi publicada", Done, Some("2024-02-10 14:30")),
      Step("proposals", "Recebendo Propostas", "Profissionais estão enviando propostas",
           if t.acceptedProposal.Some? then Done else if s == Cancelled then Stopped else Current, acceptedAt),
      Step("in_progress", "Serviço em Andamento", "Profissional está executando o serviço",
           if s == Completed then Done else if s == InProgress then Current else if s == Cancelled then Stopped else StepStatus.Pending,
           acceptedAt),
      Step("completed", "Serviço Concluído", "Trabalho finalizado com sucesso",
           if s == Completed then Done else if s == Cancelled then Stopped else StepStatus.Pending, t.completedAt) ]
  }

  /** `getSteps`: four steps, then review and payment for a completed request, or one
      closing step for a cancelled one. */
  function GetSteps(t: TrackerInput): (r: seq<Step>)
    ensures |r| == match t.requestStatus case Open => 4 case InProgress => 4 case Completed => 6 case Cancelled => 5
    ensures r[0].id == "created" && r[0].status == Done
    ensures r[1].id == "proposals" && r[2].id == "in_progress" && r[3].id == "completed"
    ensures r[1].status == Done <==> t.acceptedProposal.Some?
    ensures r[1].status == Stopped <==> t.acceptedProposal.None? && t.requestStatus == Cancelled
    ensures r[1].status == Current <==> t.acceptedProposal.None? && t.requestStatus != Cancelled
    ensures r[2].status == match t.requestStatus
      case Completed => Done case InProgress => Current case Cancelled => Stopped case Open => StepStatus.Pending
    ensures r[3].status == match t.requestStatus
      case Completed => Done case Cancelled => Stopped case _ => StepStatus.Pending
    ensures t.requestStatus == Completed ==>
      && r[4].id == "review" && (r[4].status == Done <==> t.reviewSubmitted) && (r[4].status == Current <==> !t.reviewSubmitted)
      && r[5].id == "payment" && (r[5].status == Done <==> t.paymentStatus == Some(Paid))
      && (r[5].status == Current <==> t.paymentStatus != Some(Paid))
      && r[5].description == PaymentDescription(t.paymentStatus)
    ensures t.requestStatus == Cancelled ==>
      r[4] == Step("cancelled", "Solicitação Cancelada", "A solicitação foi cancelada", Stopped, t.cancelledAt)
  {
    var base := BaseSteps(t);
    match t.requestStatus
    case Completed =>
      base
      + [Step("review", "Avaliação", if t.reviewSubmitted then "Avaliação enviada" else "Avalie o profissional",
              if t.reviewSubmitted then Done else Current, None)]
      + [Step("payment", "Pagamento", PaymentDescription(t.paymentStatus),
              if t.paymentStatus == Some(Paid) then Done else Current, None)]
    case Cancelled =>
      base + [Step("cancelled", "Solicitação Cancelada", "A solicitação foi cancelada", Stopped, t.cancelledAt)]
    case _ => base
  }

  /** The number of steps shown as current. */
  function CountCurrent(steps: seq<Step>): nat
    decreases |steps|
  {
    if steps == [] then 0
    else (if steps[0].status == Current then 1 else 0) + CountCurrent(steps[1..])
  }

  /** A cancelled request shows no current step: everything after the first two steps is
      cancelled, and so is the proposals step unless a proposal had been accepted. */
  lemma CancelledShowsNothingCurrent(t: TrackerInput)
    requires t.requestStatus == Cancelled
    ensures forall k :: 0 <= k < |GetSteps(t)| ==> GetSteps(t)[k].status != Current
    ensures forall k :: 2 <= k < |GetSteps(t)| ==> GetSteps(t)[k].status == Stopped
    ensures t.acceptedProposal.None? ==> GetSteps(t)[1].status == Stopped
  {
    var r := GetSteps(t);
    assert |r| == 5;
  }

  /** A completed request that was reviewed and paid shows every step as done. */
  lemma FinishedShowsAllDone(t: TrackerInput)
    requires t.requestStatus == Completed && t.acceptedProposal.Some?
    requires t.reviewSubmitted && t.paymentStatus == Some(Paid)
    ensures forall k :: 0 <= k < |GetSteps(t)| ==> GetSteps(t)[k].status == Done
  {
    var r := GetSteps(t);
    assert |r| == 6;
  }

  /** An open request without an accepted proposal shows exactly one current step, and so
      does an in-progress request with one. An in-progress request without an accepted
      proposal shows two: the proposals step and the in-progress step. */
  lemma {:induction false} CurrentStepCount(t: TrackerInput)
    requires t.requestStatus == Open || t.requestStatus == InProgress
    ensures t.requestStatus == Open && t.acceptedProposal.None? ==> CountCurrent(GetSteps(t)) == 1
    ensures t.requestStatus == InProgress && t.acceptedProposal.Some? ==> CountCurrent(GetSteps(t)) == 1
    ensures t.requestStatus == InProgress && t.acceptedProposal.None? ==> CountCurrent(GetSteps(t)) == 2
  {
    var r := GetSteps(t);
    assert |r| == 4;
    assert CountCurrent(r[3..]) == (if r[3].status == Current then 1 else 0) + CountCurrent(r[4..]);
    assert r[2..][1..] == r[3..];
    assert r[1..][1..] == r[2..];
    assert CountCurrent(r[2..]) == (if r[2].status == Current then 1 else 0) + CountCurrent(r[3..]);
    assert CountCurrent(r[1..]) == (if r[1].status == Current then 1 else 0) + CountCurrent(r[2..]);
    assert CountCurrent(r) == (if r[0].status == Current then 1 else 0) + CountCurrent(r[1..]);
  }

  /** The quick actions block is shown for an open or in-progress request. */
  function ShowQuickActions(status: RequestStatus): (r: bool)
    ensures r <==> status == Open || status == InProgress
  {
    status != Cancelled && status != Completed
  }

  /** Inside the quick actions, the cancel button is shown only for an open request. */
  function ShowCancelButton(status: RequestStatus): (r: bool)
    ensures r <==> status == Open
    ensures r ==> ShowQuickActions(status)
  {
    ShowQuickActions(status) && status == Open
  }
}
