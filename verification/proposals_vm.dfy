/** `ProposalsViewModel`: the received-proposals state, loaded at creation
    from the signed-in user's live query, and the accept/reject commands. */
module ProposalsVm {
  import opened Wrappers
  import opened Resources
  import opened Respond

  /** `TradeProposal`, without its creation time. */
  datatype TradeProposal = TradeProposal(
    id: string,
    proposerTradeId: string,
    receiverTradeId: string,
    proposerId: string,
    receiverId: string,
    status: string)

  /** `proposalsState`, and the user id whose live query feeds it (None: no subscription). */
  datatype ProposalsVm = ProposalsVm(estado: Resource<seq<TradeProposal>>, suscripcion: Option<string>)

  const MsgNoAutenticado := "Usuario no autenticado."

  /** Construction: the state starts as Loading and `loadProposals` runs at
      once; with no user it reports the error and subscribes to nothing,
      otherwise it subscribes to that user's proposals and keeps Loading. */
  function Init(currentUser: Option<string>): (vm: ProposalsVm)
    ensures vm.suscripcion == currentUser
    ensures currentUser.None? ==> Message(vm.estado) == Some(MsgNoAutenticado) && Data(vm.estado).None?
    ensures currentUser.Some? ==> vm.estado.Loading?
  {
    var initial: ProposalsVm := ProposalsVm(Loading, None);
    LoadProposals(initial, currentUser)
  }

  /** `loadProposals()` on a fresh view-model. */
  function LoadProposals(vm: ProposalsVm, currentUser: Option<string>): (r: ProposalsVm)
    ensures currentUser.None? ==> r == ProposalsVm(ErrorOf(MsgNoAutenticado), vm.suscripcion)
    ensures currentUser.Some? ==> r == vm.(suscripcion := currentUser)
  {
    match currentUser
    case None => vm.(estado := ErrorOf(MsgNoAutenticado))
    case Some(uid) => vm.(suscripcion := Some(uid))
  }

  /** `onEach`: an emission of the live query replaces the state; without a
      subscription nothing is emitted. */
  function OnEmission(vm: ProposalsVm, e: Resource<seq<TradeProposal>>): (r: ProposalsVm)
    ensures r.suscripcion == vm.suscripcion
    ensures vm.suscripcion.Some? ==> r.estado == e
    ensures vm.suscripcion.None? ==> r == vm
  {
    if vm.suscripcion.Some? then vm.(estado := e) else vm
  }

  function Emit(vm: ProposalsVm, es: seq<Resource<seq<TradeProposal>>>): ProposalsVm
    decreases |es|
  {
    if |es| == 0 then vm else Emit(OnEmission(vm, es[0]), es[1..])
  }

  /** With a subscription, the state is always the latest emission. */
  lemma {:induction false} StateIsLatestEmission(vm: ProposalsVm, es: seq<Resource<seq<TradeProposal>>>)
    requires vm.suscripcion.Some? && |es| > 0
    ensures Emit(vm, es).estado == es[|es| - 1]
    ensures Emit(vm, es).suscripcion == vm.suscripcion
    decreases |es|
  {
    if |es| > 1 {
      StateIsLatestEmission(OnEmission(vm, es[0]), es[1..]);
    }
  }

  /** Without a user, no emission ever changes the error state. */
  lemma {:induction false} UnauthenticatedStaysError(es: seq<Resource<seq<TradeProposal>>>)
    ensures Emit(Init(None), es) == Init(None)
    decreases |es|
  {
    if |es| > 0 {
      assert OnEmission(Init(None), es[0]) == Init(None);
      UnauthenticatedStaysError(es[1..]);
    }
  }

  /** The view-model after a command, and the repository calls the command's coroutine makes. */
  datatype Answered = Answered(vm: ProposalsVm, calls: seq<StatusUpdate>)

  /** `acceptProposal` / `rejectProposal`: the use case with the flag, and the
      state left to the live query. */
  function AnswerProposal(vm: ProposalsVm, proposalId: string, accept: bool): (r: Answered)
    ensures r.vm == vm
    ensures |r.calls| == 1 && r.calls[0].proposalId == proposalId
    ensures ParseStatus(r.calls[0].newStatus) == Some(if accept then ACCEPTED else REJECTED)
  {
    Answered(vm, RespondToProposal(proposalId, accept))
  }
}
