/** The contract session: a reducer over the binding actions, the binding step
    run whenever the wallet's connection or signer changes, and the session
    object whose reads, writes and event subscriptions are guarded by a bound
    contract. */
module Contract {
  import opened Base
  import opened Text
  import opened Types
  import Config
  import Wallet

  /** A contract object bound to the configured address through a signer. */
  datatype ContractHandle = ContractHandle(address: string, signer: Wallet.Signer)

  datatype ContractState = ContractState(
    contract: Option<ContractHandle>,
    isLoading: bool,
    error: Option<string>)

  const InitialState: ContractState := ContractState(None, false, None)

  datatype ContractAction =
    | InitStart
    | InitSuccess(contract: ContractHandle)
    | InitError(message: string)
    | Reset

  /** `contractReducer` */
  function Reduce(s: ContractState, a: ContractAction): ContractState
  {
    match a
    case InitStart => s.(isLoading := true, error := None)
    case InitSuccess(c) => s.(contract := Some(c), isLoading := false, error := None)
    case InitError(message) => s.(contract := None, isLoading := false, error := Some(message))
    case Reset => InitialState
  }

  /** The state reached from `s` by dispatching `acts` in order. */
  function Run(s: ContractState, acts: seq<ContractAction>): ContractState
    decreases |acts|
  {
    if acts == [] then s else Reduce(Run(s, acts[..|acts| - 1]), acts[|acts| - 1])
  }

  lemma RunOne(s: ContractState, a: ContractAction)
    ensures Run(s, [a]) == Reduce(s, a)
  {
    assert [a][..0] == [];
  }

  lemma RunTwo(s: ContractState, a: ContractAction, b: ContractAction)
    ensures Run(s, [a, b]) == Reduce(Reduce(s, a), b)
  {
    assert [a, b][..1] == [a];
    RunOne(s, a);
  }

  // ---------------------------------------------------------------------------
  // Properties of the reducer

  /** A bound contract and an error are never both present. */
  predicate Exclusive(s: ContractState)
  {
    !(s.contract.Some? && s.error.Some?)
  }

  lemma ReducePreservesExclusive(s: ContractState, a: ContractAction)
    requires Exclusive(s)
    ensures Exclusive(Reduce(s, a))
  {
  }

  lemma {:induction false} RunPreservesExclusive(s: ContractState, acts: seq<ContractAction>)
    requires Exclusive(s)
    ensures Exclusive(Run(s, acts))
    decreases |acts|
  {
    if acts != [] {
      RunPreservesExclusive(s, acts[..|acts| - 1]);
      ReducePreservesExclusive(Run(s, acts[..|acts| - 1]), acts[|acts| - 1]);
    }
  }

  /** An error always unbinds the contract; a reset restores the initial state. */
  lemma InitErrorAndReset(s: ContractState, message: string)
    ensures Reduce(s, InitError(message)) == ContractState(None, false, Some(message))
    ensures Reduce(s, Reset) == InitialState
  {
  }

  /** The four phases the three fields encode. */
  datatype Phase = Idle | Loading | Ready | Failed

  function PhaseOf(s: ContractState): Phase
  {
    if s.isLoading then Loading
    else if s.error.Some? then Failed
    else if s.contract.Some? then Ready
    else Idle
  }

  /** The contract a sequence of actions leaves bound, read from its last
      action that is not `InitStart`: a success binds its contract, an error
      or a reset binds none. */
  function LastBound(acts: seq<ContractAction>): Option<ContractHandle>
    decreases |acts|
  {
    if acts == [] then None
    else
      match acts[|acts| - 1]
      case InitSuccess(c) => Some(c)
      case InitError(_) => None
      case Reset => None
      case InitStart => LastBound(acts[..|acts| - 1])
  }

  /** From the initial state, the bound contract is the one the last
      `InitSuccess` installed, provided no error or reset came after it. */
  lemma {:induction false} RunBindsLastBound(acts: seq<ContractAction>)
    ensures Run(InitialState, acts).contract == LastBound(acts)
    decreases |acts|
  {
    if acts != [] {
      RunBindsLastBound(acts[..|acts| - 1]);
    }
  }

  /** From the initial state the session is ready exactly when it is not
      loading and a success is the last binding action. */
  lemma ReadyIffLastSuccess(acts: seq<ContractAction>)
    ensures PhaseOf(Run(InitialState, acts)) == Ready <==>
      !Run(InitialState, acts).isLoading && LastBound(acts).Some?
  {
    RunBindsLastBound(acts);
    RunPreservesExclusive(InitialState, acts);
  }

  // ---------------------------------------------------------------------------
  // The binding step

  const ADDRESS_NOT_CONFIGURED: string :=
    "Contract address not configured. Please set VITE_CONTRACT_ADDRESS environment variable."

  /** The message for a failed `getAgentCount` probe. A rejection that is not
      an `Error` has no message, which the template renders as "undefined". */
  function ProbeFailedMessage(t: Thrown, address: string): string
  {
    "Contract call failed: " + MessageOr(t, "undefined") + ". Check if the contract is deployed at " + address
  }

  /** The actions the binding dispatches, in order: a reset without a
      connected wallet and signer; otherwise a start, then an error for a
      missing address, a constructor that throws (`construct`) or a rejected
      `getAgentCount` probe (`probe`), and a success only once the probe
      resolves. */
  function BindActions(isConnected: bool, signer: Option<Wallet.Signer>, address: Option<string>,
                       construct: Outcome<Thrown>, probe: Result<nat, Thrown>): seq<ContractAction>
  {
    if !(isConnected && signer.Some?) then [Reset]
    else
      [InitStart] + (
        if Truthy(address).None? then [InitError(ADDRESS_NOT_CONFIGURED)]
        else
          match construct
          case Fail(t) => [InitError(MessageOr(t, Config.CONTRACT_NOT_INITIALIZED))]
          case Pass =>
            match probe
            case Failure(t) => [InitError(ProbeFailedMessage(t, address.value))]
            case Success(_) => [InitSuccess(ContractHandle(address.value, signer.value))])
  }

  /** Every step of the binding succeeds. */
  predicate BindSucceeds(isConnected: bool, signer: Option<Wallet.Signer>, address: Option<string>,
                         construct: Outcome<Thrown>, probe: Result<nat, Thrown>)
  {
    isConnected && signer.Some? && Truthy(address).Some? && construct.Pass? && probe.Success?
  }

  /** A success is dispatched exactly when every step succeeds, above all the
      probe: then the contract built on the configured address and the
      wallet's signer is bound, from any earlier state. */
  lemma BindSuccessNeedsProbe(s: ContractState, isConnected: bool, signer: Option<Wallet.Signer>,
                              address: Option<string>, construct: Outcome<Thrown>, probe: Result<nat, Thrown>)
    ensures (exists i :: 0 <= i < |BindActions(isConnected, signer, address, construct, probe)| &&
               BindActions(isConnected, signer, address, construct, probe)[i].InitSuccess?)
            <==> BindSucceeds(isConnected, signer, address, construct, probe)
    ensures BindSucceeds(isConnected, signer, address, construct, probe) ==>
      Run(s, BindActions(isConnected, signer, address, construct, probe)) ==
        ContractState(Some(ContractHandle(address.value, signer.value)), false, None)
  {
    var acts := BindActions(isConnected, signer, address, construct, probe);
    if isConnected && signer.Some? {
      assert |acts| == 2 && acts == [acts[0], acts[1]];
      RunTwo(s, acts[0], acts[1]);
    }
  }

  /** Without a connected wallet and signer the binding is reset. */
  lemma BindWithoutWalletResets(s: ContractState, isConnected: bool, signer: Option<Wallet.Signer>,
                                address: Option<string>, construct: Outcome<Thrown>, probe: Result<nat, Thrown>)
    requires !isConnected || signer.None?
    ensures Run(s, BindActions(isConnected, signer, address, construct, probe)) == InitialState
  {
    RunOne(s, Reset);
  }

  /** A missing or empty address is an error before any contract is built:
      neither the constructor nor the probe has any effect. */
  lemma BindWithoutAddress(s: ContractState, signer: Wallet.Signer, address: Option<string>,
                           construct: Outcome<Thrown>, probe: Result<nat, Thrown>)
    requires address.None? || address == Some("")
    ensures BindActions(true, Some(signer), address, construct, probe) ==
      [InitStart, InitError(ADDRESS_NOT_CONFIGURED)]
    ensures Run(s, BindActions(true, Some(signer), address, construct, probe)) ==
      ContractState(None, false, Some(ADDRESS_NOT_CONFIGURED))
  {
    RunTwo(s, InitStart, InitError(ADDRESS_NOT_CONFIGURED));
  }

  /** A rejected probe is an error carrying the failure's message and the address. */
  lemma BindProbeRejected(s: ContractState, signer: Wallet.Signer, address: string, t: Thrown)
    requires address != ""
    ensures Run(s, BindActions(true, Some(signer), Some(address), Pass, Failure(t))) ==
      ContractState(None, false, Some(ProbeFailedMessage(t, address)))
    ensures t.Error? ==>
      ProbeFailedMessage(t, address) ==
        "Contract call failed: " + t.message + ". Check if the contract is deployed at " + address
  {
    RunTwo(s, InitStart, InitError(ProbeFailedMessage(t, address)));
  }

  /** A wallet disconnect resets the binding, whatever the configuration and
      the chain would answer. */
  lemma WalletDisconnectUnbinds(ws: Wallet.WalletState, s: ContractState, address: Option<string>,
                                construct: Outcome<Thrown>, probe: Result<nat, Thrown>)
    ensures
      var w := Wallet.Reduce(ws, Wallet.Disconnect);
      Run(s, BindActions(w.isConnected, w.signer, address, construct, probe)) == InitialState
  {
    var w := Wallet.Reduce(ws, Wallet.Disconnect);
    BindWithoutWalletResets(s, w.isConnected, w.signer, address, construct, probe);
  }

  // ---------------------------------------------------------------------------
  // Agent enumeration

  /** An agent record as the contract's `agents(i)` getter returns it. */
  datatype OnChainAgent = OnChainAgent(owner: string, modelUrl: string, price: nat, active: bool)

  function ToAgent(i: nat, a: OnChainAgent): (r: Agent)
  {
    Agent(i, a.owner, a.modelUrl, a.price, a.active, None, None)
  }

  /** The agents at indices `0 .. count - 1`, read in order, or the failure
      of the first read that is rejected. */
  function AgentList(count: nat, agentAt: nat -> Result<OnChainAgent, Thrown>): Result<seq<Agent>, Thrown>
    decreases count
  {
    if count == 0 then Success([])
    else
      match AgentList(count - 1, agentAt)
      case Failure(e) => Failure(e)
      case Success(prefix) =>
        match agentAt(count - 1)
        case Failure(e) => Failure(e)
        case Success(a) => Success(prefix + [ToAgent(count - 1, a)])
  }

  /** The enumeration succeeds exactly when every read does, and then lists
      one agent per index, in index order, each carrying its index as id. */
  lemma {:induction false} AgentListShape(count: nat, agentAt: nat -> Result<OnChainAgent, Thrown>)
    ensures AgentList(count, agentAt).Success? <==> forall i :: 0 <= i < count ==> agentAt(i).Success?
    ensures AgentList(count, agentAt).Success? ==>
      var agents := AgentList(count, agentAt).value;
      && |agents| == count
      && forall i :: 0 <= i < count ==> agents[i] == ToAgent(i, agentAt(i).value) && agents[i].id == i
    decreases count
  {
    if count > 0 {
      AgentListShape(count - 1, agentAt);
    }
  }

  /** A failed enumeration reports the failure of the lowest index that failed. */
  lemma {:induction false} AgentListFirstFailure(count: nat, agentAt: nat -> Result<OnChainAgent, Thrown>, k: nat)
    requires k < count && agentAt(k).Failure?
    requires forall i :: 0 <= i < k ==> agentAt(i).Success?
    ensures AgentList(count, agentAt) == Failure(agentAt(k).error)
    decreases count
  {
    if count - 1 > k {
      AgentListFirstFailure(count - 1, agentAt, k);
    } else {
      AgentListShape(count - 1, agentAt);
    }
  }

  // ---------------------------------------------------------------------------
  // Writes

  /** A transaction the session sends through the bound contract. Amounts
      are in wei. */
  datatype ContractCall =
    | RegisterAgentCall(modelUrl: string, priceWei: nat)
    | RequestSentimentCall(agentId: int, text: string, valueWei: nat)

  /** A subscription to the contract's `SentimentResult` event. */
  datatype Subscription = Subscription(id: nat, contract: ContractHandle)

  /** What `listenForSentimentResults` hands back to cancel its subscription. */
  datatype Canceller = NoOp | Off(id: nat)

  /** The subscriptions that remain once `id` is cancelled. */
  function WithoutSubscription(subs: seq<Subscription>, id: nat): (r: seq<Subscription>)
    ensures forall i :: 0 <= i < |r| ==> r[i].id != id && r[i] in subs
    ensures forall s :: s in subs && s.id != id ==> s in r
    ensures |r| <= |subs|
  {
    if subs == [] then []
    else if subs[0].id == id then WithoutSubscription(subs[1..], id)
    else [subs[0]] + WithoutSubscription(subs[1..], id)
  }

  /** Cancelling twice is cancelling once. */
  lemma {:induction false} WithoutSubscriptionIdempotent(subs: seq<Subscription>, id: nat)
    ensures WithoutSubscription(WithoutSubscription(subs, id), id) == WithoutSubscription(subs, id)
  {
    if subs != [] {
      WithoutSubscriptionIdempotent(subs[1..], id);
      if subs[0].id != id {
        assert ([subs[0]] + WithoutSubscription(subs[1..], id))[1..] == WithoutSubscription(subs[1..], id);
      }
    }
  }

  /** The result handed to a subscriber for one `SentimentResult` event, at
      time `now`: the sentiment is lower-cased on the way. */
  function ToSentimentResult(requestId: int, sentiment: string, confidence: int, now: int): (r: SentimentResult)
    ensures r.requestId == requestId && r.confidence == confidence && r.timestamp == now
    ensures r.sentiment == ToLower(sentiment)
    ensures |r.sentiment| == |sentiment|
    ensures forall i :: 0 <= i < |r.sentiment| ==> !IsUpperAscii(r.sentiment[i])
    ensures (forall i :: 0 <= i < |sentiment| ==> !IsUpperAscii(sentiment[i])) ==> r.sentiment == sentiment
  {
    ToLowerOfLowerIf(sentiment);
    SentimentResult(requestId, ToLower(sentiment), confidence, now)
  }

  lemma ToLowerOfLowerIf(s: string)
    ensures (forall i :: 0 <= i < |s| ==> !IsUpperAscii(s[i])) ==> ToLower(s) == s
  {
    if forall i :: 0 <= i < |s| ==> !IsUpperAscii(s[i]) {
      ToLowerOfLower(s);
    }
  }

  // ---------------------------------------------------------------------------
  // The session object

  class ContractSession {
    var state: ContractState
    /** The actions dispatched so far. */
    ghost var trace: seq<ContractAction>
    /** The live `SentimentResult` subscriptions, and the next id to hand out. */
    var subscriptions: seq<Subscription>
    var nextSubscription: nat

    ghost predicate Valid()
      reads this
    {
      && state == Run(InitialState, trace)
      && Exclusive(state)
      && forall i :: 0 <= i < |subscriptions| ==> subscriptions[i].id < nextSubscription
    }

    constructor ()
      ensures Valid() && state == InitialState && trace == [] && subscriptions == []
    {
      state := InitialState;
      trace := [];
      subscriptions := [];
      nextSubscription := 0;
    }

    method Dispatch(a: ContractAction)
      requires Valid()
      modifies this
      ensures Valid()
      ensures trace == old(trace) + [a] && state == Reduce(old(state), a)
      ensures subscriptions == old(subscriptions) && nextSubscription == old(nextSubscription)
    {
      ReducePreservesExclusive(state, a);
      state := Reduce(state, a);
      trace := trace + [a];
      assert trace[..|trace| - 1] == old(trace);
    }

    /** The binding step, run when the wallet's connection or signer changes. */
    method Bind(isConnected: bool, signer: Option<Wallet.Signer>, address: Option<string>,
                construct: Outcome<Thrown>, probe: Result<nat, Thrown>)
      requires Valid()
      modifies this
      ensures Valid()
      ensures trace == old(trace) + BindActions(isConnected, signer, address, construct, probe)
      ensures state == Run(old(state), BindActions(isConnected, signer, address, construct, probe))
      ensures subscriptions == old(subscriptions) && nextSubscription == old(nextSubscription)
    {
      var acts := BindActions(isConnected, signer, address, construct, probe);
      if !(isConnected && signer.Some?) {
        Dispatch(Reset);
        RunOne(old(state), Reset);
        return;
      }
      Dispatch(InitStart);
      if Truthy(address).None? {
        Dispatch(InitError(ADDRESS_NOT_CONFIGURED));
      } else {
        match construct
        case Fail(t) =>
          Dispatch(InitError(MessageOr(t, Config.CONTRACT_NOT_INITIALIZED)));
        case Pass =>
          match probe
          case Failure(t) =>
            Dispatch(InitError(ProbeFailedMessage(t, address.value)));
          case Success(_) =>
            Dispatch(InitSuccess(ContractHandle(address.value, signer.value)));
      }
      assert |acts| == 2 && trace == old(trace) + [acts[0], acts[1]];
      RunTwo(old(state), acts[0], acts[1]);
      assert acts == [acts[0], acts[1]];
    }

    /** `registerAgent`: sends the registration through the bound contract.
        `priceWei` is the price parsed from ether (a parse failure throws),
        `tx` the outcome of sending the transaction and waiting for it.
        Returns the call sent, if any, and the outcome. */
    method RegisterAgent(modelUrl: string, priceWei: Result<nat, Thrown>, tx: Outcome<Thrown>)
      returns (sent: Option<ContractCall>, r: Outcome<Thrown>)
      ensures state.contract.None? ==> sent.None? && r == Fail(Error(Config.CONTRACT_NOT_INITIALIZED))
      ensures state.contract.Some? && priceWei.Failure? ==> sent.None? && r == Fail(priceWei.error)
      ensures state.contract.Some? && priceWei.Success? ==>
        sent == Some(RegisterAgentCall(modelUrl, priceWei.value)) && r == tx
    {
      if state.contract.None? {
        return None, Fail(Error(Config.CONTRACT_NOT_INITIALIZED));
      }
      if priceWei.Failure? {
        return None, Fail(priceWei.error);
      }
      sent := Some(RegisterAgentCall(modelUrl, priceWei.value));
      r := tx;
    }

    /** `requestSentiment`: sends a paid request to agent `agentId`, with the
        same guard and parse rules as `RegisterAgent`. */
    method RequestSentiment(agentId: int, text: string, valueWei: Result<nat, Thrown>, tx: Outcome<Thrown>)
      returns (sent: Option<ContractCall>, r: Outcome<Thrown>)
      ensures state.contract.None? ==> sent.None? && r == Fail(Error(Config.CONTRACT_NOT_INITIALIZED))
      ensures state.contract.Some? && valueWei.Failure? ==> sent.None? && r == Fail(valueWei.error)
      ensures state.contract.Some? && valueWei.Success? ==>
        sent == Some(RequestSentimentCall(agentId, text, valueWei.value)) && r == tx
    {
      if state.contract.None? {
        return None, Fail(Error(Config.CONTRACT_NOT_INITIALIZED));
      }
      if valueWei.Failure? {
        return None, Fail(valueWei.error);
      }
      sent := Some(RequestSentimentCall(agentId, text, valueWei.value));
      r := tx;
    }

    /** `getAgents`: reads the agent count, then each agent from index 0
        upwards, stopping at the first rejected read. */
    method GetAgents(agentCount: Result<nat, Thrown>, agentAt: nat -> Result<OnChainAgent, Thrown>)
      returns (r: Result<seq<Agent>, Thrown>)
      ensures state.contract.None? ==> r == Failure(Error(Config.CONTRACT_NOT_INITIALIZED))
      ensures state.contract.Some? && agentCount.Failure? ==> r == Failure(agentCount.error)
      ensures state.contract.Some? && agentCount.Success? ==> r == AgentList(agentCount.value, agentAt)
    {
      if state.contract.None? {
        return Failure(Error(Config.CONTRACT_NOT_INITIALIZED));
      }
      if agentCount.Failure? {
        return Failure(agentCount.error);
      }
      var count := agentCount.value;
      var agents: seq<Agent> := [];
      var i: nat := 0;
      while i < count
        invariant i <= count
        invariant AgentList(i, agentAt) == Success(agents)
      {
        var read := agentAt(i);
        if read.Failure? {
          AgentListFailurePropagates(i, count, agentAt);
          return Failure(read.error);
        }
        agents := agents + [ToAgent(i, read.value)];
        i := i + 1;
      }
      return Success(agents);
    }

    /** `listenForSentimentResults`: subscribes on the bound contract and
        returns its canceller; without a contract nothing is subscribed and
        the canceller does nothing. */
    method Listen() returns (c: Canceller)
      requires Valid()
      modifies this
      ensures Valid()
      ensures state == old(state) && trace == old(trace)
      ensures old(state.contract).None? ==>
        c == NoOp && subscriptions == old(subscriptions) && nextSubscription == old(nextSubscription)
      ensures old(state.contract).Some? ==>
        && c == Off(old(nextSubscription))
        && subscriptions == old(subscriptions) + [Subscription(old(nextSubscription), old(state.contract).value)]
        && nextSubscription == old(nextSubscription) + 1
    {
      if state.contract.None? {
        return NoOp;
      }
      c := Off(nextSubscription);
      subscriptions := subscriptions + [Subscription(nextSubscription, state.contract.value)];
      nextSubscription := nextSubscription + 1;
    }

    /** Runs a canceller: removes its subscription, if any is left. */
    method Cancel(c: Canceller)
      requires Valid()
      modifies this
      ensures Valid()
      ensures state == old(state) && trace == old(trace) && nextSubscription == old(nextSubscription)
      ensures c.NoOp? ==> subscriptions == old(subscriptions)
      ensures c.Off? ==> subscriptions == WithoutSubscription(old(subscriptions), c.id)
    {
      if c.Off? {
        subscriptions := WithoutSubscription(subscriptions, c.id);
      }
    }
  }

  /** A rejected read at index `i`, after successful reads below it, is the
      failure the enumeration of any longer range reports. */
  lemma AgentListFailurePropagates(i: nat, count: nat, agentAt: nat -> Result<OnChainAgent, Thrown>)
    requires i < count && agentAt(i).Failure?
    requires AgentList(i, agentAt).Success?
    ensures AgentList(count, agentAt) == Failure(agentAt(i).error)
  {
    AgentListShape(i, agentAt);
    AgentListFirstFailure(count, agentAt, i);
  }
}
