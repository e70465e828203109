/** The wallet session: a reducer over tagged actions, and the session object
    whose `connect`, `disconnect`, network switch and provider notifications
    dispatch those actions. */
module Wallet {
  import opened Base
  import opened Text
  import Config

  /** Opaque handles to the objects the wallet library hands out. */
  datatype Provider = Provider(id: nat)
  datatype Signer = Signer(id: nat)

  datatype WalletState = WalletState(
    isConnected: bool,
    account: Option<string>,
    provider: Option<Provider>,
    signer: Option<Signer>,
    chainId: Option<JsNumber>,
    isLoading: bool,
    error: Option<string>)

  const InitialState: WalletState := WalletState(false, None, None, None, None, false, None)

  datatype WalletAction =
    | ConnectStart
    | ConnectSuccess(account: string, provider: Provider, signer: Signer, chainId: int)
    | ConnectError(message: string)
    | Disconnect
    | ChainChanged(newChainId: JsNumber)

  /** `walletReducer` */
  function Reduce(s: WalletState, a: WalletAction): WalletState
  {
    match a
    case ConnectStart => s.(isLoading := true, error := None)
    case ConnectSuccess(account, provider, signer, chainId) =>
      s.(isConnected := true, account := Some(account), provider := Some(provider),
         signer := Some(signer), chainId := Some(Finite(chainId)), isLoading := false, error := None)
    case ConnectError(message) => s.(isLoading := false, error := Some(message))
    case Disconnect => InitialState
    case ChainChanged(chainId) => s.(chainId := Some(chainId))
  }

  /** The state reached from `s` by dispatching `acts` in order. */
  function Run(s: WalletState, acts: seq<WalletAction>): WalletState
    decreases |acts|
  {
    if acts == [] then s else Reduce(Run(s, acts[..|acts| - 1]), acts[|acts| - 1])
  }

  lemma RunOne(s: WalletState, a: WalletAction)
    ensures Run(s, [a]) == Reduce(s, a)
  {
    assert [a][..0] == [];
  }

  lemma RunTwo(s: WalletState, a: WalletAction, b: WalletAction)
    ensures Run(s, [a, b]) == Reduce(Reduce(s, a), b)
  {
    assert [a, b][..1] == [a];
    RunOne(s, a);
  }

  // ---------------------------------------------------------------------------
  // Properties of the reducer

  /** The session invariant: connected exactly when an account is held, and a
      connected session holds its provider and signer. */
  predicate Consistent(s: WalletState)
  {
    && (s.isConnected <==> s.account.Some?)
    && (s.isConnected ==> s.provider.Some? && s.signer.Some?)
  }

  lemma ReducePreservesConsistent(s: WalletState, a: WalletAction)
    requires Consistent(s)
    ensures Consistent(Reduce(s, a))
  {
  }

  lemma {:induction false} RunPreservesConsistent(s: WalletState, acts: seq<WalletAction>)
    requires Consistent(s)
    ensures Consistent(Run(s, acts))
    decreases |acts|
  {
    if acts != [] {
      RunPreservesConsistent(s, acts[..|acts| - 1]);
      ReducePreservesConsistent(Run(s, acts[..|acts| - 1]), acts[|acts| - 1]);
    }
  }

  /** Over any action sequence from the initial state, the session is
      connected exactly when it holds an account. */
  lemma ConnectedIffAccount(acts: seq<WalletAction>)
    ensures Run(InitialState, acts).isConnected <==> Run(InitialState, acts).account.Some?
  {
    RunPreservesConsistent(InitialState, acts);
  }

  /** No such invariant holds for the chain id: a chain change is recorded
      while disconnected. */
  lemma ChainIdWhileDisconnected(n: int)
    ensures !Run(InitialState, [ChainChanged(Finite(n))]).isConnected
    ensures Run(InitialState, [ChainChanged(Finite(n))]).chainId == Some(Finite(n))
  {
    RunOne(InitialState, ChainChanged(Finite(n)));
  }

  /** Disconnecting yields the initial state from any state; doing it again
      changes nothing. */
  lemma DisconnectResets(s: WalletState)
    ensures Reduce(s, Disconnect) == InitialState
    ensures Reduce(Reduce(s, Disconnect), Disconnect) == Reduce(s, Disconnect)
  {
  }

  /** A chain change rewrites the chain id and nothing else. */
  lemma ChainChangedOnlyChain(s: WalletState, c: JsNumber)
    ensures Reduce(s, ChainChanged(c)).chainId == Some(c)
    ensures Reduce(s, ChainChanged(c)) == s.(chainId := Reduce(s, ChainChanged(c)).chainId)
  {
  }

  /** Starting a connection marks it loading and clears the error without
      touching the connection itself. */
  lemma ConnectStartKeepsConnection(s: WalletState)
    ensures Reduce(s, ConnectStart).isLoading && Reduce(s, ConnectStart).error.None?
    ensures Reduce(s, ConnectStart) == s.(isLoading := true, error := None)
  {
  }

  /** A connection error records the message, stops loading and keeps any
      earlier connection. */
  lemma ConnectErrorKeepsConnection(s: WalletState, message: string)
    ensures !Reduce(s, ConnectError(message)).isLoading
    ensures Reduce(s, ConnectError(message)).error == Some(message)
    ensures Reduce(s, ConnectError(message)) == s.(isLoading := false, error := Some(message))
  {
  }

  // ---------------------------------------------------------------------------
  // connect

  /** The injected wallet (`window.ethereum`) and what it answers: the
      provider built over it and the outcomes of the calls `connect` and the
      network switch make. */
  datatype InjectedWallet = InjectedWallet(
    provider: Provider,
    accounts: Result<seq<string>, Thrown>,  // eth_requestAccounts
    signer: Result<Signer, Thrown>,         // provider.getSigner()
    network: Result<int, Thrown>,           // provider.getNetwork(), its chain id
    addChain: Outcome<Thrown>,              // wallet_addEthereumChain
    switchChain: Outcome<Thrown>)           // wallet_switchEthereumChain

  /** The actions `connect` dispatches, in order. */
  function ConnectActions(injected: Option<InjectedWallet>): seq<WalletAction>
  {
    [ConnectStart] + (
      if injected.None? then [ConnectError(Config.WALLET_NOT_INSTALLED)]
      else
        var w := injected.value;
        match w.accounts
        case Failure(t) => [ConnectError(MessageOr(t, Config.FAILED_TO_CONNECT))]
        case Success(accounts) =>
          if |accounts| == 0 then [ConnectError(Config.NO_ACCOUNTS_FOUND)]
          else
            match w.signer
            case Failure(t) => [ConnectError(MessageOr(t, Config.FAILED_TO_CONNECT))]
            case Success(signer) =>
              match w.network
              case Failure(t) => [ConnectError(MessageOr(t, Config.FAILED_TO_CONNECT))]
              case Success(chainId) => [ConnectSuccess(accounts[0], w.provider, signer, chainId)])
  }

  /** Every step `connect` needs succeeds, with at least one account. */
  predicate ConnectSucceeds(injected: Option<InjectedWallet>)
  {
    && injected.Some?
    && injected.value.accounts.Success? && |injected.value.accounts.value| > 0
    && injected.value.signer.Success?
    && injected.value.network.Success?
  }

  /** `connect` without an injected wallet fails with the "not installed"
      message and leaves the connection as it was. */
  lemma ConnectWithoutWallet(s: WalletState)
    ensures Run(s, ConnectActions(None)) == s.(isLoading := false, error := Some(Config.WALLET_NOT_INSTALLED))
  {
    RunTwo(s, ConnectStart, ConnectError(Config.WALLET_NOT_INSTALLED));
  }

  /** `connect` with an empty account list fails with the "no accounts"
      message and leaves the connection as it was. */
  lemma ConnectWithoutAccounts(s: WalletState, w: InjectedWallet)
    requires w.accounts == Success([])
    ensures Run(s, ConnectActions(Some(w))) == s.(isLoading := false, error := Some(Config.NO_ACCOUNTS_FOUND))
  {
    RunTwo(s, ConnectStart, ConnectError(Config.NO_ACCOUNTS_FOUND));
  }

  /** A successful `connect` stores the first account and the numeric chain id. */
  lemma ConnectStoresFirstAccount(s: WalletState, w: InjectedWallet)
    requires ConnectSucceeds(Some(w))
    ensures Run(s, ConnectActions(Some(w))) ==
      WalletState(true, Some(w.accounts.value[0]), Some(w.provider), Some(w.signer.value),
                  Some(Finite(w.network.value)), false, None)
  {
    RunTwo(s, ConnectStart, ConnectSuccess(w.accounts.value[0], w.provider, w.signer.value, w.network.value));
  }

  /** After `connect` the session is not loading; it has no error exactly when
      every step succeeded, and a failure leaves the earlier connection intact. */
  lemma ConnectOutcome(s: WalletState, injected: Option<InjectedWallet>)
    ensures !Run(s, ConnectActions(injected)).isLoading
    ensures Run(s, ConnectActions(injected)).error.None? <==> ConnectSucceeds(injected)
    ensures Run(s, ConnectActions(injected)).isConnected <==> ConnectSucceeds(injected) || s.isConnected
    ensures !ConnectSucceeds(injected) ==>
      var r := Run(s, ConnectActions(injected));
      r.account == s.account && r.signer == s.signer && r.provider == s.provider && r.chainId == s.chainId
  {
    var acts := ConnectActions(injected);
    assert |acts| == 2 && acts[0] == ConnectStart;
    RunTwo(s, acts[0], acts[1]);
    assert acts == [acts[0], acts[1]];
  }

  // ---------------------------------------------------------------------------
  // Network switch

  /** A request sent to the injected wallet. */
  datatype WalletRequest =
    | AddEthereumChain(chainId: string, chainName: string, nativeCurrency: Config.NativeCurrency,
                       rpcUrls: seq<string>, blockExplorerUrls: seq<string>)
    | SwitchEthereumChain(chainId: string)

  // ---------------------------------------------------------------------------
  // The session object

  class WalletSession {
    var state: WalletState
    /** The actions dispatched so far. */
    ghost var trace: seq<WalletAction>

    ghost predicate Valid()
      reads this
    {
      state == Run(InitialState, trace) && Consistent(state)
    }

    constructor ()
      ensures Valid() && state == InitialState && trace == []
    {
      state := InitialState;
      trace := [];
    }

    /** `dispatch`: feed one action to the reducer. */
    method Dispatch(a: WalletAction)
      requires Valid()
      modifies this
      ensures Valid()
      ensures trace == old(trace) + [a] && state == Reduce(old(state), a)
    {
      ReducePreservesConsistent(state, a);
      state := Reduce(state, a);
      trace := trace + [a];
      assert trace[..|trace| - 1] == old(trace);
    }

    /** `connect`: the checks in order (an injected wallet, the account
        request, a non-empty account list, the signer and the network), each
        failure dispatching a connection error. */
    method Connect(injected: Option<InjectedWallet>)
      requires Valid()
      modifies this
      ensures Valid()
      ensures trace == old(trace) + ConnectActions(injected)
      ensures state == Run(old(state), ConnectActions(injected))
    {
      var acts := ConnectActions(injected);
      Dispatch(ConnectStart);
      if injected.None? {
        Dispatch(ConnectError(Config.WALLET_NOT_INSTALLED));
      } else {
        var w := injected.value;
        match w.accounts
        case Failure(t) =>
          Dispatch(ConnectError(MessageOr(t, Config.FAILED_TO_CONNECT)));
        case Success(accounts) =>
          if |accounts| == 0 {
            Dispatch(ConnectError(Config.NO_ACCOUNTS_FOUND));
          } else {
            match w.signer
            case Failure(t) =>
              Dispatch(ConnectError(MessageOr(t, Config.FAILED_TO_CONNECT)));
            case Success(signer) =>
              match w.network
              case Failure(t) =>
                Dispatch(ConnectError(MessageOr(t, Config.FAILED_TO_CONNECT)));
              case Success(chainId) =>
                Dispatch(ConnectSuccess(accounts[0], w.provider, signer, chainId));
          }
      }
      assert |acts| == 2 && trace == old(trace) + [acts[0], acts[1]];
      RunTwo(old(state), acts[0], acts[1]);
      assert acts == [acts[0], acts[1]];
    }

    /** `disconnect` */
    method Disconnect()
      requires Valid()
      modifies this
      ensures Valid()
      ensures trace == old(trace) + [WalletAction.Disconnect]
      ensures state == InitialState
    {
      Dispatch(WalletAction.Disconnect);
    }

    /** The `accountsChanged` notification: an empty list disconnects, any
        other list is ignored. */
    method HandleAccountsChanged(accounts: seq<string>)
      requires Valid()
      modifies this
      ensures Valid()
      ensures accounts == [] ==> state == InitialState && trace == old(trace) + [WalletAction.Disconnect]
      ensures accounts != [] ==> state == old(state) && trace == old(trace)
    {
      if |accounts| == 0 {
        Disconnect();
      }
    }

    /** The `chainChanged` notification: the payload is read as hexadecimal. */
    method HandleChainChanged(chainId: string)
      requires Valid()
      modifies this
      ensures Valid()
      ensures trace == old(trace) + [ChainChanged(ParseIntHex(chainId))]
      ensures state == old(state).(chainId := Some(ParseIntHex(chainId)))
    {
      Dispatch(ChainChanged(ParseIntHex(chainId)));
    }

    /** `switchToSapphire`: ask the wallet to add the configured network, then
        to switch to it. A missing wallet or a refused request ends the
        attempt; nothing is reported and the session state is not touched.
        Returns the requests sent, in order. */
    method SwitchToSapphire(injected: Option<InjectedWallet>, env: Config.Env) returns (sent: seq<WalletRequest>)
      ensures injected.None? ==> sent == []
      ensures injected.Some? ==>
        var c := Config.GetCurrentNetworkConfig(env);
        && 1 <= |sent| <= 2
        && sent[0] == AddEthereumChain(c.chainId, c.chainName, c.nativeCurrency, [c.rpcUrl], [c.blockExplorerUrl])
        && (|sent| == 2 <==> injected.value.addChain.Pass?)
        && (|sent| == 2 ==> sent[1] == SwitchEthereumChain(c.chainId))
    {
      sent := [];
      if injected.None? {
        return;
      }
      var c := Config.GetCurrentNetworkConfig(env);
      sent := sent + [AddEthereumChain(c.chainId, c.chainName, c.nativeCurrency, [c.rpcUrl], [c.blockExplorerUrl])];
      if injected.value.addChain.Fail? {
        return;
      }
      sent := sent + [SwitchEthereumChain(c.chainId)];
    }
  }
}
