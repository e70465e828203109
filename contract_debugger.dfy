/** The contract health check of the debugging panel: a decision over the
    address format, the code deployed at the address and a probe call, and
    the method test that collects one error per failing call. */
module ContractDebugger {
  import opened Base
  import Config
  import Contract
  import Wallet

  const INVALID_FORMAT: string := "Invalid Ethereum address format"
  const NO_CODE: string := "No contract code found at this address"
  const EMPTY_CODE: string := "0x"

  /** What the check found. `codeSize` is `code.length / 2 - 1`, a JavaScript
      division, hence a real. */
  datatype ContractInfo = ContractInfo(
    address: string,
    isValid: bool,
    hasCode: bool,
    codeSize: Option<real>,
    agentCount: Option<nat>,
    error: Option<string>)

  function CodeSize(code: string): real
  {
    |code| as real / 2.0 - 1.0
  }

  /** The check of `address`, where `code` is what `getCode` brings back,
      `construct` whether building the contract object throws and `probe`
      what `getAgentCount` brings back. */
  function CheckOutcome(address: string, code: Result<string, Thrown>,
                        construct: Outcome<Thrown>, probe: Result<nat, Thrown>): (info: ContractInfo)
    ensures info.address == address
    ensures info.isValid ==> info.hasCode && info.error.None? && info.agentCount.Some?
    ensures !info.isValid ==> info.error.Some? && info.agentCount.None?
  {
    if !Config.IsValidEthereumAddress(address) then
      ContractInfo(address, false, false, None, None, Some(INVALID_FORMAT))
    else
      match code
      case Failure(t) =>
        ContractInfo(address, false, false, None, None, Some("Check failed: " + MessageOr(t, "Unknown error")))
      case Success(c) =>
        if c == EMPTY_CODE then
          ContractInfo(address, false, false, Some(CodeSize(c)), None, Some(NO_CODE))
        else
          var failure :=
            if construct.Fail? then Some(construct.error)
            else if probe.Failure? then Some(probe.error)
            else None;
          if failure.Some? then
            ContractInfo(address, false, true, Some(CodeSize(c)), None,
                         Some("Contract call failed: " + MessageOr(failure.value, "Unknown error")))
          else
            ContractInfo(address, true, true, Some(CodeSize(c)), Some(probe.value), None)
  }

  /** A badly formed address is rejected before any lookup: the outcome
      depends on nothing the chain says. */
  lemma BadFormatNeedsNoLookup(address: string, code: Result<string, Thrown>, code': Result<string, Thrown>,
                               construct: Outcome<Thrown>, probe: Result<nat, Thrown>,
                               construct': Outcome<Thrown>, probe': Result<nat, Thrown>)
    requires !Config.IsValidEthereumAddress(address)
    ensures CheckOutcome(address, code, construct, probe) == CheckOutcome(address, code', construct', probe')
    ensures CheckOutcome(address, code, construct, probe) ==
      ContractInfo(address, false, false, None, None, Some(INVALID_FORMAT))
  {
  }

  /** Code `0x` means no contract: neither valid nor with code. */
  lemma EmptyCodeIsNoContract(address: string, construct: Outcome<Thrown>, probe: Result<nat, Thrown>)
    requires Config.IsValidEthereumAddress(address)
    ensures
      var info := CheckOutcome(address, Success(EMPTY_CODE), construct, probe);
      !info.isValid && !info.hasCode && info.codeSize == Some(0.0) && info.error == Some(NO_CODE)
  {
  }

  /** `0x` followed by `2n` hex digits is `n` bytes of code. */
  lemma CodeSizeCountsBytes(ds: string, n: nat)
    requires |ds| == 2 * n
    ensures CodeSize(EMPTY_CODE + ds) == n as real
  {
    assert |EMPTY_CODE + ds| == 2 * n + 2;
  }

  /** Code alone is not enough: the check is valid exactly when the address
      is well formed, code is there and the probe succeeds, and then the
      probed count is recorded. */
  lemma ValidIffProbeSucceeds(address: string, code: Result<string, Thrown>,
                              construct: Outcome<Thrown>, probe: Result<nat, Thrown>)
    ensures
      var info := CheckOutcome(address, code, construct, probe);
      && (info.isValid <==>
            Config.IsValidEthereumAddress(address) && code.Success? && code.value != EMPTY_CODE
            && construct.Pass? && probe.Success?)
      && (info.isValid ==> info.agentCount == Some(probe.value))
      && (Config.IsValidEthereumAddress(address) && code.Success? && code.value != EMPTY_CODE && !info.isValid ==>
            info.hasCode)
  {
  }

  /** The check applies the rule the contract binding applies: whatever it
      finds valid, the binding of the same address and probe accepts. */
  lemma ValidCheckBinds(address: string, code: Result<string, Thrown>, construct: Outcome<Thrown>,
                        probe: Result<nat, Thrown>, signer: Wallet.Signer)
    requires CheckOutcome(address, code, construct, probe).isValid
    ensures Contract.BindSucceeds(true, Some(signer), Some(address), construct, probe)
  {
    assert |address| == 42;
  }

  /** What the method test collects: the probed count, the first agent and
      one message per failing call. */
  datatype TestResults = TestResults(
    getAgentCount: Option<nat>,
    agents: Option<Contract.OnChainAgent>,
    errors: seq<string>)

  /** The method test, where `construct` is whether building the contract
      object throws, `count` what `getAgentCount` brings back and `first`
      what `agents(0)` brings back, if it is asked. */
  function MethodTest(construct: Outcome<Thrown>, count: Result<nat, Thrown>,
                      first: Result<Contract.OnChainAgent, Thrown>): (r: TestResults)
  {
    if construct.Fail? then
      TestResults(None, None, ["General error: " + MessageOr(construct.error, "Unknown error")])
    else
      var counted := if count.Success? then Some(count.value) else None;
      var countErrors := if count.Success? then [] else ["getAgentCount: " + MessageOr(count.error, "Failed")];
      if counted.Some? && counted.value > 0 then
        if first.Success? then TestResults(counted, Some(first.value), countErrors)
        else TestResults(counted, None, countErrors + ["agents(0): " + MessageOr(first.error, "Failed")])
      else
        TestResults(counted, None, countErrors)
  }

  /** Number of calls that fail among those the test makes. */
  function FailingCalls(count: Result<nat, Thrown>, first: Result<Contract.OnChainAgent, Thrown>): nat
  {
    (if count.Failure? then 1 else 0)
    + (if count.Success? && count.value > 0 && first.Failure? then 1 else 0)
  }

  /** Each failing call adds exactly one error, `agents(0)` is read only
      when the count is positive, and a count that is read is recorded. */
  lemma MethodTestErrors(construct: Outcome<Thrown>, count: Result<nat, Thrown>,
                         first: Result<Contract.OnChainAgent, Thrown>)
    requires construct.Pass?
    ensures |MethodTest(construct, count, first).errors| == FailingCalls(count, first)
    ensures MethodTest(construct, count, first).agents.Some? <==>
      count.Success? && count.value > 0 && first.Success?
    ensures MethodTest(construct, count, first).getAgentCount.Some? <==> count.Success?
    ensures count.Success? ==> MethodTest(construct, count, first).getAgentCount == Some(count.value)
  {
  }

  /** The first agent's answer is irrelevant when there is none to read. */
  lemma NoAgentsNoRead(construct: Outcome<Thrown>, count: Result<nat, Thrown>,
                       first: Result<Contract.OnChainAgent, Thrown>, first': Result<Contract.OnChainAgent, Thrown>)
    requires count.Failure? || count.value == 0
    ensures MethodTest(construct, count, first) == MethodTest(construct, count, first')
  {
  }

  /** The debugging panel's state. */
  class Debugger {
    var contractInfo: Option<ContractInfo>
    var testResults: Option<TestResults>
    var isChecking: bool

    constructor ()
      ensures contractInfo.None? && testResults.None? && !isChecking
    {
      contractInfo := None;
      testResults := None;
      isChecking := false;
    }

    /** `checkContract`: nothing happens without a provider or an address;
        otherwise the outcome is recorded and checking ends. */
    method CheckContract(hasProvider: bool, address: string, code: Result<string, Thrown>,
                         construct: Outcome<Thrown>, probe: Result<nat, Thrown>)
      modifies this
      ensures !hasProvider || address == "" ==>
        contractInfo == old(contractInfo) && isChecking == old(isChecking)
      ensures hasProvider && address != "" ==>
        contractInfo == Some(CheckOutcome(address, code, construct, probe)) && !isChecking
      ensures testResults == old(testResults)
    {
      if !hasProvider || address == "" {
        return;
      }
      isChecking := true;
      if !Config.IsValidEthereumAddress(address) {
        contractInfo := Some(ContractInfo(address, false, false, None, None, Some(INVALID_FORMAT)));
        isChecking := false;
        return;
      }
      if code.Failure? {
        contractInfo := Some(ContractInfo(address, false, false, None, None,
                                          Some("Check failed: " + MessageOr(code.error, "Unknown error"))));
        isChecking := false;
        return;
      }
      var c := code.value;
      var hasCode := c != EMPTY_CODE;
      var codeSize := CodeSize(c);
      if !hasCode {
        contractInfo := Some(ContractInfo(address, false, false, Some(codeSize), None, Some(NO_CODE)));
        isChecking := false;
        return;
      }
      if construct.Fail? {
        contractInfo := Some(ContractInfo(address, false, true, Some(codeSize), None,
                                          Some("Contract call failed: " + MessageOr(construct.error, "Unknown error"))));
      } else if probe.Failure? {
        contractInfo := Some(ContractInfo(address, false, true, Some(codeSize), None,
                                          Some("Contract call failed: " + MessageOr(probe.error, "Unknown error"))));
      } else {
        contractInfo := Some(ContractInfo(address, true, true, Some(codeSize), Some(probe.value), None));
      }
      isChecking := false;
    }

    /** `testContractMethods`: only after a valid check and with a provider;
        the results are collected call by call. */
    method TestContractMethods(hasProvider: bool, construct: Outcome<Thrown>, count: Result<nat, Thrown>,
                               first: Result<Contract.OnChainAgent, Thrown>)
      modifies this
      ensures !hasProvider || contractInfo.None? || !contractInfo.value.isValid ==>
        testResults == old(testResults) && isChecking == old(isChecking)
      ensures hasProvider && contractInfo.Some? && contractInfo.value.isValid ==>
        testResults == Some(MethodTest(construct, count, first)) && !isChecking
      ensures contractInfo == old(contractInfo)
    {
      if !hasProvider || contractInfo.None? || !contractInfo.value.isValid {
        return;
      }
      isChecking := true;
      if construct.Fail? {
        testResults := Some(TestResults(None, None, ["General error: " + MessageOr(construct.error, "Unknown error")]));
        isChecking := false;
        return;
      }
      var getAgentCount: Option<nat> := None;
      var agents: Option<Contract.OnChainAgent> := None;
      var errors: seq<string> := [];
      if count.Success? {
        getAgentCount := Some(count.value);
      } else {
        errors := errors + ["getAgentCount: " + MessageOr(count.error, "Failed")];
      }
      if getAgentCount.Some? && getAgentCount.value > 0 {
        if first.Success? {
          agents := Some(first.value);
        } else {
          errors := errors + ["agents(0): " + MessageOr(first.error, "Failed")];
        }
      }
      assert TestResults(getAgentCount, agents, errors) == MethodTest(construct, count, first);
      testResults := Some(TestResults(getAgentCount, agents, errors));
      isChecking := false;
    }
  }
}
