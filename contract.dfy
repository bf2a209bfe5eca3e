/** Contract deployment: send the deploy request, then poll the contract
    until the service reports its address. */
module ContractService {
  import opened Wrappers
  import opened Models
  import opened Poll

  /** The Conflux test network's chain name. */
  const CONFLUX_TEST: string := "conflux_test"

  /** The deploy request: the test network, the caller's name, symbol and
      owner unchanged, the configured contract type, no base URI. */
  function DeployRequest(cfg: Config, name: string, symbol: string, owner: string): (dto: ContractDeployDto)
    ensures dto.chain == CONFLUX_TEST && dto.contractType == cfg.deployType && dto.baseUri == ""
    ensures dto.name == name && dto.symbol == symbol && dto.ownerAddress == owner
  {
    ContractDeployDto(CONFLUX_TEST, name, symbol, owner, cfg.deployType, "")
  }

  /** The contract poll stops once an address is known. */
  predicate Deployed(c: Contract)
  {
    c.address != ""
  }

  /** What polling a contract returns: the address of the stopping snapshot,
      never empty, or `""` and the error of the fetch that failed. */
  function ContractAddressPoll(polls: seq<Result<Contract>>): (r: (string, Option<Error>))
    requires EventuallyStops(polls, Deployed)
    ensures r.1.None? <==> polls[FirstStop(polls, Deployed)].Ok?
    ensures r.1.None? ==> r.0 != "" && r.0 == polls[FirstStop(polls, Deployed)].value.address
    ensures r.1.Some? ==> r.0 == "" && polls[FirstStop(polls, Deployed)] == Err(r.1.value)
  {
    match polls[FirstStop(polls, Deployed)]
    case Err(e) => ("", Some(e))
    case Ok(c) => (c.address, None)
  }

  /** `getContractAddress`: fetch the contract until its address is known.
      `polls` are the outcomes of the successive fetches; `fetched` and
      `slept` count fetches and 10-second sleeps. */
  method GetContractAddress(polls: seq<Result<Contract>>)
    returns (address: string, err: Option<Error>, ghost fetched: nat, ghost slept: nat)
    requires EventuallyStops(polls, Deployed)
    ensures fetched == FirstStop(polls, Deployed) + 1
    ensures (address, err) == ContractAddressPoll(polls)
    ensures slept == if err.None? then fetched else fetched - 1
  {
    ghost var k := FirstStop(polls, Deployed);
    var t := Contract("", 0);
    var i := 0;
    fetched, slept := 0, 0;
    while t.address == ""
      invariant i <= k + 1
      invariant fetched == i && slept == i
      invariant i == 0 ==> t == Contract("", 0)
      invariant i > 0 ==> polls[i - 1] == Ok(t)
      decreases k + 1 - i
    {
      var f := polls[i];
      i := i + 1;
      fetched := fetched + 1;
      if f.Err? {
        return "", Some(f.error), fetched, slept;
      }
      t := f.value;
      slept := slept + 1;
    }
    return t.address, None, fetched, slept;
  }

  /** A snapshot without an address, pending or failed, does not end the poll. */
  lemma UndeployedContractKeepsPolling(c: Contract, rest: seq<Result<Contract>>)
    requires c.address == ""
    requires EventuallyStops(rest, Deployed)
    ensures EventuallyStops([Ok(c)] + rest, Deployed)
    ensures FirstStop([Ok(c)] + rest, Deployed) == 1 + FirstStop(rest, Deployed)
    ensures ContractAddressPoll([Ok(c)] + rest) == ContractAddressPoll(rest)
  {
    SkipSnapshot(c, rest, Deployed);
  }

  /** `DeployContract`: build and send the deploy request, then poll.
      `reply` is the id of the contract the reply announces, or the error of
      sending, reading or decoding it; `polls` are the outcomes of the
      contract fetches. */
  method DeployContract(cfg: Config, name: string, symbol: string, owner: string,
                        reply: Result<nat>, polls: seq<Result<Contract>>)
    returns (address: string, err: Option<Error>, ghost sent: ContractDeployDto, ghost fetched: nat)
    requires reply.Ok? ==> EventuallyStops(polls, Deployed)
    ensures reply.Err? ==> address == "" && err == Some(reply.error)
    ensures reply.Ok? ==> (address, err) == ContractAddressPoll(polls)
    ensures err.None? ==> address != ""
    ensures sent == DeployRequest(cfg, name, symbol, owner)
    ensures fetched == if reply.Err? then 0 else FirstStop(polls, Deployed) + 1
  {
    sent := DeployRequest(cfg, name, symbol, owner);
    if reply.Err? {
      return "", Some(reply.error), sent, 0;
    }
    ghost var slept;
    address, err, fetched, slept := GetContractAddress(polls);
  }
}
