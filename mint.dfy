/** The mint requests of the service layer: submit, check the reply for an
    error code, poll the task until it has a token id or has succeeded, and
    build the response. */
module MintService {
  import opened Wrappers
  import opened GoBasics
  import opened Models
  import opened Poll

  /** The reply carries a non-null "code": the service reports an error. */
  predicate HasCode(fields: map<string, Json>)
  {
    "code" in fields && fields["code"] != JNull
  }

  /** An error reply's "message" is a string (otherwise the source's type assertion panics). */
  predicate MessageIsString(fields: map<string, Json>)
  {
    HasCode(fields) ==> "message" in fields && fields["message"].JString?
  }

  /** A decoded reply, or a failure to obtain one, as the rest of the request
      sees it: a decode failure is passed on, a reply with a code becomes an
      error carrying its message, any other reply yields its decoded record. */
  function CheckReply<T>(reply: Result<Reply<T>>): (r: Result<T>)
    requires reply.Ok? ==> MessageIsString(reply.value.fields)
    ensures reply.Err? ==> r == Err(reply.error)
    ensures reply.Ok? ==> (r.Err? <==> HasCode(reply.value.fields))
    ensures reply.Ok? && HasCode(reply.value.fields) ==> r == Err(reply.value.fields["message"].s)
    ensures r.Ok? ==> reply.Ok? && r.value == reply.value.decoded
  {
    match reply
    case Err(e) => Err(e)
    case Ok(body) => if HasCode(body.fields) then Err(body.fields["message"].s) else Ok(body.decoded)
  }

  /** The task poll stops at a snapshot with a token id or with status 1 (success). */
  predicate TaskDone(t: MintTask)
  {
    t.tokenId != 0 || t.status == 1
  }

  /** What polling a task returns: the token id of the stopping snapshot, or
      0 and the error of the fetch that failed. */
  function TokenIdPoll(polls: seq<Result<MintTask>>): (r: (uint64, Option<Error>))
    requires EventuallyStops(polls, TaskDone)
    ensures r.1.None? <==> polls[FirstStop(polls, TaskDone)].Ok?
    ensures r.1.Some? ==> r.0 == 0 && polls[FirstStop(polls, TaskDone)] == Err(r.1.value)
    ensures var f := polls[FirstStop(polls, TaskDone)];
            r.1.None? ==> f.Ok? && TaskDone(f.value) && r.0 == f.value.tokenId
  {
    match polls[FirstStop(polls, TaskDone)]
    case Err(e) => (0, Some(e))
    case Ok(t) => (t.tokenId, None)
  }

  /** `getTokenId`: fetch the task until it has a token id or reports
      success.  `polls` are the outcomes of the successive fetches; `fetched`
      and `slept` count fetches and 10-second sleeps. */
  method GetTokenId(polls: seq<Result<MintTask>>)
    returns (id: uint64, err: Option<Error>, ghost fetched: nat, ghost slept: nat)
    requires EventuallyStops(polls, TaskDone)
    ensures fetched == FirstStop(polls, TaskDone) + 1
    ensures (id, err) == TokenIdPoll(polls)
    ensures slept == if err.None? then fetched else fetched - 1
  {
    ghost var k := FirstStop(polls, TaskDone);
    var t := MintTask(0, 0);
    var i := 0;
    fetched, slept := 0, 0;
    while t.tokenId == 0 && t.status != 1
      invariant i <= k + 1
      invariant fetched == i && slept == i
      invariant i == 0 ==> t == MintTask(0, 0)
      invariant i > 0 ==> polls[i - 1] == Ok(t)
      decreases k + 1 - i
    {
      var f := polls[i];
      i := i + 1;
      fetched := fetched + 1;
      if f.Err? {
        return 0, Some(f.error), fetched, slept;
      }
      t := f.value;
      slept := slept + 1;
    }
    return t.tokenId, None, fetched, slept;
  }

  /** A pending or failed snapshot without a token id does not end the poll. */
  lemma UnfinishedTaskKeepsPolling(t: MintTask, rest: seq<Result<MintTask>>)
    requires t.tokenId == 0 && t.status != 1
    requires EventuallyStops(rest, TaskDone)
    ensures EventuallyStops([Ok(t)] + rest, TaskDone)
    ensures FirstStop([Ok(t)] + rest, TaskDone) == 1 + FirstStop(rest, TaskDone)
    ensures TokenIdPoll([Ok(t)] + rest) == TokenIdPoll(rest)
  {
    SkipSnapshot(t, rest, TaskDone);
  }

  /** A successful snapshot ends the poll even without a token id, which is then 0. */
  lemma SucceededTaskMayCarryZero(rest: seq<Result<MintTask>>)
    ensures EventuallyStops([Ok(MintTask(0, 1))] + rest, TaskDone)
    ensures TokenIdPoll([Ok(MintTask(0, 1))] + rest) == (0, None)
  {
    assert Stops(([Ok(MintTask(0, 1))] + rest)[0], TaskDone);
  }

  /** Fetches after the one that stops the poll do not change its result. */
  lemma TokenIdPollIgnoresLaterFetches(polls: seq<Result<MintTask>>, more: seq<Result<MintTask>>)
    requires EventuallyStops(polls, TaskDone)
    ensures EventuallyStops(polls + more, TaskDone)
    ensures TokenIdPoll(polls + more) == TokenIdPoll(polls)
  {
    FirstStopExtend(polls, more, TaskDone);
  }

  /** The easy-mint NFT link: the configured prefix, then `strconv.Itoa(int(id))`. */
  function EasyNftAddress(prefix: string, id: uint64): (url: string)
    ensures id < TWO_63 ==> url == prefix + Decimal(id)
  {
    prefix + Itoa(IntOf(id))
  }

  /** The custom-mint NFT link: prefix, contract address, "/", then `strconv.Itoa(int(id))`. */
  function CustomNftAddress(prefix: string, contract: string, id: uint64): (url: string)
    ensures id < TWO_63 ==> url == prefix + contract + "/" + Decimal(id)
  {
    prefix + contract + "/" + Itoa(IntOf(id))
  }

  /** Different token ids give different links under the same prefix and contract. */
  lemma NftAddressesInjective(prefix: string, contract: string, a: uint64, b: uint64)
    ensures EasyNftAddress(prefix, a) == EasyNftAddress(prefix, b) ==> a == b
    ensures CustomNftAddress(prefix, contract, a) == CustomNftAddress(prefix, contract, b) ==> a == b
  {
    if EasyNftAddress(prefix, a) == EasyNftAddress(prefix, b) {
      PrefixCancel(prefix, Itoa(IntOf(a)), Itoa(IntOf(b)));
      ItoaInjective(IntOf(a), IntOf(b));
      IntOfInjective(a, b);
    }
    if CustomNftAddress(prefix, contract, a) == CustomNftAddress(prefix, contract, b) {
      PrefixCancel(prefix + contract + "/", Itoa(IntOf(a)), Itoa(IntOf(b)));
      ItoaInjective(IntOf(a), IntOf(b));
      IntOfInjective(a, b);
    }
  }

  /** The token id can be read back from the end of an easy-mint link. */
  lemma EasyNftAddressEndsWithId(prefix: string, id: uint64)
    requires id < TWO_63
    ensures var url := EasyNftAddress(prefix, id);
            |url| > |prefix| && AllDigits(url[|prefix|..]) && ParseDecimal(url[|prefix|..]) == id
  {
    var url := EasyNftAddress(prefix, id);
    assert url[|prefix|..] == Decimal(id);
    ParseDecimalOfDecimal(id);
  }

  /** `SendEasyMintRequest`: submit, check the reply, poll the task, build the
      response.  `submitted` is the decoded submission reply (or the error of
      reading or decoding it), whose record is the task's id; `polls` are the
      outcomes of the task fetches. */
  method SendEasyMintRequest(cfg: Config, dto: EasyMintMetaDto, submitted: Result<Reply<nat>>,
                             polls: seq<Result<MintTask>>)
    returns (resp: Option<MintResp>, err: Option<Error>, ghost fetched: nat)
    requires submitted.Ok? ==> MessageIsString(submitted.value.fields)
    requires CheckReply(submitted).Ok? ==> EventuallyStops(polls, TaskDone)
    ensures resp.Some? <==> err.None?
    ensures CheckReply(submitted).Err? ==> err == Some(CheckReply(submitted).error) && fetched == 0
    ensures CheckReply(submitted).Ok? ==>
              && fetched == FirstStop(polls, TaskDone) + 1
              && (TokenIdPoll(polls).1.Some? ==> err == TokenIdPoll(polls).1)
              && (TokenIdPoll(polls).1.None? ==>
                    resp == Some(MintResp(dto.mintToAddress, EasyNftAddress(cfg.easyMintPrefix, TokenIdPoll(polls).0),
                                          cfg.advertise)))
  {
    var task := CheckReply(submitted);
    if task.Err? {
      return None, Some(task.error), 0;
    }
    var id, e, n, slept := GetTokenId(polls);
    fetched := n;
    if e.Some? {
      return None, e, fetched;
    }
    resp := Some(MintResp(dto.mintToAddress, EasyNftAddress(cfg.easyMintPrefix, id), cfg.advertise));
    err := None;
  }

  /** `SendCustomMintRequest`: as `SendEasyMintRequest`, with the custom link. */
  method SendCustomMintRequest(cfg: Config, dto: CustomMintDto, submitted: Result<Reply<nat>>,
                               polls: seq<Result<MintTask>>)
    returns (resp: Option<MintResp>, err: Option<Error>, ghost fetched: nat)
    requires submitted.Ok? ==> MessageIsString(submitted.value.fields)
    requires CheckReply(submitted).Ok? ==> EventuallyStops(polls, TaskDone)
    ensures resp.Some? <==> err.None?
    ensures CheckReply(submitted).Err? ==> err == Some(CheckReply(submitted).error) && fetched == 0
    ensures CheckReply(submitted).Ok? ==>
              && fetched == FirstStop(polls, TaskDone) + 1
              && (TokenIdPoll(polls).1.Some? ==> err == TokenIdPoll(polls).1)
              && (TokenIdPoll(polls).1.None? ==>
                    resp == Some(MintResp(dto.mintToAddress,
                                          CustomNftAddress(cfg.customMintPrefix, dto.contractAddress, TokenIdPoll(polls).0),
                                          cfg.advertise)))
  {
    var task := CheckReply(submitted);
    if task.Err? {
      return None, Some(task.error), 0;
    }
    var id, e, n, slept := GetTokenId(polls);
    fetched := n;
    if e.Some? {
      return None, e, fetched;
    }
    resp := Some(MintResp(dto.mintToAddress, CustomNftAddress(cfg.customMintPrefix, dto.contractAddress, id),
                          cfg.advertise));
    err := None;
  }

  /** `CreateMetadata`: the metadata record sent (the file URL as its image)
      and the metadata URI of the reply, or `""` and the error. */
  function CreateMetadata(fileUrl: string, name: string, description: string, reply: Result<Reply<string>>)
    : (r: (Metadata, string, Option<Error>))
    requires reply.Ok? ==> MessageIsString(reply.value.fields)
    ensures r.0 == Metadata(name, description, fileUrl)
    ensures r.2.Some? ==> r.1 == "" && CheckReply(reply) == Err(r.2.value)
    ensures r.2.None? <==> reply.Ok? && !HasCode(reply.value.fields)
    ensures r.2.None? ==> r.1 == reply.value.decoded
  {
    var sent := Metadata(name, description, fileUrl);
    match CheckReply(reply)
    case Err(e) => (sent, "", Some(e))
    case Ok(uri) => (sent, uri, None)
  }
}
