/** The claim guard and the two claim handlers of the bot.  Each handler reads
    the caller's status, writes "Minting", calls the mint service and writes
    "NoMinting"; a deferred step writes "NoMinting" whenever the handler is
    leaving with an error.  No status is terminal: "Success" is never written. */
module Bot {
  import opened Wrappers
  import opened GoBasics
  import opened Models
  import opened Database

  const MINTING: seq<byte> := Bytes("Minting")
  const NO_MINTING: seq<byte> := Bytes("NoMinting")

  const MintingError: Error := "This account is minting NFT"

  /** The decision of `checkRestrain` on what the store read returned: a read
      error is passed on, a status of exactly "Minting" is refused, anything
      else passes. */
  function Restrain(status: Result<seq<byte>>): Option<Error>
  {
    match status
    case Err(e) => Some(e)
    case Ok(s) => if s == MINTING then Some(MintingError) else None
  }

  /** Refuses when the stored status of `address` in bucket `mintType` is
      "Minting", and passes a store read error on unchanged. */
  method CheckRestrain(db: StatusStore, address: string, mintType: string) returns (err: Option<Error>)
    ensures var read := Lookup(db.buckets, mintType, address);
            && (err.Some? <==> read.Err? || read.value == MINTING)
            && (read.Err? ==> err == Some(read.error))
            && (read.Ok? && read.value == MINTING ==> err == Some(MintingError))
    ensures err == Restrain(Lookup(db.buckets, mintType, address))
    ensures db.Valid() && IsMintBucket(mintType) ==>
              (err.Some? <==> Lookup(db.buckets, mintType, address) == Ok(MINTING))
  {
    var status, e := db.GetStatus(address, mintType);
    if e.Some? {
      return e;
    }
    if status == MINTING {
      return Some(MintingError);
    }
    return None;
  }

  /** One of the two buckets the claim handlers use. */
  predicate IsMintBucket(bucket: string)
  {
    bucket == EasyMintBucket || bucket == CustomMintBucket
  }

  /** Once both mint buckets exist, the guard's read of a mint bucket never
      fails, so the guard refuses exactly a stored "Minting". */
  lemma GuardOnMintBucket(m: Buckets, bucket: string, user: string)
    requires HasMintBuckets(m) && IsMintBucket(bucket)
    ensures Lookup(m, bucket, user).Ok?
    ensures Refused(m, bucket, user) <==> Lookup(m, bucket, user) == Ok(MINTING)
  {
  }

  /** After `ConnectDB` every claim on a mint bucket keeps both mint buckets. */
  lemma AfterClaimKeepsMintBuckets(m: Buckets, bucket: string, user: string, faults: map<nat, Error>)
    requires HasMintBuckets(m)
    ensures HasMintBuckets(AfterClaim(m, bucket, user, faults))
  {
    PutCreatesBucket(m, bucket, user, NO_MINTING);
    PutCreatesBucket(m, bucket, user, MINTING);
    PutCreatesBucket(Put(m, bucket, user, MINTING), bucket, user, NO_MINTING);
  }

  /** An empty (never written) record and a "NoMinting" record both pass the guard. */
  lemma RestrainPasses()
    ensures Restrain(Ok([])) == None
    ensures Restrain(Ok(NO_MINTING)) == None
    ensures Restrain(Ok(MINTING)) == Some(MintingError)
  {
    assert |MINTING| == 7 && |NO_MINTING| == 9;
  }

  /** One observable action of a handler, in the order it happens. */
  datatype Step =
    | Read(bucket: string, key: string)
    | Write(bucket: string, key: string, value: seq<byte>)
    | Send(req: MintReq)

  /** The storage failure, if any, that the `n`-th status write of one handler
      call meets (counting from 0). */
  function Fault(faults: map<nat, Error>, n: nat): Option<Error>
  {
    if n in faults then Some(faults[n]) else None
  }

  /** The store after the `n`-th status write of a call writes `val`. */
  function WriteStatus(m: Buckets, bucket: string, user: string, val: seq<byte>, faults: map<nat, Error>, n: nat): Buckets
  {
    if n in faults then m else Put(m, bucket, user, val)
  }

  /** Whether the guard refuses `user` in `bucket`. */
  predicate Refused(m: Buckets, bucket: string, user: string)
  {
    Restrain(Lookup(m, bucket, user)).Some?
  }

  /** The store after one handler call: a refused call makes one write
      ("NoMinting", from the deferred step), any other call two ("Minting",
      then "NoMinting"), whatever the mint service answers. */
  function AfterClaim(m: Buckets, bucket: string, user: string, faults: map<nat, Error>): Buckets
  {
    if Refused(m, bucket, user) then WriteStatus(m, bucket, user, NO_MINTING, faults, 0)
    else WriteStatus(WriteStatus(m, bucket, user, MINTING, faults, 0), bucket, user, NO_MINTING, faults, 1)
  }

  /** The number of status writes of one handler call. */
  function ClaimWrites(m: Buckets, bucket: string, user: string): nat
  {
    if Refused(m, bucket, user) then 1 else 2
  }

  /** The deferred closure: when the handler leaves with an error, write "NoMinting". */
  method Deferred(db: StatusStore, bucket: string, userId: string, err: Option<Error>, fault: Option<Error>)
    modifies db
    ensures db.buckets == if err.Some? && fault.None? then Put(old(db.buckets), bucket, userId, NO_MINTING)
                          else old(db.buckets)
    ensures old(db.Valid()) ==> db.Valid()
  {
    if err.Some? {
      var ignored := db.InsertDB(userId, NO_MINTING, bucket, fault);
    }
  }

  /** One claim of `userId` in `bucket`.  `send` is what the mint service
      answers if it is called; `faults` the storage failures of the call's
      status writes.  Besides the answer, it yields the actions it took and the
      store as the mint service found it. */
  method Claim(db: StatusStore, bucket: string, userId: string, channelId: string,
               send: Result<MintResp>, faults: map<nat, Error>)
    returns (resp: Option<MintResp>, err: Option<Error>, ghost log: seq<Step>, ghost atSend: Option<Buckets>)
    modifies db
    ensures db.buckets == AfterClaim(old(db.buckets), bucket, userId, faults)
    ensures old(db.Valid()) ==> db.Valid()
    ensures Refused(old(db.buckets), bucket, userId) ==>
              && resp == None && err == Restrain(Lookup(old(db.buckets), bucket, userId))
              && log == [Read(bucket, userId), Write(bucket, userId, NO_MINTING)]
              && atSend == None
    ensures !Refused(old(db.buckets), bucket, userId) ==>
              && (send.Err? ==> resp == None && err == Some(send.error))
              && (send.Ok? ==> resp == Some(send.value) && err == None)
              && log == [Read(bucket, userId), Write(bucket, userId, MINTING),
                         Send(MintReq(userId, channelId)), Write(bucket, userId, NO_MINTING)]
              && atSend == Some(WriteStatus(old(db.buckets), bucket, userId, MINTING, faults, 0))
  {
    var e: Option<Error>;
    atSend := None;
    log := [Read(bucket, userId)];
    e := CheckRestrain(db, userId, bucket);
    if e.Some? {
      Deferred(db, bucket, userId, e, Fault(faults, 0));
      log := log + [Write(bucket, userId, NO_MINTING)];
      return None, e, log, atSend;
    }
    var ignored := db.InsertDB(userId, MINTING, bucket, Fault(faults, 0));
    log := log + [Write(bucket, userId, MINTING)];

    atSend := Some(db.buckets);
    log := log + [Send(MintReq(userId, channelId))];
    match send {
      case Err(sendErr) =>
        e := Some(sendErr);
        Deferred(db, bucket, userId, e, Fault(faults, 1));
        log := log + [Write(bucket, userId, NO_MINTING)];
        return None, e, log, atSend;
      case Ok(r) =>
        e := None;
        ignored := db.InsertDB(userId, NO_MINTING, bucket, Fault(faults, 1));
        log := log + [Write(bucket, userId, NO_MINTING)];
        Deferred(db, bucket, userId, e, Fault(faults, 2));
        return Some(r), None, log, atSend;
    }
  }

  /** The easy-mint claim: `Claim` on the easy-mint bucket, no other bucket touched. */
  method HandleEasyMint(db: StatusStore, userId: string, channelId: string,
                        send: Result<MintResp>, faults: map<nat, Error>)
    returns (resp: Option<MintResp>, err: Option<Error>, ghost log: seq<Step>, ghost atSend: Option<Buckets>)
    modifies db
    ensures db.buckets == AfterClaim(old(db.buckets), EasyMintBucket, userId, faults)
    ensures db.buckets - {EasyMintBucket} == old(db.buckets) - {EasyMintBucket}
    ensures old(db.Valid()) ==> db.Valid()
    ensures Refused(old(db.buckets), EasyMintBucket, userId) ==>
              && resp == None && err == Restrain(Lookup(old(db.buckets), EasyMintBucket, userId))
              && log == [Read(EasyMintBucket, userId), Write(EasyMintBucket, userId, NO_MINTING)]
              && atSend == None
    ensures !Refused(old(db.buckets), EasyMintBucket, userId) ==>
              && (send.Err? ==> resp == None && err == Some(send.error))
              && (send.Ok? ==> resp == Some(send.value) && err == None)
              && log == [Read(EasyMintBucket, userId), Write(EasyMintBucket, userId, MINTING),
                         Send(MintReq(userId, channelId)), Write(EasyMintBucket, userId, NO_MINTING)]
              && atSend == Some(WriteStatus(old(db.buckets), EasyMintBucket, userId, MINTING, faults, 0))
  {
    resp, err, log, atSend := Claim(db, EasyMintBucket, userId, channelId, send, faults);
    ClaimFrame(old(db.buckets), EasyMintBucket, userId, faults);
  }

  /** The custom-mint claim: `Claim` on the custom-mint bucket, no other bucket touched. */
  method HandleCustomMint(db: StatusStore, userId: string, channelId: string,
                          send: Result<MintResp>, faults: map<nat, Error>)
    returns (resp: Option<MintResp>, err: Option<Error>, ghost log: seq<Step>, ghost atSend: Option<Buckets>)
    modifies db
    ensures db.buckets == AfterClaim(old(db.buckets), CustomMintBucket, userId, faults)
    ensures db.buckets - {CustomMintBucket} == old(db.buckets) - {CustomMintBucket}
    ensures old(db.Valid()) ==> db.Valid()
    ensures Refused(old(db.buckets), CustomMintBucket, userId) ==>
              && resp == None && err == Restrain(Lookup(old(db.buckets), CustomMintBucket, userId))
              && log == [Read(CustomMintBucket, userId), Write(CustomMintBucket, userId, NO_MINTING)]
              && atSend == None
    ensures !Refused(old(db.buckets), CustomMintBucket, userId) ==>
              && (send.Err? ==> resp == None && err == Some(send.error))
              && (send.Ok? ==> resp == Some(send.value) && err == None)
              && log == [Read(CustomMintBucket, userId), Write(CustomMintBucket, userId, MINTING),
                         Send(MintReq(userId, channelId)), Write(CustomMintBucket, userId, NO_MINTING)]
              && atSend == Some(WriteStatus(old(db.buckets), CustomMintBucket, userId, MINTING, faults, 0))
  {
    resp, err, log, atSend := Claim(db, CustomMintBucket, userId, channelId, send, faults);
    ClaimFrame(old(db.buckets), CustomMintBucket, userId, faults);
  }

  /** A claim changes only the caller's record in its own bucket. */
  lemma ClaimFrame(m: Buckets, bucket: string, user: string, faults: map<nat, Error>)
    ensures AfterClaim(m, bucket, user, faults) - {bucket} == m - {bucket}
    ensures forall b, k :: b != bucket ==> Lookup(AfterClaim(m, bucket, user, faults), b, k) == Lookup(m, b, k)
    ensures forall k :: k != user && bucket in m ==>
              Lookup(AfterClaim(m, bucket, user, faults), bucket, k) == Lookup(m, bucket, k)
  {
    PutFrame(m, bucket, user, NO_MINTING);
    PutFrame(m, bucket, user, MINTING);
    PutFrame(Put(m, bucket, user, MINTING), bucket, user, NO_MINTING);
  }

  /** When the call's last status write succeeds, the record ends as
      "NoMinting" on every path (refused, service error, success), so the next
      claim of the same address passes the guard. */
  lemma ClaimReleases(m: Buckets, bucket: string, user: string, faults: map<nat, Error>)
    requires ClaimWrites(m, bucket, user) - 1 !in faults
    ensures Lookup(AfterClaim(m, bucket, user, faults), bucket, user) == Ok(NO_MINTING)
    ensures !Refused(AfterClaim(m, bucket, user, faults), bucket, user)
  {
    RestrainPasses();
  }

  /** When an admitted call's last status write fails, the record stays
      "Minting" and the next claim is refused; that refused claim's deferred
      write, when it succeeds, clears the record, so the claim after it passes. */
  lemma FailedReleaseLeavesMinting(m: Buckets, bucket: string, user: string,
                                   faults: map<nat, Error>, next: map<nat, Error>)
    requires !Refused(m, bucket, user) && 0 !in faults && 1 in faults
    ensures Lookup(AfterClaim(m, bucket, user, faults), bucket, user) == Ok(MINTING)
    ensures Refused(AfterClaim(m, bucket, user, faults), bucket, user)
    ensures 0 in next ==>
              Lookup(AfterClaim(AfterClaim(m, bucket, user, faults), bucket, user, next), bucket, user) == Ok(MINTING)
    ensures 0 !in next ==>
              !Refused(AfterClaim(AfterClaim(m, bucket, user, faults), bucket, user, next), bucket, user)
  {
    RestrainPasses();
  }

  /** While the mint service runs, the caller's record reads "Minting"
      (unless that write failed), so a second claim of the same address is
      refused. */
  lemma ReservedDuringSend(m: Buckets, bucket: string, user: string, faults: map<nat, Error>)
    requires !Refused(m, bucket, user) && 0 !in faults
    ensures Lookup(WriteStatus(m, bucket, user, MINTING, faults, 0), bucket, user) == Ok(MINTING)
    ensures Refused(WriteStatus(m, bucket, user, MINTING, faults, 0), bucket, user)
  {
    RestrainPasses();
  }

  /** A call refused because the record already read "Minting" still
      overwrites it with "NoMinting". */
  lemma RefusedClaimClearsReservation(m: Buckets, bucket: string, user: string, faults: map<nat, Error>)
    requires Lookup(m, bucket, user) == Ok(MINTING) && 0 !in faults
    ensures Refused(m, bucket, user)
    ensures Lookup(AfterClaim(m, bucket, user, faults), bucket, user) == Ok(NO_MINTING)
  {
    RestrainPasses();
  }
}
