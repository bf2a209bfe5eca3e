/** The per-address mint status store: a BoltDB file holding named buckets,
    each mapping an address to a byte value. */
module Database {
  import opened Wrappers
  import opened GoBasics

  type Bucket = map<string, seq<byte>>

  /** The file's contents: bucket name to bucket. */
  type Buckets = map<string, Bucket>

  const EasyMintBucket: string := "easy-mint-bucket"
  const CustomMintBucket: string := "custom-mint-bucket"

  /** The error a read of a missing bucket reports. */
  function NotFound(bucketName: string): Error
  {
    "Bucket " + bucketName + " not found!"
  }

  /** What a read transaction finds under `key` in bucket `bucketName`: the
      stored bytes, nothing (an empty value) for a missing key, or an error for
      a missing bucket. */
  function Lookup(m: Buckets, bucketName: string, key: string): Result<seq<byte>>
  {
    if bucketName !in m then Err(NotFound(bucketName))
    else if key in m[bucketName] then Ok(m[bucketName][key])
    else Ok([])
  }

  /** The effect of a committed `InsertDB`: create the bucket when absent, then upsert. */
  function Put(m: Buckets, bucketName: string, key: string, val: seq<byte>): Buckets
  {
    m[bucketName := (if bucketName in m then m[bucketName] else map[])[key := val]]
  }

  /** The effect of `ConnectDB`'s transaction: both mint buckets, created empty when absent. */
  function WithMintBuckets(m: Buckets): Buckets
  {
    var m1 := if EasyMintBucket in m then m else m[EasyMintBucket := map[]];
    if CustomMintBucket in m1 then m1 else m1[CustomMintBucket := map[]]
  }

  /** Both mint buckets exist. */
  predicate HasMintBuckets(m: Buckets)
  {
    EasyMintBucket in m && CustomMintBucket in m
  }

  class StatusStore {
    var buckets: Buckets

    ghost predicate Valid()
      reads this
    {
      HasMintBuckets(buckets)
    }

    /** Opens the file, whose contents are `persisted`, and creates the two mint buckets. */
    constructor ConnectDB(persisted: Buckets)
      ensures Valid()
      ensures buckets == WithMintBuckets(persisted)
    {
      buckets := WithMintBuckets(persisted);
    }

    /** Upserts `val` under `address` in `bucketName`, creating the bucket if
        needed.  `fault` is the storage failure the transaction meets, if any;
        a failed transaction is rolled back and its error returned. */
    method InsertDB(address: string, val: seq<byte>, bucketName: string, fault: Option<Error>)
      returns (err: Option<Error>)
      modifies this
      ensures err == fault
      ensures buckets == if fault.Some? then old(buckets) else Put(old(buckets), bucketName, address, val)
      ensures old(Valid()) ==> Valid()
    {
      if fault.Some? {
        return fault;
      }
      var bucket := if bucketName in buckets then buckets[bucketName] else map[];
      buckets := buckets[bucketName := bucket[address := val]];
      err := None;
    }

    /** The stored value as a string, `""` for a missing key, or `""` and an
        error for a missing bucket. */
    method GetCount(address: string, bucketName: string) returns (val: string, err: Option<Error>)
      ensures bucketName !in buckets ==> val == "" && err == Some(NotFound(bucketName))
      ensures bucketName in buckets && address !in buckets[bucketName] ==> val == "" && err == None
      ensures bucketName in buckets && address in buckets[bucketName] ==>
                val == Str(buckets[bucketName][address]) && err == None
    {
      if bucketName !in buckets {
        return "", Some(NotFound(bucketName));
      }
      var bucket := buckets[bucketName];
      val := if address in bucket then Str(bucket[address]) else Str([]);
      err := None;
    }

    /** The read `checkRestrain` performs: `GetCount` without the conversion to a string. */
    method GetStatus(address: string, bucketName: string) returns (status: seq<byte>, err: Option<Error>)
      ensures Lookup(buckets, bucketName, address) == if err.Some? then Err(err.value) else Ok(status)
      ensures err.Some? ==> status == []
    {
      if bucketName !in buckets {
        return [], Some(NotFound(bucketName));
      }
      var bucket := buckets[bucketName];
      status := if address in bucket then bucket[address] else [];
      err := None;
    }
  }

  /** A read after a write of the same key sees the written value. */
  lemma LookupAfterPut(m: Buckets, bucketName: string, key: string, val: seq<byte>)
    ensures Lookup(Put(m, bucketName, key, val), bucketName, key) == Ok(val)
  {
  }

  /** A write changes one key of one bucket: other buckets are untouched, other
      keys of an existing bucket keep their values, and a bucket the write
      creates holds only the written key. */
  lemma PutFrame(m: Buckets, bucketName: string, key: string, val: seq<byte>)
    ensures Put(m, bucketName, key, val) - {bucketName} == m - {bucketName}
    ensures forall b, k :: b != bucketName ==>
              Lookup(Put(m, bucketName, key, val), b, k) == Lookup(m, b, k)
    ensures forall k :: k != key && bucketName in m ==>
              Lookup(Put(m, bucketName, key, val), bucketName, k) == Lookup(m, bucketName, k)
    ensures bucketName !in m ==> Put(m, bucketName, key, val)[bucketName] == map[key := val]
  {
  }

  /** A write never fails for want of its bucket: afterwards the bucket exists. */
  lemma PutCreatesBucket(m: Buckets, bucketName: string, key: string, val: seq<byte>)
    ensures bucketName in Put(m, bucketName, key, val)
    ensures Lookup(Put(m, bucketName, key, val), bucketName, key).Ok?
    ensures HasMintBuckets(m) ==> HasMintBuckets(Put(m, bucketName, key, val))
  {
  }

  /** Writing the same value twice leaves the state of writing it once. */
  lemma PutIdempotent(m: Buckets, bucketName: string, key: string, val: seq<byte>)
    ensures Put(Put(m, bucketName, key, val), bucketName, key, val) == Put(m, bucketName, key, val)
  {
    var once := Put(m, bucketName, key, val);
    assert once[bucketName][key := val] == once[bucketName];
  }

  /** A read of a key never written, in an existing bucket, gives the empty value. */
  lemma LookupMissingKey(m: Buckets, bucketName: string, key: string)
    requires bucketName in m && key !in m[bucketName]
    ensures Lookup(m, bucketName, key) == Ok([])
  {
  }

  /** Connecting twice is connecting once; afterwards both buckets exist and
      every bucket already in the file keeps its contents. */
  lemma ConnectIdempotent(m: Buckets)
    ensures WithMintBuckets(WithMintBuckets(m)) == WithMintBuckets(m)
    ensures HasMintBuckets(WithMintBuckets(m))
    ensures WithMintBuckets(m).Keys == m.Keys + {EasyMintBucket, CustomMintBucket}
    ensures forall b :: b in m ==> WithMintBuckets(m)[b] == m[b]
    ensures EasyMintBucket !in m ==> WithMintBuckets(m)[EasyMintBucket] == map[]
    ensures CustomMintBucket !in m ==> WithMintBuckets(m)[CustomMintBucket] == map[]
  {
  }

  /** The two mint buckets are distinct, so one address's easy and custom
      statuses are independent of each other. */
  lemma MintBucketsIndependent(m: Buckets, key: string, val: seq<byte>)
    ensures EasyMintBucket != CustomMintBucket
    ensures forall k :: Lookup(Put(m, EasyMintBucket, key, val), CustomMintBucket, k) == Lookup(m, CustomMintBucket, k)
    ensures forall k :: Lookup(Put(m, CustomMintBucket, key, val), EasyMintBucket, k) == Lookup(m, EasyMintBucket, k)
  {
    assert EasyMintBucket[0] != CustomMintBucket[0];
  }
}
