# Claim flow of the NFT Rainbow Discord bot, modelled in Dafny

This project models the sequential logic behind the bot's `/claim` command.
It has three parts.

- **Status store** (`database.dfy`). A BoltDB file has two buckets,
  `easy-mint-bucket` and `custom-mint-bucket`. Each maps a user's address to
  a byte value. The class `StatusStore` holds the file's contents as a
  `map<string, map<string, seq<byte>>>`:
  - `ConnectDB` creates both buckets if they are missing;
  - `InsertDB` creates its bucket if needed and upserts the key;
  - `GetCount` reads a value as a string. A missing key gives `""`. A
    missing bucket gives an error.
- **Claim guard and handlers** (`bot.dfy`, from `main.go`).
  - `CheckRestrain` refuses only a status of exactly `"Minting"`.
  - Each handler reads the status, writes `"Minting"`, calls the mint
    service, and writes `"NoMinting"` when the service succeeds.
  - A deferred step writes `"NoMinting"` when the handler returns an error.
    It is made explicit as `Deferred` on every return path.
  - Nothing writes `"Success"`, so an address may claim again once the
    call's last status write succeeds. When that write fails, the record
    stays `"Minting"` and the next claim is refused. That refused claim's
    deferred write clears the record.
  - `Claim` also returns, as ghost values:
    - a log of its reads, writes and service call, in order;
    - the store as it was when the service was called.
- **Remote polling and replies** (`mint.dfy`, `contract.dfy`, `poll.dfy`).
  - `getTokenId` fetches a mint task until it has a token id or status 1.
  - `getContractAddress` fetches a contract until it has an address.
  - Each fetch is one element of an input sequence of
    `Result<snapshot>`. `Poll.FirstStop` is the index of the fetch that ends
    the loop: the first error, or the first snapshot the stop condition
    accepts.
  - The pure rules are functions:
    - a reply with a non-null `"code"` becomes an error carrying
      `"message"`;
    - the NFT links are built from their parts;
    - the deploy request is assembled from the arguments.

`gobasics.dfy` models the Go built-ins the core uses:
- `string(b)` and `[]byte(s)`;
- `int(x)` on a `uint64`, written out with its 64-bit wrap-around;
- `strconv.Itoa`.

A Go `error` is its message text (`Wrappers.Error`). `nil` is `None`.

Inputs that come from outside the program are parameters:
- the contents of the BoltDB file when it is opened;
- whether a store write fails;
- the mint service's answer;
- the decoded HTTP replies;
- the sequence of poll fetches;
- the configuration strings (`Models.Config`).

The source calls `database.GetStatus`, which is not defined in
`database/index.go`. It is modelled as `StatusStore.GetStatus`, the raw-bytes
read that `GetCount` makes. The handlers call the mint service with a single
`MintReq`, which does not match the `(token, dto)` signature in
`service/mint.go`. So the handlers treat the service as an abstract fallible
call, `send: Result<MintResp>`. `utils` is not part of this model. The value
`"conflux_test"` of `utils.CONFLUX_TEST` comes from the `oneof` tag of
`ContractDeployDto.Chain` (models/contract.go:4).

## Model

| member | source | states |
|---|---|---|
| `GoBasics.IntOf` | service/mint.go:54 | `int(id)` on a 64-bit platform: the result lies in the signed 64-bit range and is congruent to `id` modulo 2^64 |
| `GoBasics.IntOfInjective` | service/mint.go:54 | distinct `uint64` values convert to distinct `int` values |
| `GoBasics.Str` | database/index.go:70 | `string(b)` has one character per byte, each carrying that byte's value |
| `GoBasics.Bytes` | main.go:207 | `[]byte(s)` of a one-byte-per-character string has the same length and the same values |
| `GoBasics.BytesStrRoundTrip` | database/index.go:70 | `string` and `[]byte` conversions are mutually inverse, so the value `GetCount` returns as a string carries exactly the stored bytes |
| `GoBasics.Decimal` | service/mint.go:54 | the base-10 rendering of a natural number is non-empty, all digits, with no leading zero |
| `GoBasics.ParseDecimalOfDecimal` | service/mint.go:54 | reading the digits back gives the original number (round trip) |
| `GoBasics.Itoa` | service/mint.go:101 | `strconv.Itoa` starts with `-` exactly when the number is negative |
| `GoBasics.ItoaInjective` | service/mint.go:101 | distinct integers have distinct `Itoa` renderings |
| `Database.StatusStore.ConnectDB` | database/index.go:16-37 | after connecting, both mint buckets exist and the file's contents are `WithMintBuckets` of what was persisted |
| `Database.StatusStore.InsertDB` | database/index.go:39-59 | a committed insert creates the bucket when absent and sets exactly that key; a failed transaction returns its error and changes nothing; both mint buckets keep existing |
| `Database.StatusStore.GetCount` | database/index.go:61-78 | missing bucket: `""` and `Bucket <name> not found!`; missing key: `""` and no error; otherwise the stored bytes as a string and no error |
| `Database.StatusStore.GetStatus` | main.go:202 | the raw-bytes read the guard uses: agrees with `Lookup`, returns the store's error on a missing bucket and an empty value for a missing key |
| `Database.LookupAfterPut` | database/index.go:39-78 | after a successful `InsertDB(a, v, b)` a read of `(a, b)` returns `v` with no error |
| `Database.PutFrame` | database/index.go:42-53 | an insert changes only key `a` of bucket `b`: other buckets and other keys are unchanged, and a newly created bucket holds only `a` |
| `Database.PutCreatesBucket` | database/index.go:43-46 | an insert never fails for want of its bucket: the bucket exists afterwards and the key reads back without error |
| `Database.PutIdempotent` | database/index.go:48 | writing the same `(a, v, b)` twice leaves the state of writing it once |
| `Database.LookupMissingKey` | database/index.go:70 | a key never written, in an existing bucket, reads as the empty value with no error |
| `Database.ConnectIdempotent` | database/index.go:23-33 | connecting twice equals connecting once; afterwards both buckets exist; existing buckets keep their contents; created ones are empty |
| `Database.MintBucketsIndependent` | database/index.go:13-14 | the two bucket names differ, so a write to one bucket leaves every read of the other unchanged |
| `Bot.CheckRestrain` | main.go:201-212 | refuses exactly when the read fails or the stored bytes equal `"Minting"`; a read error is passed on unchanged; a `"Minting"` record gives `This account is minting NFT`. On a connected store and a mint bucket it refuses exactly a stored `"Minting"` |
| `Bot.GuardOnMintBucket` | main.go:201-212 | once both mint buckets exist, the guard's read of a mint bucket never fails, so it refuses exactly a stored `"Minting"` |
| `Bot.AfterClaimKeepsMintBuckets` | main.go:214-276 | a claim keeps both mint buckets, so the store stays connected |
| `Bot.RestrainPasses` | main.go:207-211 | an empty record and a `"NoMinting"` record pass the guard; a `"Minting"` record is refused |
| `Bot.Deferred` | main.go:216-221 | the deferred closure writes `"NoMinting"` exactly when the handler leaves with an error |
| `Bot.Claim` | main.go:214-245 | a refused call returns the guard's error, logs a read then a `"NoMinting"` write, and never calls the service. Any other call logs read, `"Minting"` write, service call, `"NoMinting"` write, in that order. It returns the service's response with no error, or no response and the service's error unchanged. Write failures never change the result. The final store is `AfterClaim` of the old one |
| `Bot.HandleEasyMint` | main.go:247-276 | `Claim` on the easy-mint bucket, with all of its results: a refused call logs a read then a `"NoMinting"` write and never calls the service; any other call logs read, `"Minting"` write, service call, `"NoMinting"` write, in that order. Every other bucket is unchanged, and both mint buckets keep existing |
| `Bot.HandleCustomMint` | main.go:214-245 | the same as `HandleEasyMint`, on the custom-mint bucket |
| `Bot.ClaimFrame` | main.go:219-241 | a claim changes only the caller's record in its own bucket |
| `Bot.ClaimReleases` | main.go:216-254 | when the call's last write succeeds, the record ends as `"NoMinting"` on every path (refused, service error, success), so the next claim passes the guard; success is not terminal |
| `Bot.FailedReleaseLeavesMinting` | main.go:216-241 | when an admitted call's last write fails, the record stays `"Minting"` and the next claim is refused; that refused claim's deferred write clears it when it succeeds, and leaves it `"Minting"` when it fails |
| `Bot.ReservedDuringSend` | main.go:227-233 | when the guard passed and the `"Minting"` write succeeded, the record reads `"Minting"` while the service runs, so a concurrent claim would be refused |
| `Bot.RefusedClaimClearsReservation` | main.go:216-229 | a call refused because the record held `"Minting"` still overwrites it with `"NoMinting"` |
| `Poll.FirstStop` | service/mint.go:153-174 | the index of the fetch that ends a poll loop: it is an error or an accepted snapshot, and no earlier fetch was either |
| `Poll.FirstStopUnique` | service/mint.go:153 | any index with a stop and no earlier stop is `FirstStop` (reference characterisation) |
| `Poll.FirstStopExtend` | service/mint.go:160-172 | fetches after the stopping one are never consulted |
| `Poll.SkipSnapshot` | service/contract.go:58 | a snapshot the stop condition rejects is followed by another fetch |
| `MintService.CheckReply` | service/mint.go:33-45 | a read or decode error is passed on; a reply with a non-null `"code"` becomes an error whose text is `"message"`; otherwise the decoded record |
| `MintService.TokenIdPoll` | service/mint.go:150-176 | the poll has no error exactly when the stopping fetch decoded; then the result is that snapshot's token id, and the snapshot has `TokenId != 0` or `Status == 1`; otherwise it is 0 with the stopping fetch's error |
| `MintService.GetTokenId` | service/mint.go:150-176 | the loop makes `FirstStop + 1` fetches (at least one) and returns `TokenIdPoll`. It sleeps once after each decoded fetch, including the last; an error returns before the sleep |
| `MintService.UnfinishedTaskKeepsPolling` | service/mint.go:153 | a snapshot with `TokenId == 0` and `Status != 1` (pending, or failed with status 2) does not end the loop |
| `MintService.SucceededTaskMayCarryZero` | service/mint.go:153-175 | a snapshot with status 1 ends the loop even with token id 0, which is then returned |
| `MintService.TokenIdPollIgnoresLaterFetches` | service/mint.go:160-172 | after an error or a stopping snapshot no further fetch matters |
| `MintService.EasyNftAddress` | service/mint.go:54 | for ids below 2^63 the easy link is the prefix followed by the decimal id |
| `MintService.CustomNftAddress` | service/mint.go:101 | for ids below 2^63 the custom link is prefix, contract address, `/`, decimal id |
| `MintService.NftAddressesInjective` | service/mint.go:98-102 | distinct token ids give distinct links, for every `uint64` including wrapped ones |
| `MintService.EasyNftAddressEndsWithId` | service/mint.go:51-55 | the token id can be read back from the digits after the prefix |
| `MintService.SendEasyMintRequest` | service/mint.go:16-59 | a reply error or coded reply yields that error with no poll. Otherwise the result is the poll's error, or `UserAddress = MintToAddress`, `NFTAddress = EasyNftAddress(prefix, id)` and the configured advertise. Exactly one of response or error is returned |
| `MintService.SendCustomMintRequest` | service/mint.go:61-106 | the same as the easy path, with `NFTAddress = CustomNftAddress(prefix, ContractAddress, id)` |
| `MintService.CreateMetadata` | service/mint.go:108-148 | sends `Metadata(name, description, image = fileUrl)`; returns the reply's metadata URI with no error exactly when the reply decoded and has no code, else `""` and the reply's error |
| `ContractService.DeployRequest` | service/contract.go:16-22 | `Chain = conflux_test`, name, symbol and owner passed through unchanged, the configured type, no base URI |
| `ContractService.ContractAddressPoll` | service/contract.go:56-82 | a successful poll's address is the stopping snapshot's and is never empty; a failed one is `""` with the failing fetch's error |
| `ContractService.GetContractAddress` | service/contract.go:56-82 | `FirstStop + 1` fetches (at least one), result `ContractAddressPoll`, one sleep per decoded fetch |
| `ContractService.UndeployedContractKeepsPolling` | service/contract.go:58 | a snapshot with an empty address, pending or failed (status 2), does not end the loop |
| `ContractService.DeployContract` | service/contract.go:15-54 | sends `DeployRequest`. A send, read or decode error returns `""` and that error with no poll. Otherwise it returns exactly `getContractAddress`'s result, so a result without error is never empty |

## Left out

- Discord session, command registration, interaction replies and embeds (main.go:20-199, 278-358): these are transport and UI. This includes the subcommand `switch` that leaves `resp` nil for an unknown option.
- `HandleBindCfxAddress`, `GetBindCfxAddress`, `service/login.go`, `service.UploadFile` and the `botCMD` commands: they are outside the claim core.
- HTTP requests, JSON encoding and viper lookups are left out as library and network calls. Replies are given as decoded values. `Reply.fields` stands for the `map[string]interface{}` decode. The configuration strings are opaque.
- HTTP URL composition and the `Authorization` header are left out, because they are transport. The poll methods take no task id and no token: the fetch sequence stands for the fetches of that task.
- `json.Unmarshal` into the reused snapshot keeps fields a reply omits. That is library behaviour. Each fetch is modelled as a complete snapshot.
- In `SendEasyMintRequest` the `ioutil.ReadAll` error is overwritten by the decode's error. Read, decode and map-decode failures are all one `Err` reply.
- Panic paths are left out: the marshal failures at service/mint.go:19 and 64, the send failures at service/mint.go:28, 74 and 125, and the `http.NewRequest` failures at service/mint.go:156 and service/contract.go:61. The `t["message"].(string)` assertion panics when `"message"` is not a string, and `MessageIsString` rules that case out as a precondition.
- The marshal error in `DeployContract` and `CreateMetadata` cannot occur for records of strings, so it is not modelled.
- `time.Sleep` is a ghost counter, with no real time.
- The `fmt.Println` progress messages (service/mint.go:22, 68, 119, 152) are console output with no effect on the results.
- GoBasics.Bytes: a string is converted one character per byte, with characters up to 255. Go's `[]byte(s)` gives the UTF-8 encoding instead, which differs for characters above 127. The conversion is applied only to the ASCII literals `"Minting"` and `"NoMinting"`, where the two agree.
- GetTokenId: the loop in the source is unbounded. The model requires the fetch sequence to contain a stopping fetch (`EventuallyStops`). Runs that never finish are not modelled.
- GetContractAddress: the same `EventuallyStops` requirement; non-terminating runs are not modelled.
- BoltDB internals are left out: file open errors, transactions, fsync, and the library's own errors for empty or oversized keys and bucket names. Every write failure is the `fault` parameter of `InsertDB`, and a failed transaction changes nothing. The model assumes a read transaction fails only for a missing bucket.
- The store keys buckets and records by the Go string itself rather than by its UTF-8 bytes. The encoding is injective, so lookups agree.
- Concurrency: interactions run concurrently, and the check at main.go:227 and the write at main.go:231 are separate store calls, so two claims can race. The model is sequential. `Bot.ReservedDuringSend` only states what a claim running during the service call would read.
