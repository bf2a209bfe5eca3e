/** The records the claim flow reads and writes.  Only the fields the handlers
    and the poll loops use are mirrored. */
module Models {
  import opened GoBasics

  /** A mint task as the remote service reports it: `TokenId`, and `Status`
      where 0 is pending, 1 success and 2 failed. */
  datatype MintTask = MintTask(tokenId: uint64, status: nat)

  /** A contract deployment as the remote service reports it: the deployed
      `Address` (empty until known) and `Status` (0 pending, 1 success, 2 failed). */
  datatype Contract = Contract(address: string, status: nat)

  /** What a successful mint hands back to the chat front-end. */
  datatype MintResp = MintResp(userAddress: string, nftAddress: string, advertise: string)

  /** The request the claim handlers pass to the mint service. */
  datatype MintReq = MintReq(userId: string, channelId: string)

  datatype EasyMintMetaDto = EasyMintMetaDto(
    chain: string, name: string, description: string, fileUrl: string, mintToAddress: string)

  /** The fields of the custom-mint request that the service reads. */
  datatype CustomMintDto = CustomMintDto(mintToAddress: string, contractAddress: string)

  datatype ContractDeployDto = ContractDeployDto(
    chain: string, name: string, symbol: string, ownerAddress: string, contractType: string, baseUri: string)

  datatype Metadata = Metadata(name: string, description: string, image: string)

  /** The configuration strings the service reads. */
  datatype Config = Config(
    advertise: string, easyMintPrefix: string, customMintPrefix: string, deployType: string)

  /** A JSON value as decoded into Go's `map[string]interface{}`. */
  datatype Json = JNull | JString(s: string) | JNumber(n: int) | JBool(b: bool) | JCompound

  /** A decoded reply body: the typed record it unmarshals into and the same
      body as a generic map from field name to value. */
  datatype Reply<T> = Reply(decoded: T, fields: map<string, Json>)
}
