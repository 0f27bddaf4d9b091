/** Credential projection: `get_api_config` of create-cp-input.py.
    A service block gives exactly its `api_key` and `api_secret`; there is
    no fallback to any other block. */
module Credentials {
  import opened Wrappers
  import opened Documents

  const ApiKey: string := "api_key"
  const ApiSecret: string := "api_secret"

  /** `get_api_config`: a fresh map with exactly the two credential keys,
      copied from the block; a missing key is a lookup failure, `api_key`
      being looked up first. */
  function GetApiConfig(block: ServiceBlock): (r: Result<map<string, string>, Error>)
    ensures r.Ok? <==> ApiKey in block && ApiSecret in block
    ensures r.Err? ==> r.error == MissingKey(if ApiKey !in block then ApiKey else ApiSecret)
    ensures r.Ok? ==> && r.value.Keys == {ApiKey, ApiSecret}
                      && r.value[ApiKey] == block[ApiKey]
                      && r.value[ApiSecret] == block[ApiSecret]
  {
    if ApiKey !in block then Err(MissingKey(ApiKey))
    else if ApiSecret !in block then Err(MissingKey(ApiSecret))
    else Ok(map[ApiKey := block[ApiKey], ApiSecret := block[ApiSecret]])
  }

  /** A block that holds just the two credentials comes back unchanged. */
  lemma CompleteBlockIsReturnedUnchanged(block: ServiceBlock)
    requires block.Keys == {ApiKey, ApiSecret}
    ensures GetApiConfig(block) == Ok(block)
  {
    assert ApiKey in block.Keys && ApiSecret in block.Keys;
    var r := GetApiConfig(block).value;
    assert forall k :: k in r ==> r[k] == block[k];
    assert r == block;
  }

  /** Projecting a projection changes nothing. */
  lemma ProjectionIsIdempotent(block: ServiceBlock)
    requires GetApiConfig(block).Ok?
    ensures GetApiConfig(GetApiConfig(block).value) == GetApiConfig(block)
  {
    CompleteBlockIsReturnedUnchanged(GetApiConfig(block).value);
  }

  /** Only the two credential keys of the block matter: blocks that agree on
      them (presence and value) project to the same result. */
  lemma OnlyCredentialKeysMatter(a: ServiceBlock, b: ServiceBlock)
    requires ApiKey in a <==> ApiKey in b
    requires ApiSecret in a <==> ApiSecret in b
    requires ApiKey in a ==> a[ApiKey] == b[ApiKey]
    requires ApiSecret in a ==> a[ApiSecret] == b[ApiSecret]
    ensures GetApiConfig(a) == GetApiConfig(b)
  {
  }
}
