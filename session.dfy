/** The start of every command action: resolveBrandId (for brand-scoped
    commands), then new WahluClient(getApiKey(), getApiUrl()). */
module Session {
  import opened Wrappers
  import opened Js
  import opened Failures
  import opened Config
  import opened ResolveBrand
  import opened Client

  /** What one invocation sees: the global --brand flag, the environment and
      the config file. */
  datatype Invocation = Invocation(brandFlag: Option<string>, env: Env, file: ConfigFile)

  /** A resolved brand and the client a brand-scoped command uses. */
  datatype Scope = Scope(brandId: string, client: WahluClient)

  /** Both the brand and the API key resolve, so a brand-scoped command
      reaches its request. */
  predicate Scoped(inv: Invocation) {
    ResolveBrandId(inv.brandFlag, inv.env, inv.file).Success? && GetApiKey(inv.env, inv.file).Success?
  }

  function BrandOf(inv: Invocation): string
    requires ResolveBrandId(inv.brandFlag, inv.env, inv.file).Success?
  {
    ResolveBrandId(inv.brandFlag, inv.env, inv.file).value
  }

  /** The prefix of every request URL for this environment and file. */
  function Endpoint(env: Env, file: ConfigFile): string {
    TrimTrailingSlash(GetApiUrl(env, file)) + ApiVersion
  }

  /** A client built from the resolved API key and API URL; no key is a failure. */
  method OpenClient(env: Env, file: ConfigFile) returns (r: Result<WahluClient, Failure>)
    ensures r.Failure? <==> GetApiKey(env, file).Failure?
    ensures r.Failure? ==> r.error == MissingApiKey
    ensures r.Success? ==> r.value.apiKey == GetApiKey(env, file).value
    ensures r.Success? ==> r.value.baseUrl + ApiVersion == Endpoint(env, file)
  {
    var key := GetApiKey(env, file);
    if key.Failure? {
      return Failure(key.error);
    }
    var client := new WahluClient(key.value, GetApiUrl(env, file));
    r := Success(client);
  }

  /** resolveBrandId first, then the client: a missing brand is reported even
      when the API key is missing too. */
  method OpenScope(inv: Invocation) returns (r: Result<Scope, Failure>)
    ensures r.Failure? <==>
      ResolveBrandId(inv.brandFlag, inv.env, inv.file).Failure? || GetApiKey(inv.env, inv.file).Failure?
    ensures ResolveBrandId(inv.brandFlag, inv.env, inv.file).Failure? ==> r == Failure(MissingBrand)
    ensures r.Failure? && ResolveBrandId(inv.brandFlag, inv.env, inv.file).Success? ==> r.error == MissingApiKey
    ensures r.Success? ==>
      && r.value.brandId == ResolveBrandId(inv.brandFlag, inv.env, inv.file).value
      && r.value.client.apiKey == GetApiKey(inv.env, inv.file).value
      && r.value.client.baseUrl + ApiVersion == Endpoint(inv.env, inv.file)
  {
    var brand := ResolveBrandId(inv.brandFlag, inv.env, inv.file);
    if brand.Failure? {
      return Failure(brand.error);
    }
    var client :- OpenClient(inv.env, inv.file);
    r := Success(Scope(brand.value, client));
  }
}
