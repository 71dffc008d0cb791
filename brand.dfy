/** The brand commands of src/commands/brand.ts. */
module Brand {
  import opened Wrappers
  import opened Failures
  import opened Config
  import opened Client
  import opened Session

  const BrandsPath := "/brands"

  /** brand switch: default_brand_id becomes the argument, unchecked and
      without any request; the other fields are kept. */
  method Switch(store: ConfigStore, brandId: string)
    modifies store
    ensures var before := Load(old(store.file));
      store.file == Saved(Config(before.apiKey, before.apiUrl, Some(brandId)))
  {
    var config := store.Read();
    config := config.(defaultBrandId := Some(brandId));
    store.Write(config);
  }

  /** Switching twice to the same brand is the same as switching once. */
  method SwitchTwice(store: ConfigStore, brandId: string)
    modifies store
    ensures var before := Load(old(store.file));
      store.file == Saved(Config(before.apiKey, before.apiUrl, Some(brandId)))
  {
    Switch(store, brandId);
    Switch(store, brandId);
  }

  /** brand list: a plain GET of /brands, needing no brand. */
  method ListBrands(env: Env, file: ConfigFile) returns (r: Result<HttpRequest, Failure>)
    ensures r.Failure? <==> GetApiKey(env, file).Failure?
    ensures r.Success? ==> r.value.verb == GET && r.value.body == None
    ensures r.Success? ==> r.value.url == Endpoint(env, file) + "/brands"
  {
    var client :- OpenClient(env, file);
    var req := client.Get(BrandsPath);
    r := Success(req);
  }

  /** brand get: a GET of /brands/<id>, needing no brand. */
  method GetBrand(env: Env, file: ConfigFile, brandId: string) returns (r: Result<HttpRequest, Failure>)
    ensures r.Failure? <==> GetApiKey(env, file).Failure?
    ensures r.Success? ==> r.value.verb == GET && r.value.body == None
    ensures r.Success? ==> r.value.url == Endpoint(env, file) + "/brands/" + brandId
  {
    var client :- OpenClient(env, file);
    var req := client.Get(BrandsPath + "/" + brandId);
    r := Success(req);
  }
}
