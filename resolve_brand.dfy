/** resolveBrandId of src/lib/resolve-brand.ts. */
module ResolveBrand {
  import opened Wrappers
  import opened Js
  import opened Failures
  import opened Config

  /** A non-empty --brand flag, else the default brand; when neither is
      non-empty the command fails before any request. */
  function ResolveBrandId(flag: Option<string>, env: Env, file: ConfigFile): (r: Result<string, Failure>)
    ensures r.Success? ==> r.value != ""
    ensures Present(flag) ==> r == Success(flag.value)
    ensures !Present(flag) && Present(env.brandId) ==> r == Success(env.brandId.value)
    ensures !Present(flag) && !Present(env.brandId) && Present(Load(file).defaultBrandId) ==>
      r == Success(Load(file).defaultBrandId.value)
    ensures r.Failure? <==> !Present(flag) && !Present(env.brandId) && !Present(Load(file).defaultBrandId)
    ensures r.Failure? ==> r.error == MissingBrand
  {
    var brandId := if Present(flag) then flag else GetDefaultBrandId(env, file);
    if Present(brandId) then Success(brandId.value) else Failure(MissingBrand)
  }

  /** An empty --brand flag is falsy and counts as no flag at all. */
  lemma EmptyFlagFallsThrough(env: Env, file: ConfigFile)
    ensures ResolveBrandId(Some(""), env, file) == ResolveBrandId(None, env, file)
  {
  }
}
