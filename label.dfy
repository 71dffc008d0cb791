/** The label commands of src/commands/label.ts. */
module Label {
  import opened Wrappers
  import opened Js
  import opened Failures
  import opened Client
  import opened Session

  function LabelsPath(brandId: string): string {
    "/brands/" + brandId + "/labels"
  }

  /** label create: the body starts as {name} and gains color only when
      --color is truthy. */
  method CreateLabel(inv: Invocation, name: string, color: Option<string>) returns (r: Result<HttpRequest, Failure>)
    ensures r.Failure? <==> !Scoped(inv)
    ensures r.Failure? ==> r.error in {MissingBrand, MissingApiKey}
    ensures r.Success? ==>
      && r.value.verb == POST
      && r.value.url == Endpoint(inv.env, inv.file) + LabelsPath(BrandOf(inv))
      && r.value.body.Some?
    ensures r.Success? ==>
      var body := r.value.body.value;
      && Keys(body) == {"name"} + (if Present(color) then {"color"} else {})
      && UniqueKeys(body)
      && Lookup(body, "name") == Some(Str(name))
      && Lookup(body, "color") == (if Present(color) then Some(Str(color.value)) else None)
  {
    var scope :- OpenScope(inv);
    var body: Fields := [("name", Str(name))];
    if Present(color) {
      body := Assign(body, "color", Str(color.value));
    }
    var req := scope.client.Post(LabelsPath(scope.brandId), body);
    r := Success(req);
  }

  /** label list: a plain GET of every label, with no query string. */
  method ListLabels(inv: Invocation) returns (r: Result<HttpRequest, Failure>)
    ensures r.Failure? <==> !Scoped(inv)
    ensures r.Failure? ==> r.error in {MissingBrand, MissingApiKey}
    ensures r.Success? ==>
      && r.value.verb == GET && r.value.body == None
      && r.value.url == Endpoint(inv.env, inv.file) + LabelsPath(BrandOf(inv))
  {
    var scope :- OpenScope(inv);
    var req := scope.client.Get(LabelsPath(scope.brandId));
    r := Success(req);
  }

  /** label delete. */
  method DeleteLabel(inv: Invocation, labelId: string) returns (r: Result<HttpRequest, Failure>)
    ensures r.Failure? <==> !Scoped(inv)
    ensures r.Failure? ==> r.error in {MissingBrand, MissingApiKey}
    ensures r.Success? ==>
      && r.value.verb == DELETE && r.value.body == None
      && r.value.url == Endpoint(inv.env, inv.file) + LabelsPath(BrandOf(inv)) + "/" + labelId
  {
    var scope :- OpenScope(inv);
    var req := scope.client.Delete(LabelsPath(scope.brandId) + "/" + labelId);
    r := Success(req);
  }
}
