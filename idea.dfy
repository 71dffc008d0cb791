/** The idea commands of src/commands/idea.ts. */
module Idea {
  import opened Wrappers
  import opened Js
  import opened Failures
  import opened Client
  import opened Session

  function IdeasPath(brandId: string): string {
    "/brands/" + brandId + "/ideas"
  }

  /** idea create: the body starts as {name}, gains description when
      --description is truthy and then type when --type is. */
  method CreateIdea(inv: Invocation, name: string, description: Option<string>, kind: Option<string>)
    returns (r: Result<HttpRequest, Failure>)
    ensures r.Failure? <==> !Scoped(inv)
    ensures r.Failure? ==> r.error in {MissingBrand, MissingApiKey}
    ensures r.Success? ==>
      && r.value.verb == POST
      && r.value.url == Endpoint(inv.env, inv.file) + IdeasPath(BrandOf(inv))
      && r.value.body.Some?
    ensures r.Success? ==>
      var body := r.value.body.value;
      && Keys(body) == {"name"} + (if Present(description) then {"description"} else {})
                                + (if Present(kind) then {"type"} else {})
      && UniqueKeys(body)
      && Lookup(body, "name") == Some(Str(name))
      && Lookup(body, "description") == (if Present(description) then Some(Str(description.value)) else None)
      && Lookup(body, "type") == (if Present(kind) then Some(Str(kind.value)) else None)
  {
    var scope :- OpenScope(inv);
    var body: Fields := [("name", Str(name))];
    if Present(description) {
      body := Assign(body, "description", Str(description.value));
    }
    if Present(kind) {
      body := Assign(body, "type", Str(kind.value));
    }
    var req := scope.client.Post(IdeasPath(scope.brandId), body);
    r := Success(req);
  }

  /** idea list: page and limit go through to list() unchanged. */
  method ListIdeas(inv: Invocation, page: Option<int>, limit: Option<int>) returns (r: Result<HttpRequest, Failure>)
    ensures r.Failure? <==> !Scoped(inv)
    ensures r.Failure? ==> r.error in {MissingBrand, MissingApiKey}
    ensures r.Success? ==>
      && r.value.verb == GET && r.value.body == None
      && r.value.url == Endpoint(inv.env, inv.file) + IdeasPath(BrandOf(inv)) + QueryString(page, limit)
  {
    var scope :- OpenScope(inv);
    var req := scope.client.List(IdeasPath(scope.brandId), page, limit);
    r := Success(req);
  }

  /** idea delete. */
  method DeleteIdea(inv: Invocation, ideaId: string) returns (r: Result<HttpRequest, Failure>)
    ensures r.Failure? <==> !Scoped(inv)
    ensures r.Failure? ==> r.error in {MissingBrand, MissingApiKey}
    ensures r.Success? ==>
      && r.value.verb == DELETE && r.value.body == None
      && r.value.url == Endpoint(inv.env, inv.file) + IdeasPath(BrandOf(inv)) + "/" + ideaId
  {
    var scope :- OpenScope(inv);
    var req := scope.client.Delete(IdeasPath(scope.brandId) + "/" + ideaId);
    r := Success(req);
  }
}
