/** The post (content item) commands of src/commands/post.ts: the sparse
    request body of create and update, the resource paths, and the
    "more results" hint of list. */
module Post {
  import opened Wrappers
  import opened Js
  import opened Failures
  import opened Config
  import opened ResolveBrand
  import opened Client
  import opened Session

  datatype Platform = Instagram | TikTok | Facebook | YouTube | LinkedIn

  /** The flags of create and update. --labels is variadic: when given it
      is a list, which JavaScript always treats as truthy. */
  datatype PostFlags = PostFlags(
    name: Option<string>,
    labels: Option<seq<string>>,
    instagram: Option<string>,
    tiktok: Option<string>,
    facebook: Option<string>,
    youtube: Option<string>,
    linkedin: Option<string>)

  function PlatformFlag(flags: PostFlags, p: Platform): Option<string> {
    match p
    case Instagram => flags.instagram
    case TikTok => flags.tiktok
    case Facebook => flags.facebook
    case YouTube => flags.youtube
    case LinkedIn => flags.linkedin
  }

  function FlagName(p: Platform): string {
    match p
    case Instagram => "instagram"
    case TikTok => "tiktok"
    case Facebook => "facebook"
    case YouTube => "youtube"
    case LinkedIn => "linkedin"
  }

  /** The body key a platform's settings go under. */
  function SettingsKey(p: Platform): string {
    match p
    case Instagram => "instagram_settings"
    case TikTok => "tiktok_settings"
    case Facebook => "facebook_settings"
    case YouTube => "youtube_settings"
    case LinkedIn => "linkedin_settings"
  }

  /** The order the source assigns the platform keys in. */
  function Rank(p: Platform): nat {
    match p
    case Instagram => 0
    case TikTok => 1
    case Facebook => 2
    case YouTube => 3
    case LinkedIn => 4
  }

  function StringArray(ss: seq<string>): Value {
    Arr(seq(|ss|, i requires 0 <= i < |ss| => Str(ss[i])))
  }

  /** A platform flag that is given but is not JSON. */
  predicate Unparseable(flags: PostFlags, parse: Parser, p: Platform) {
    Present(PlatformFlag(flags, p)) && parse(PlatformFlag(flags, p).value).None?
  }

  // ---------------------------------------------------------------------
  // Reference definition: the body as a concatenation of one optional
  // entry per flag, in the source's order.

  function NameEntry(flags: PostFlags): Fields {
    if Present(flags.name) then [("name", Str(flags.name.value))] else []
  }

  function LabelEntry(flags: PostFlags): Fields {
    if flags.labels.Some? then [("label_ids", StringArray(flags.labels.value))] else []
  }

  function SettingsEntry(flags: PostFlags, parse: Parser, p: Platform): Result<Fields, Failure> {
    var flag := PlatformFlag(flags, p);
    if !Present(flag) then Success([])
    else if parse(flag.value).None? then Failure(InvalidJson(FlagName(p)))
    else Success([(SettingsKey(p), parse(flag.value).value)])
  }

  /** One more platform's entry appended, in order: the first failure stays. */
  function Extend(acc: Result<Fields, Failure>, flags: PostFlags, parse: Parser, p: Platform): Result<Fields, Failure> {
    var fields :- acc;
    var entry :- SettingsEntry(flags, parse, p);
    Success(fields + entry)
  }

  /** The platforms in the order the source assigns their keys. */
  const Platforms: seq<Platform> := [Instagram, TikTok, Facebook, YouTube, LinkedIn]

  /** The name and label entries, then the settings of ps in order. */
  function Stage(flags: PostFlags, parse: Parser, ps: seq<Platform>): Result<Fields, Failure>
    decreases |ps|
  {
    if ps == [] then Success(NameEntry(flags) + LabelEntry(flags))
    else Extend(Stage(flags, parse, ps[..|ps| - 1]), flags, parse, ps[|ps| - 1])
  }

  function SparseBody(flags: PostFlags, parse: Parser): Result<Fields, Failure> {
    Stage(flags, parse, Platforms)
  }

  function BaseKeys(flags: PostFlags): set<string> {
    (if Present(flags.name) then {"name"} else {}) + (if flags.labels.Some? then {"label_ids"} else {})
  }

  /** The settings keys of the truthy platform flags among ps. */
  function GivenKeys(flags: PostFlags, ps: seq<Platform>): set<string> {
    set p | p in ps && Present(PlatformFlag(flags, p)) :: SettingsKey(p)
  }

  /** The keys a body has: one per truthy flag and no other. */
  function BodyKeys(flags: PostFlags): set<string> {
    BaseKeys(flags) + GivenKeys(flags, Platforms)
  }

  // ---------------------------------------------------------------------
  // The body as the source builds it

  /** A given platform flag is parsed as JSON and stored under that
      platform's settings key; an absent or empty flag leaves the body alone. */
  method AssignSettings(body: Fields, flags: PostFlags, parse: Parser, p: Platform) returns (r: Result<Fields, Failure>)
    ensures r.Failure? <==> Unparseable(flags, parse, p)
    ensures SettingsKey(p) !in Keys(body) ==> r == Extend(Success(body), flags, parse, p)
  {
    var flag := PlatformFlag(flags, p);
    if !Present(flag) {
      assert body + [] == body;
      return Success(body);
    }
    var settings := parse(flag.value);
    if settings.None? {
      return Failure(InvalidJson(FlagName(p)));
    }
    if SettingsKey(p) !in Keys(body) {
      AssignFresh(body, SettingsKey(p), settings.value);
    }
    r := Success(Assign(body, SettingsKey(p), settings.value));
  }

  /** The name, when given and non-empty, then the label list, when given,
      under label_ids. */
  method BaseBody(flags: PostFlags) returns (body: Fields)
    ensures body == NameEntry(flags) + LabelEntry(flags)
    ensures Keys(body) <= {"name", "label_ids"}
  {
    body := [];
    if Present(flags.name) {
      body := Assign(body, "name", Str(flags.name.value));
    }
    if flags.labels.Some? {
      AssignFresh(body, "label_ids", StringArray(flags.labels.value));
      body := Assign(body, "label_ids", StringArray(flags.labels.value));
    }
  }

  /** The body of create and update, built one conditional assignment at a
      time; it is the reference concatenation. */
  method BuildBody(flags: PostFlags, parse: Parser) returns (r: Result<Fields, Failure>)
    ensures r == SparseBody(flags, parse)
  {
    var body := BaseBody(flags);
    assert body == Stage(flags, parse, Platforms[..0]).value;
    StageStep(flags, parse, 0);
    r := AssignSettings(body, flags, parse, Instagram);
    if r.Failure? {
      FailureSticks(flags, parse, Platforms, 1);
      return;
    }
    body := r.value;
    StageStep(flags, parse, 1);
    r := AssignSettings(body, flags, parse, TikTok);
    if r.Failure? {
      FailureSticks(flags, parse, Platforms, 2);
      return;
    }
    body := r.value;
    StageStep(flags, parse, 2);
    r := AssignSettings(body, flags, parse, Facebook);
    if r.Failure? {
      FailureSticks(flags, parse, Platforms, 3);
      return;
    }
    body := r.value;
    StageStep(flags, parse, 3);
    r := AssignSettings(body, flags, parse, YouTube);
    if r.Failure? {
      FailureSticks(flags, parse, Platforms, 4);
      return;
    }
    body := r.value;
    StageStep(flags, parse, 4);
    r := AssignSettings(body, flags, parse, LinkedIn);
    assert Platforms[..5] == Platforms;
  }

  /** One more platform of Platforms: its key is not yet in the body. */
  lemma StageStep(flags: PostFlags, parse: Parser, k: nat)
    requires k < |Platforms|
    ensures Stage(flags, parse, Platforms[..k + 1]) == Extend(Stage(flags, parse, Platforms[..k]), flags, parse, Platforms[k])
    ensures Stage(flags, parse, Platforms[..k]).Success? ==>
      SettingsKey(Platforms[k]) !in Keys(Stage(flags, parse, Platforms[..k]).value)
  {
    assert Platforms[..k + 1][..k] == Platforms[..k];
    PlatformsRanked();
    var done := Platforms[..k];
    assert Distinct(done);
    StageShape(flags, parse, done);
    forall q | q in done
      ensures SettingsKey(q) != SettingsKey(Platforms[k])
    {
      SettingsKeyFacts(q, Platforms[k]);
    }
    SettingsKeyFacts(Platforms[k], Platforms[k]);
  }

  /** Once a prefix fails, the whole body fails the same way. */
  lemma {:induction false} FailureSticks(flags: PostFlags, parse: Parser, ps: seq<Platform>, n: nat)
    requires n <= |ps| && Stage(flags, parse, ps[..n]).Failure?
    ensures Stage(flags, parse, ps) == Stage(flags, parse, ps[..n])
    decreases |ps|
  {
    if n < |ps| {
      var init := ps[..|ps| - 1];
      assert init[..n] == ps[..n];
      FailureSticks(flags, parse, init, n);
    } else {
      assert ps[..n] == ps;
    }
  }

  // ---------------------------------------------------------------------
  // What the body is

  lemma ExtendFacts(acc: Result<Fields, Failure>, flags: PostFlags, parse: Parser, p: Platform)
    requires acc.Success?
    ensures Extend(acc, flags, parse, p).Success? <==> !Unparseable(flags, parse, p)
    ensures Extend(acc, flags, parse, p).Failure? ==> Extend(acc, flags, parse, p).error == InvalidJson(FlagName(p))
    ensures Extend(acc, flags, parse, p).Success? ==>
      var next := Extend(acc, flags, parse, p).value;
      && Keys(next) == Keys(acc.value) + (if Present(PlatformFlag(flags, p)) then {SettingsKey(p)} else {})
      && (UniqueKeys(acc.value) && SettingsKey(p) !in Keys(acc.value) ==> UniqueKeys(next))
      && (forall x :: x in acc.value ==> x in next)
      && (Present(PlatformFlag(flags, p)) ==> (SettingsKey(p), parse(PlatformFlag(flags, p).value).value) in next)
  {
    var entry := SettingsEntry(flags, parse, p);
    if entry.Success? {
      KeysAppend(acc.value, entry.value);
      if UniqueKeys(acc.value) && SettingsKey(p) !in Keys(acc.value) {
        UniqueAppend(acc.value, entry.value);
      }
    }
  }


  predicate Distinct(ps: seq<Platform>) {
    forall i, j :: 0 <= i < j < |ps| ==> ps[i] != ps[j]
  }

  lemma SettingsKeyFacts(p: Platform, q: Platform)
    ensures SettingsKey(p) == SettingsKey(q) ==> p == q
    ensures SettingsKey(p) !in {"name", "label_ids"}
  {
  }

  /** Platforms lists every platform once, at its rank. */
  lemma PlatformsRanked()
    ensures |Platforms| == 5
    ensures forall i :: 0 <= i < 5 ==> Rank(Platforms[i]) == i
    ensures forall p :: Platforms[Rank(p)] == p
    ensures Distinct(Platforms)
  {
  }

  /** body has the keys of the base flags and of the truthy flags among ps,
      each once, and holds each of those flags' values. */
  predicate Shaped(flags: PostFlags, parse: Parser, ps: seq<Platform>, body: Fields) {
    KeysShaped(flags, ps, body) && Holds(flags, parse, ps, body)
  }

  predicate KeysShaped(flags: PostFlags, ps: seq<Platform>, body: Fields) {
    Keys(body) == BaseKeys(flags) + GivenKeys(flags, ps) && UniqueKeys(body)
  }

  predicate Holds(flags: PostFlags, parse: Parser, ps: seq<Platform>, body: Fields) {
    && (Present(flags.name) ==> ("name", Str(flags.name.value)) in body)
    && (flags.labels.Some? ==> ("label_ids", StringArray(flags.labels.value)) in body)
    && (forall p :: p in ps && Present(PlatformFlag(flags, p)) ==>
          parse(PlatformFlag(flags, p).value).Some? &&
          (SettingsKey(p), parse(PlatformFlag(flags, p).value).value) in body)
  }

  lemma GivenKeysSnoc(flags: PostFlags, init: seq<Platform>, last: Platform)
    ensures GivenKeys(flags, init + [last]) ==
      GivenKeys(flags, init) + (if Present(PlatformFlag(flags, last)) then {SettingsKey(last)} else {})
  {
    assert forall p :: p in init + [last] <==> p in init || p == last;
  }

  lemma ShapedBase(flags: PostFlags, parse: Parser)
    ensures Shaped(flags, parse, [], NameEntry(flags) + LabelEntry(flags))
  {
    KeysAppend(NameEntry(flags), LabelEntry(flags));
    assert GivenKeys(flags, []) == {};
    var base := NameEntry(flags) + LabelEntry(flags);
    var labels := LabelEntry(flags);
    if flags.labels.Some? {
      assert labels[1..] == [];
      assert Keys(labels) == {"label_ids"};
    } else {
      assert labels == [];
    }
    assert UniqueKeys(labels);
    if Present(flags.name) {
      assert base[1..] == labels;
    } else {
      assert base == labels;
    }
  }

  lemma ShapedExtend(flags: PostFlags, parse: Parser, init: seq<Platform>, last: Platform, before: Fields)
    requires Shaped(flags, parse, init, before)
    requires last !in init
    requires Extend(Success(before), flags, parse, last).Success?
    ensures Shaped(flags, parse, init + [last], Extend(Success(before), flags, parse, last).value)
  {
    var entry := SettingsEntry(flags, parse, last).value;
    assert Extend(Success(before), flags, parse, last).value == before + entry;
    KeysExtend(flags, init, last, before, entry);
    HoldsExtend(flags, parse, init, last, before, entry);
  }

  lemma KeysExtend(flags: PostFlags, init: seq<Platform>, last: Platform, before: Fields, entry: Fields)
    requires KeysShaped(flags, init, before)
    requires last !in init
    requires entry == [] || entry == [(SettingsKey(last), entry[0].1)]
    requires entry != [] <==> Present(PlatformFlag(flags, last))
    ensures KeysShaped(flags, init + [last], before + entry)
  {
    KeysAppend(before, entry);
    GivenKeysSnoc(flags, init, last);
    forall q | q in init
      ensures SettingsKey(q) != SettingsKey(last)
    {
      SettingsKeyFacts(q, last);
    }
    SettingsKeyFacts(last, last);
    UniqueAppend(before, entry);
  }

  lemma HoldsExtend(flags: PostFlags, parse: Parser, init: seq<Platform>, last: Platform, before: Fields, entry: Fields)
    requires Holds(flags, parse, init, before)
    requires Present(PlatformFlag(flags, last)) ==>
      parse(PlatformFlag(flags, last).value).Some? &&
      entry == [(SettingsKey(last), parse(PlatformFlag(flags, last).value).value)]
    ensures Holds(flags, parse, init + [last], before + entry)
  {
    forall p | p in init + [last] && Present(PlatformFlag(flags, p))
      ensures parse(PlatformFlag(flags, p).value).Some? &&
              (SettingsKey(p), parse(PlatformFlag(flags, p).value).value) in before + entry
    {
      if p != last {
        assert p in init;
      }
    }
  }

  lemma {:induction false} StageShape(flags: PostFlags, parse: Parser, ps: seq<Platform>)
    requires Distinct(ps)
    ensures Stage(flags, parse, ps).Success? ==> Shaped(flags, parse, ps, Stage(flags, parse, ps).value)
    decreases |ps|
  {
    if ps == [] {
      ShapedBase(flags, parse);
    } else {
      var init, last := ps[..|ps| - 1], ps[|ps| - 1];
      assert ps == init + [last];
      assert Distinct(init);
      StageShape(flags, parse, init);
      var before := Stage(flags, parse, init);
      if before.Success? && Stage(flags, parse, ps).Success? {
        ShapedExtend(flags, parse, init, last, before.value);
      }
    }
  }

  /** A body that is built has exactly the keys of the truthy flags, each
      once, and holds each flag's value under its key. */
  lemma SparseBodyShape(flags: PostFlags, parse: Parser)
    ensures SparseBody(flags, parse).Success? ==>
      var body := SparseBody(flags, parse).value;
      && Keys(body) == BodyKeys(flags)
      && UniqueKeys(body)
      && (Present(flags.name) ==> ("name", Str(flags.name.value)) in body)
      && (flags.labels.Some? ==> ("label_ids", StringArray(flags.labels.value)) in body)
      && (forall p :: Present(PlatformFlag(flags, p)) ==>
            parse(PlatformFlag(flags, p).value).Some? &&
            (SettingsKey(p), parse(PlatformFlag(flags, p).value).value) in body)
  {
    PlatformsRanked();
    StageShape(flags, parse, Platforms);
    assert SparseBody(flags, parse).Success? ==> Shaped(flags, parse, Platforms, SparseBody(flags, parse).value);
    forall p
      ensures p in Platforms
    {
      assert Platforms[Rank(p)] == p;
    }
  }

  /** The name is in the body iff --name is truthy, and holds it. */
  lemma SparseBodyName(flags: PostFlags, parse: Parser)
    ensures SparseBody(flags, parse).Success? ==>
      Lookup(SparseBody(flags, parse).value, "name") ==
        if Present(flags.name) then Some(Str(flags.name.value)) else None
  {
    SparseBodyShape(flags, parse);
    if SparseBody(flags, parse).Success? && Present(flags.name) {
      LookupEntry(SparseBody(flags, parse).value, "name", Str(flags.name.value));
    }
  }

  /** label_ids is in the body iff --labels is given, and holds the list. */
  lemma SparseBodyLabels(flags: PostFlags, parse: Parser)
    ensures SparseBody(flags, parse).Success? ==>
      Lookup(SparseBody(flags, parse).value, "label_ids") ==
        if flags.labels.Some? then Some(StringArray(flags.labels.value)) else None
  {
    SparseBodyShape(flags, parse);
    if SparseBody(flags, parse).Success? && flags.labels.Some? {
      LookupEntry(SparseBody(flags, parse).value, "label_ids", StringArray(flags.labels.value));
    }
  }

  /** A platform's settings key is in the body iff its flag is truthy, and
      then holds the parsed flag. */
  lemma SparseBodySettings(flags: PostFlags, parse: Parser, p: Platform)
    ensures SparseBody(flags, parse).Success? ==>
      Lookup(SparseBody(flags, parse).value, SettingsKey(p)) ==
        if Present(PlatformFlag(flags, p)) then parse(PlatformFlag(flags, p).value) else None
  {
    SparseBodyShape(flags, parse);
    if SparseBody(flags, parse).Success? {
      var body := SparseBody(flags, parse).value;
      SettingsKeyFacts(p, p);
      if Present(PlatformFlag(flags, p)) {
        LookupEntry(body, SettingsKey(p), parse(PlatformFlag(flags, p).value).value);
      } else {
        forall q | q in Platforms && Present(PlatformFlag(flags, q))
          ensures SettingsKey(q) != SettingsKey(p)
        {
          SettingsKeyFacts(q, p);
        }
        assert SettingsKey(p) !in GivenKeys(flags, Platforms);
      }
    }
  }

  lemma {:induction false} StageFailure(flags: PostFlags, parse: Parser, ps: seq<Platform>)
    ensures Stage(flags, parse, ps).Failure? <==> exists i :: 0 <= i < |ps| && Unparseable(flags, parse, ps[i])
    ensures Stage(flags, parse, ps).Failure? ==>
      exists i :: && 0 <= i < |ps| && Unparseable(flags, parse, ps[i])
                  && Stage(flags, parse, ps).error == InvalidJson(FlagName(ps[i]))
                  && forall j :: 0 <= j < i ==> !Unparseable(flags, parse, ps[j])
    decreases |ps|
  {
    if ps != [] {
      var init, last := ps[..|ps| - 1], ps[|ps| - 1];
      StageFailure(flags, parse, init);
      var before := Stage(flags, parse, init);
      assert forall j :: 0 <= j < |ps| - 1 ==> ps[j] == init[j];
      if before.Success? {
        ExtendFacts(before, flags, parse, last);
      } else {
        var i :| && 0 <= i < |init| && Unparseable(flags, parse, init[i])
                 && before.error == InvalidJson(FlagName(init[i]))
                 && forall j :: 0 <= j < i ==> !Unparseable(flags, parse, init[j]);
        assert ps[i] == init[i];
      }
    }
  }

  /** The body fails iff some truthy platform flag is not JSON, and it names
      the first such flag in the source's order. */
  lemma SparseBodyFailure(flags: PostFlags, parse: Parser)
    ensures SparseBody(flags, parse).Failure? <==> exists p :: Unparseable(flags, parse, p)
    ensures SparseBody(flags, parse).Failure? ==>
      exists p :: && Unparseable(flags, parse, p)
                  && SparseBody(flags, parse).error == InvalidJson(FlagName(p))
                  && forall q :: Rank(q) < Rank(p) ==> !Unparseable(flags, parse, q)
  {
    PlatformsRanked();
    StageFailure(flags, parse, Platforms);
    if exists p :: Unparseable(flags, parse, p) {
      var p :| Unparseable(flags, parse, p);
      assert Platforms[Rank(p)] == p;
    }
    if SparseBody(flags, parse).Failure? {
      var i :| && 0 <= i < 5 && Unparseable(flags, parse, Platforms[i])
               && SparseBody(flags, parse).error == InvalidJson(FlagName(Platforms[i]))
               && forall j :: 0 <= j < i ==> !Unparseable(flags, parse, Platforms[j]);
      forall q | Rank(q) < Rank(Platforms[i])
        ensures !Unparseable(flags, parse, q)
      {
        assert Platforms[Rank(q)] == q;
      }
    }
  }

  lemma OneKey(fs: Fields, k: string)
    requires Keys(fs) == {k} && UniqueKeys(fs)
    ensures |fs| == 1 && fs[0].0 == k
  {
  }

  /** update with only --name sends {name} and nothing else. */
  lemma NameOnlyBody(name: string, parse: Parser)
    requires name != ""
    ensures SparseBody(PostFlags(Some(name), None, None, None, None, None, None), parse) == Success([("name", Str(name))])
  {
    var flags := PostFlags(Some(name), None, None, None, None, None, None);
    SparseBodyShape(flags, parse);
    SparseBodyFailure(flags, parse);
    var body := SparseBody(flags, parse).value;
    assert GivenKeys(flags, Platforms) == {};
    OneKey(body, "name");
    assert body[0] == ("name", Str(name));
    assert body == [body[0]];
  }

  /** An empty --name is falsy, so the body carries no name. */
  lemma EmptyNameOmitted(flags: PostFlags, parse: Parser)
    requires flags.name == Some("")
    ensures SparseBody(flags, parse).Success? ==> "name" !in Keys(SparseBody(flags, parse).value)
  {
    SparseBodyShape(flags, parse);
    forall p
      ensures SettingsKey(p) != "name"
    {
      SettingsKeyFacts(p, p);
    }
  }

  // ---------------------------------------------------------------------
  // Commands

  function ItemsPath(brandId: string): string {
    "/brands/" + brandId + "/content-items"
  }

  /** post create: brand and key first, then the body, then the POST. */
  method CreatePost(inv: Invocation, flags: PostFlags, parse: Parser) returns (r: Result<HttpRequest, Failure>)
    ensures !Scoped(inv) ==> r.Failure? && r.error in {MissingBrand, MissingApiKey}
    ensures Scoped(inv) ==> (r.Failure? <==> SparseBody(flags, parse).Failure?)
    ensures Scoped(inv) && r.Failure? ==> r.error == SparseBody(flags, parse).error
    ensures r.Success? ==>
      && Scoped(inv)
      && r.value.verb == POST
      && r.value.url == Endpoint(inv.env, inv.file) + ItemsPath(BrandOf(inv))
      && r.value.body == Some(SparseBody(flags, parse).value)
  {
    var scope :- OpenScope(inv);
    var body :- BuildBody(flags, parse);
    var req := scope.client.Post(ItemsPath(scope.brandId), body);
    r := Success(req);
  }

  /** post update: the same body as create, PATCHed to the item. */
  method UpdatePost(inv: Invocation, itemId: string, flags: PostFlags, parse: Parser) returns (r: Result<HttpRequest, Failure>)
    ensures !Scoped(inv) ==> r.Failure? && r.error in {MissingBrand, MissingApiKey}
    ensures Scoped(inv) ==> (r.Failure? <==> SparseBody(flags, parse).Failure?)
    ensures Scoped(inv) && r.Failure? ==> r.error == SparseBody(flags, parse).error
    ensures r.Success? ==>
      && Scoped(inv)
      && r.value.verb == PATCH
      && r.value.url == Endpoint(inv.env, inv.file) + ItemsPath(BrandOf(inv)) + "/" + itemId
      && r.value.body == Some(SparseBody(flags, parse).value)
  {
    var scope :- OpenScope(inv);
    var body :- BuildBody(flags, parse);
    var req := scope.client.Patch(ItemsPath(scope.brandId) + "/" + itemId, body);
    r := Success(req);
  }

  /** post delete. */
  method DeletePost(inv: Invocation, itemId: string) returns (r: Result<HttpRequest, Failure>)
    ensures r.Failure? <==> !Scoped(inv)
    ensures r.Failure? ==> r.error in {MissingBrand, MissingApiKey}
    ensures r.Success? ==>
      && r.value.verb == DELETE && r.value.body == None
      && r.value.url == Endpoint(inv.env, inv.file) + ItemsPath(BrandOf(inv)) + "/" + itemId
  {
    var scope :- OpenScope(inv);
    var req := scope.client.Delete(ItemsPath(scope.brandId) + "/" + itemId);
    r := Success(req);
  }

  /** post get. */
  method GetPost(inv: Invocation, itemId: string) returns (r: Result<HttpRequest, Failure>)
    ensures r.Failure? <==> !Scoped(inv)
    ensures r.Failure? ==> r.error in {MissingBrand, MissingApiKey}
    ensures r.Success? ==>
      && r.value.verb == GET && r.value.body == None
      && r.value.url == Endpoint(inv.env, inv.file) + ItemsPath(BrandOf(inv)) + "/" + itemId
  {
    var scope :- OpenScope(inv);
    var req := scope.client.Get(ItemsPath(scope.brandId) + "/" + itemId);
    r := Success(req);
  }

  /** post list: page and limit go through to list() unchanged. */
  method ListPosts(inv: Invocation, page: Option<int>, limit: Option<int>) returns (r: Result<HttpRequest, Failure>)
    ensures r.Failure? <==> !Scoped(inv)
    ensures r.Failure? ==> r.error in {MissingBrand, MissingApiKey}
    ensures r.Success? ==>
      && r.value.verb == GET && r.value.body == None
      && r.value.url == Endpoint(inv.env, inv.file) + ItemsPath(BrandOf(inv)) + QueryString(page, limit)
  {
    var scope :- OpenScope(inv);
    var req := scope.client.List(ItemsPath(scope.brandId), page, limit);
    r := Success(req);
  }

  /** JavaScript's page + 1 as the template literal shows it: numeric for
      numbers, booleans and null, concatenation for strings, arrays and
      objects, NaN for undefined. */
  function NextPage(page: Value): (r: string)
    ensures page.Num? ==> r == IntToString(page.n + 1)
    ensures page.Str? || page.Arr? || page.Obj? ==> r == JsString(page) + "1"
    ensures page.Bool? || page.Null? ==> r in {"1", "2"}
    ensures page.Undefined? ==> r == "NaN"
  {
    match page
    case Num(n) => IntToString(n + 1)
    case Bool(b) => if b then "2" else "1"
    case Null => "1"
    case Undefined => "NaN"
    case Str(s) => s + "1"
    case Arr(_) | Obj(_) => JsString(page) + "1"
  }

  /** The line list prints after the table: only outside JSON mode and only
      when the response's pagination.has_more is truthy. */
  function MoreResultsHint(json: bool, response: Value): (hint: Option<string>)
    ensures hint.Some? <==> !json && Truthy(Member(Member(response, "pagination"), "has_more"))
  {
    var pagination := Member(response, "pagination");
    if !json && Truthy(Member(pagination, "has_more")) then
      var page := Member(pagination, "page");
      Some("\nPage " + JsString(page) + " \U{2014} more results available (--page " + NextPage(page) + ")")
    else None
  }

  /** On a numeric page n the hint names page n and points to page n + 1. */
  lemma HintNamesNextPage(json: bool, response: Value, n: int)
    requires !json
    requires Member(Member(response, "pagination"), "page") == Num(n)
    requires Truthy(Member(Member(response, "pagination"), "has_more"))
    ensures MoreResultsHint(json, response) ==
      Some("\nPage " + IntToString(n) + " \U{2014} more results available (--page " + IntToString(n + 1) + ")")
  {
  }
}
