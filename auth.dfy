/** The auth commands of src/commands/auth.ts: login, logout, status and the
    key mask. */
module Auth {
  import opened Wrappers
  import opened Js
  import opened Failures
  import opened Config

  const LivePrefix := "wahlu_live_"
  const TestPrefix := "wahlu_test_"

  predicate ValidKeyFormat(apiKey: string) {
    StartsWith(apiKey, LivePrefix) || StartsWith(apiKey, TestPrefix)
  }

  /** auth login: a key without a known prefix is refused and nothing is
      written; otherwise api_key is set and the other fields are kept. */
  method Login(store: ConfigStore, apiKey: string) returns (r: Outcome<Failure>)
    modifies store
    ensures !ValidKeyFormat(apiKey) ==> r == Fail(InvalidKeyFormat) && store.file == old(store.file)
    ensures ValidKeyFormat(apiKey) ==> r == Pass
    ensures ValidKeyFormat(apiKey) ==>
      var before := Load(old(store.file));
      store.file == Saved(Config(Some(apiKey), before.apiUrl, before.defaultBrandId))
  {
    if !StartsWith(apiKey, LivePrefix) && !StartsWith(apiKey, TestPrefix) {
      return Fail(InvalidKeyFormat);
    }
    var config := store.Read();
    config := config.(apiKey := Some(apiKey));
    store.Write(config);
    r := Pass;
  }

  /** auth logout: api_key is deleted and the other fields are kept. */
  method Logout(store: ConfigStore)
    modifies store
    ensures var before := Load(old(store.file));
      store.file == Saved(Config(None, before.apiUrl, before.defaultBrandId))
  {
    var config := store.Read();
    config := config.(apiKey := None);
    store.Write(config);
  }

  /** Logging out twice leaves the file as logging out once does. */
  method LogoutTwice(store: ConfigStore)
    modifies store
    ensures var before := Load(old(store.file));
      store.file == Saved(Config(None, before.apiUrl, before.defaultBrandId))
  {
    Logout(store);
    Logout(store);
  }

  /** mask: short keys are hidden entirely; longer ones show their first 12
      and last 4 characters around "...". */
  function Mask(key: string): (r: string)
    ensures |key| <= 16 ==> r == "***"
    ensures |key| > 16 ==> |r| == 19 && r[..12] == key[..12] && r[12..15] == "..." && r[15..] == key[|key| - 4..]
  {
    if |key| <= 16 then "***" else key[..12] + "..." + key[|key| - 4..]
  }

  /** The mask depends only on what it shows: every key of 16 characters or
      fewer gets the same mask, and two longer keys that agree on their first
      12 and last 4 characters get the same mask whatever lies between. */
  lemma MaskHidesMiddle(k1: string, k2: string)
    ensures |k1| <= 16 && |k2| <= 16 ==> Mask(k1) == Mask(k2)
    ensures |k1| > 16 && |k2| > 16 && k1[..12] == k2[..12] && k1[|k1| - 4..] == k2[|k2| - 4..] ==>
      Mask(k1) == Mask(k2)
  {
  }

  /** Where auth status says the key comes from. */
  datatype AuthSource = FromEnv(key: string) | FromFile(key: string) | Unauthenticated

  /** The source auth status reports: WAHLU_API_KEY whenever it is set, even
      over a saved key. It names exactly the key getApiKey would use, and is
      Unauthenticated exactly when getApiKey would exit. */
  function StatusSource(env: Env, file: ConfigFile): (r: AuthSource)
    ensures r.FromEnv? <==> Present(env.apiKey)
    ensures r.Unauthenticated? <==> GetApiKey(env, file).Failure?
    ensures !r.Unauthenticated? ==> r.key == GetApiKey(env, file).value
  {
    if Present(env.apiKey) then FromEnv(env.apiKey.value)
    else if Present(Load(file).apiKey) then FromFile(Load(file).apiKey.value)
    else Unauthenticated
  }

  /** The first line of auth status. Exactly the authenticated lines end
      with the masked key in parentheses; the other one ends with the login
      command's usage. */
  function SourceLine(source: AuthSource): (r: string)
    ensures r != "" && (!source.Unauthenticated? <==> r[|r| - 1] == ')')
    ensures source.FromEnv? ==> StartsWith(r, "Authenticated via WAHLU_API_KEY env var")
    ensures source.FromFile? ==> StartsWith(r, "Authenticated via config file")
    ensures !source.Unauthenticated? ==>
      |r| > |Mask(source.key)| + 1 && r[|r| - |Mask(source.key)| - 1..] == Mask(source.key) + ")"
  {
    match source
    case FromEnv(key) =>
      Parenthesised("Authenticated via WAHLU_API_KEY env var", Mask(key));
      "Authenticated via WAHLU_API_KEY env var" + " (" + Mask(key) + ")"
    case FromFile(key) =>
      Parenthesised("Authenticated via config file", Mask(key));
      "Authenticated via config file" + " (" + Mask(key) + ")"
    case Unauthenticated => "Not authenticated. Run: wahlu auth login <api-key>"
  }

  /** A text followed by a parenthesised note starts with the text and ends
      with the note and the closing parenthesis. */
  lemma Parenthesised(text: string, note: string)
    ensures var line := text + " (" + note + ")";
      StartsWith(line, text) && |line| > |note| + 1 && line[|line| - |note| - 1..] == note + ")"
  {
    var line := text + " (" + note + ")";
    assert line[..|text|] == text;
    assert line[|line| - |note| - 1..] == note + ")";
  }

  /** auth status: the auth source, then the API URL and the default brand
      lines only for fields that are set. */
  function StatusLines(env: Env, file: ConfigFile): (lines: seq<string>)
    ensures |lines| == 1 + (if Present(Load(file).apiUrl) then 1 else 0) + (if Present(Load(file).defaultBrandId) then 1 else 0)
    ensures lines[0] == SourceLine(StatusSource(env, file))
    ensures Present(Load(file).apiUrl) ==> lines[1] == "API URL: " + Load(file).apiUrl.value
    ensures Present(Load(file).defaultBrandId) ==> lines[|lines| - 1] == "Default brand: " + Load(file).defaultBrandId.value
  {
    var config := Load(file);
    [SourceLine(StatusSource(env, file))]
    + (if Present(config.apiUrl) then ["API URL: " + config.apiUrl.value] else [])
    + (if Present(config.defaultBrandId) then ["Default brand: " + config.defaultBrandId.value] else [])
  }

  /** A set WAHLU_API_KEY is reported as the source whatever the file holds. */
  lemma StatusPrefersEnv(env: Env, file1: ConfigFile, file2: ConfigFile)
    requires Present(env.apiKey)
    ensures StatusLines(env, file1)[0] == StatusLines(env, file2)[0]
  {
  }
}
