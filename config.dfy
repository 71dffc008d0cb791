/** The configuration of src/lib/config.ts: the saved record, the file it
    lives in, and the "first non-empty of environment / saved / default"
    rules for the API key, the API URL and the default brand. */
module Config {
  import opened Wrappers
  import opened Js
  import opened Failures

  /** The saved configuration; each field may be absent. */
  datatype Config = Config(apiKey: Option<string>, apiUrl: Option<string>, defaultBrandId: Option<string>)

  const Empty := Config(None, None, None)

  /** The state of ~/.config/wahlu/config.json: absent, present but not
      parseable JSON, or holding a configuration. */
  datatype ConfigFile = Missing | Unreadable | Saved(config: Config)

  /** The variables WAHLU_API_KEY, WAHLU_API_URL and WAHLU_BRAND_ID. */
  datatype Env = Env(apiKey: Option<string>, apiUrl: Option<string>, brandId: Option<string>)

  const DefaultApiUrl := "https://api.wahlu.com"

  /** What readConfig returns for a file. */
  function Load(file: ConfigFile): Config {
    if file.Saved? then file.config else Empty
  }

  /** The config file, read and rewritten wholesale. */
  class ConfigStore {
    var file: ConfigFile

    constructor (file: ConfigFile)
      ensures this.file == file
    {
      this.file := file;
    }

    /** readConfig: the saved record, or the empty record when the file is
        missing or cannot be parsed. */
    method Read() returns (c: Config)
      ensures file.Saved? ==> c == file.config
      ensures !file.Saved? ==> c == Empty
    {
      match file
      case Saved(saved) => c := saved;
      case Missing => c := Empty;
      case Unreadable => c := Empty;
    }

    /** writeConfig: the file is replaced by exactly the given record. */
    method Write(c: Config)
      modifies this
      ensures file == Saved(c)
    {
      file := Saved(c);
    }
  }

  /** writeConfig then readConfig gives back exactly the record written. */
  method WriteThenRead(store: ConfigStore, c: Config) returns (back: Config)
    modifies store
    ensures back == c
    ensures store.file == Saved(c)
  {
    store.Write(c);
    back := store.Read();
  }

  /** getApiKey: a non-empty WAHLU_API_KEY wins, then a non-empty saved key;
      with neither the process exits. */
  function GetApiKey(env: Env, file: ConfigFile): (r: Result<string, Failure>)
    ensures r.Success? ==> r.value != ""
    ensures Present(env.apiKey) ==> r == Success(env.apiKey.value)
    ensures !Present(env.apiKey) && Present(Load(file).apiKey) ==> r == Success(Load(file).apiKey.value)
    ensures r.Failure? <==> !Present(env.apiKey) && !Present(Load(file).apiKey)
    ensures r.Failure? ==> r.error == MissingApiKey
  {
    if Present(env.apiKey) then Success(env.apiKey.value)
    else
      var config := Load(file);
      if Present(config.apiKey) then Success(config.apiKey.value)
      else Failure(MissingApiKey)
  }

  /** getApiUrl: WAHLU_API_URL, else the saved api_url, else the production
      URL; empty strings are skipped, so the result is never empty. */
  function GetApiUrl(env: Env, file: ConfigFile): (r: string)
    ensures r != ""
    ensures Present(env.apiUrl) ==> r == env.apiUrl.value
    ensures !Present(env.apiUrl) && Present(Load(file).apiUrl) ==> r == Load(file).apiUrl.value
    ensures !Present(env.apiUrl) && !Present(Load(file).apiUrl) ==> r == DefaultApiUrl
  {
    if Present(env.apiUrl) then env.apiUrl.value
    else if Present(Load(file).apiUrl) then Load(file).apiUrl.value
    else DefaultApiUrl
  }

  /** getDefaultBrandId: a non-empty WAHLU_BRAND_ID, else the saved
      default_brand_id as it is, which may be absent or empty. */
  function GetDefaultBrandId(env: Env, file: ConfigFile): (r: Option<string>)
    ensures Present(env.brandId) ==> r == env.brandId
    ensures !Present(env.brandId) ==> r == Load(file).defaultBrandId
  {
    if Present(env.brandId) then env.brandId else Load(file).defaultBrandId
  }
}
