/**
 * The settings the script reads from `config.yml` and the checks `main` runs
 * on them before any file is touched.
 */
module Config {
  import opened Options

  /** The configuration file's fixed name. */
  const CONFIG_FILE_NAME: string := "config.yml"

  /** The token shipped in the sample configuration; it is never accepted. */
  const PLACEHOLDER_HF_TOKEN: string := "PutYourHuggingFaceUserAccessTokenHere"

  /** The model sizes Whisper is allowed to load. */
  const WHISPER_MODEL_SIZES: seq<string> := ["tiny", "base", "small", "medium", "large"]

  /** A scalar read from the YAML document. */
  datatype Value = Null | Str(s: string) | Int(i: int) | Bool(b: bool)

  /** Python truthiness of a scalar. */
  predicate Truthy(v: Value)
  {
    match v
    case Null => false
    case Str(s) => s != ""
    case Int(i) => i != 0
    case Bool(b) => b
  }

  /** What `load_config` hands to `main`: nothing (`False` when the file is
      missing, `None` for an empty document) or a mapping of keys to scalars. */
  datatype LoadedConfig = Missing | Mapping(entries: map<string, Value>)

  /** `not config` fails: the configuration is present and not an empty mapping. */
  predicate ConfigTruthy(c: LoadedConfig)
  {
    c.Mapping? && c.entries != map[]
  }

  /** `config.get(key)`: the value, or `None` for a missing key. */
  function Get(c: LoadedConfig, key: string): Value
  {
    if c.Mapping? && key in c.entries then c.entries[key] else Null
  }

  /** The token check: present, non-empty and not the placeholder. */
  predicate TokenAcceptable(token: Value)
  {
    Truthy(token) && token != Str(PLACEHOLDER_HF_TOKEN)
  }

  /** The model-size check: one of the five names, compared exactly. */
  predicate ModelSizeAcceptable(size: Value)
  {
    size.Str? && size.s in WHISPER_MODEL_SIZES
  }

  /** Why `main` exits before processing anything. */
  datatype ConfigError = ConfigUnreadable | InvalidHfToken | InvalidModelSize

  /** The two settings `main` passes on to every transcription. */
  datatype Settings = Settings(hfToken: Value, modelSize: string)

  /** The checks of `main`, in the order it runs them: the configuration itself,
      then the token, then the model size. The first failing check decides the
      error; the configuration is accepted exactly when all three pass, and
      then its token and model size are passed on unchanged. */
  function Validate(c: LoadedConfig): (r: Result<Settings, ConfigError>)
    ensures r.Ok? <==>
              ConfigTruthy(c) && TokenAcceptable(Get(c, "hf_token")) && ModelSizeAcceptable(Get(c, "model_size"))
    ensures r == Err(ConfigUnreadable) <==> !ConfigTruthy(c)
    ensures r == Err(InvalidHfToken) <==> ConfigTruthy(c) && !TokenAcceptable(Get(c, "hf_token"))
    ensures r == Err(InvalidModelSize) <==>
              ConfigTruthy(c) && TokenAcceptable(Get(c, "hf_token")) && !ModelSizeAcceptable(Get(c, "model_size"))
    ensures r.Ok? ==>
              && r.value.hfToken == Get(c, "hf_token")
              && Get(c, "model_size") == Str(r.value.modelSize)
              && r.value.modelSize in WHISPER_MODEL_SIZES
  {
    if !ConfigTruthy(c) then Err(ConfigUnreadable)
    else
      var token := Get(c, "hf_token");
      var size := Get(c, "model_size");
      if !Truthy(token) || token == Str(PLACEHOLDER_HF_TOKEN) then Err(InvalidHfToken)
      else if !(size.Str? && size.s in WHISPER_MODEL_SIZES) then Err(InvalidModelSize)
      else Ok(Settings(token, size.s))
  }

  /** Sample configurations: a missing file or an empty mapping, an empty or
      placeholder token, and a model size outside the list (the comparison is
      case-sensitive) are each rejected with their own error; the token is
      checked before the model size. */
  lemma ValidateExamples()
    ensures Validate(Missing) == Err(ConfigUnreadable)
    ensures Validate(Mapping(map[])) == Err(ConfigUnreadable)
    ensures Validate(Mapping(map["model_size" := Str("base")])) == Err(InvalidHfToken)
    ensures Validate(Mapping(map["hf_token" := Str(""), "model_size" := Str("base")])) == Err(InvalidHfToken)
    ensures Validate(Mapping(map["hf_token" := Str(PLACEHOLDER_HF_TOKEN), "model_size" := Str("nope")]))
              == Err(InvalidHfToken)
    ensures Validate(Mapping(map["hf_token" := Str("hf_x"), "model_size" := Str("Large")]))
              == Err(InvalidModelSize)
    ensures Validate(Mapping(map["hf_token" := Str("hf_x"), "model_size" := Str("large")]))
              == Ok(Settings(Str("hf_x"), "large"))
  {
    assert "hf_token" != "model_size" by {
      assert "hf_token"[0] != "model_size"[0];
    }
    var noToken := Mapping(map["model_size" := Str("base")]);
    assert ConfigTruthy(noToken) by {
      assert "model_size" in noToken.entries;
    }
    assert "hf_token" !in noToken.entries;
    assert Get(noToken, "hf_token") == Null;
    assert "Large" != "large" by {
      assert "Large"[0] != "large"[0];
    }
    assert "Large" !in WHISPER_MODEL_SIZES;
    assert "hf_x" != PLACEHOLDER_HF_TOKEN by {
      assert |"hf_x"| != |PLACEHOLDER_HF_TOKEN|;
    }
  }
}
