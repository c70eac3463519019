/** The game API's configuration and its builder. The builder's setters
    change one field each; `build` refuses a missing or blank API key and
    otherwise copies the three settings into an immutable configuration. */
module ApiConfiguration {
  import opened Common

  const DEFAULT_PORT: int := 8090
  const DEFAULT_THREAD_POOL_SIZE: int := 10
  const API_KEY_REQUIRED: string := "API key must be configured"

  /** A built configuration; its key is never blank. */
  datatype ApiConfig = ApiConfig(port: int, apiKey: string, threadPoolSize: int)

  class Builder {
    var port: int
    var apiKey: Option<string>
    var threadPoolSize: int

    constructor ()
      ensures port == DEFAULT_PORT && apiKey.None? && threadPoolSize == DEFAULT_THREAD_POOL_SIZE
    {
      port := DEFAULT_PORT;
      apiKey := None;
      threadPoolSize := DEFAULT_THREAD_POOL_SIZE;
    }

    method Port(p: int)
      modifies this`port
      ensures port == p
    {
      port := p;
    }

    method ApiKey(key: Option<string>)
      modifies this`apiKey
      ensures apiKey == key
    {
      apiKey := key;
    }

    method ThreadPoolSize(size: int)
      modifies this`threadPoolSize
      ensures threadPoolSize == size
    {
      threadPoolSize := size;
    }

    /** `build()`: the IllegalStateException (Err) exactly when the key is
      null or blank; otherwise the settings, copied unchanged. */
    method Build() returns (r: Result<ApiConfig>)
      ensures r.Err? <==> !IsPresent(apiKey)
      ensures r.Err? ==> r.error == API_KEY_REQUIRED
      ensures r.Ok? ==> r.value == ApiConfig(port, apiKey.value, threadPoolSize) && !IsBlank(r.value.apiKey)
    {
      if apiKey.None? || IsBlank(apiKey.value) {
        return Err(API_KEY_REQUIRED);
      }
      return Ok(ApiConfig(port, apiKey.value, threadPoolSize));
    }
  }

  /** The usual chain: a fresh builder given only a key builds a
      configuration with the default port and pool size, or fails on a
      blank key. */
  method BuildWithKey(key: string) returns (r: Result<ApiConfig>)
    ensures IsBlank(key) ==> r == Err(API_KEY_REQUIRED)
    ensures !IsBlank(key) ==> r == Ok(ApiConfig(DEFAULT_PORT, key, DEFAULT_THREAD_POOL_SIZE))
  {
    var b := new Builder();
    b.ApiKey(Some(key));
    r := b.Build();
  }
}
