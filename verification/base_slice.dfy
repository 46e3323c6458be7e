/** The `base` slice: where the two backends live and whether each is switched on. */
module BaseSlice {
  datatype Settings = Settings(ollamaBaseUrl: string, useOllama: bool, sdforgeBaseUrl: string, useSdforge: bool)

  /** The defaults: both backends on their local ports, both switched off. */
  function InitialSettings(): (r: Settings)
    ensures !r.useOllama && !r.useSdforge
  {
    Settings("http://localhost:11434", false, "http://127.0.0.1:7860", false)
  }

  /** `setBaseUrl`. */
  function WithBaseUrls(s: Settings, ollamaBaseUrl: string, sdforgeBaseUrl: string): Settings {
    s.(ollamaBaseUrl := ollamaBaseUrl, sdforgeBaseUrl := sdforgeBaseUrl)
  }

  /** `setUse`. */
  function WithUse(s: Settings, useOllama: bool, useSdforge: bool): Settings {
    s.(useOllama := useOllama, useSdforge := useSdforge)
  }

  /** `setBaseUrl` sets both URLs and keeps both switches; applying it twice is applying it once. */
  lemma BaseUrlsOnly(s: Settings, o: string, d: string)
    ensures WithBaseUrls(s, o, d).ollamaBaseUrl == o && WithBaseUrls(s, o, d).sdforgeBaseUrl == d
    ensures WithBaseUrls(s, o, d).useOllama == s.useOllama && WithBaseUrls(s, o, d).useSdforge == s.useSdforge
    ensures WithBaseUrls(WithBaseUrls(s, o, d), o, d) == WithBaseUrls(s, o, d)
  {
  }

  /** `setUse` sets both switches and keeps both URLs; applying it twice is applying it once. */
  lemma UseOnly(s: Settings, a: bool, b: bool)
    ensures WithUse(s, a, b).useOllama == a && WithUse(s, a, b).useSdforge == b
    ensures WithUse(s, a, b).ollamaBaseUrl == s.ollamaBaseUrl && WithUse(s, a, b).sdforgeBaseUrl == s.sdforgeBaseUrl
    ensures WithUse(WithUse(s, a, b), a, b) == WithUse(s, a, b)
  {
  }

  /** The two reducers touch disjoint fields, so their order does not matter. */
  lemma ReducersCommute(s: Settings, o: string, d: string, a: bool, b: bool)
    ensures WithUse(WithBaseUrls(s, o, d), a, b) == WithBaseUrls(WithUse(s, a, b), o, d)
  {
  }

  class BaseStore {
    var ollamaBaseUrl: string
    var useOllama: bool
    var sdforgeBaseUrl: string
    var useSdforge: bool

    function Current(): Settings
      reads this
    {
      Settings(ollamaBaseUrl, useOllama, sdforgeBaseUrl, useSdforge)
    }

    constructor ()
      ensures Current() == InitialSettings()
    {
      ollamaBaseUrl := "http://localhost:11434";
      useOllama := false;
      sdforgeBaseUrl := "http://127.0.0.1:7860";
      useSdforge := false;
    }

    method SetBaseUrl(ollama: string, sdforge: string)
      modifies this
      ensures Current() == WithBaseUrls(old(Current()), ollama, sdforge)
    {
      ollamaBaseUrl := ollama;
      sdforgeBaseUrl := sdforge;
    }

    method SetUse(ollama: bool, sdforge: bool)
      modifies this
      ensures Current() == WithUse(old(Current()), ollama, sdforge)
    {
      useOllama := ollama;
      useSdforge := sdforge;
    }
  }
}
