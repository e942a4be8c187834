/**
 * Loading template configurations and rule files through the cache. The
 * template directories are a `Store`: configuration text by template id,
 * rule file text by path, and the JSON parser as a function. The clock is the
 * parameter `now`.
 */
module Loader {
  import opened Wrappers
  import opened Json
  import opened Text
  import opened Validation
  import opened Cache

  /** `{useCache = true, validateSchema = true} = options`, defaults applied. */
  datatype LoadOptions = LoadOptions(useCache: bool, validateSchema: bool)

  const DefaultOptions: LoadOptions := LoadOptions(true, true)

  /** The two error classes the loaders throw. */
  datatype LoadError = TemplateError(message: string) | TemplateValidationError(message: string)
  {
    /** `String(error)`: the class name, a colon and the message. */
    function ToString(): string
    {
      match this
      case TemplateError(m) => "TemplateError: " + m
      case TemplateValidationError(m) => "TemplateValidationError: " + m
    }
  }

  /**
   * The configuration directory (`<id>.json` by template id), the rules
   * directory (by path under it), and `JSON.parse`, whose error is the
   * thrown SyntaxError as a string.
   */
  datatype Store = Store(
    configs: map<string, string>,
    rules: map<string, string>,
    parse: string -> Result<Json, string>)

  function Messages(es: seq<ValidationError>): (ms: seq<string>)
    ensures |ms| == |es| && forall i :: 0 <= i < |es| ==> ms[i] == es[i].message
  {
    seq(|es|, i requires 0 <= i < |es| => es[i].message)
  }

  /** Everything after the cache check of `loadTemplateConfig`: exists, read, parse, validate. */
  function ReadConfig(store: Store, templateId: string, validateSchema: bool): Result<Json, LoadError>
  {
    if templateId !in store.configs then Err(TemplateError("模板配置文件不存在: " + templateId))
    else
      match store.parse(store.configs[templateId])
      case Err(e) => Err(TemplateError("解析模板配置失败: " + templateId + " - " + e))
      case Ok(config) =>
        if !validateSchema then Ok(config)
        else
          match Validate(config)
          // a TypeError inside the `try` is wrapped like a parse error
          case Err(e) => Err(TemplateError("解析模板配置失败: " + templateId + " - " + e))
          case Ok(v) =>
            if v.isValid then Ok(config)
            else Err(TemplateValidationError("模板配置验证失败: " + Join(Messages(v.errors), ", ")))
  }

  /**
   * `loadTemplateConfig(templateId, options)` on the template map of the
   * cache: the result and the map afterwards. A cached value is used only
   * when it is truthy (`if (cached) return cached`).
   */
  function LoadConfig(store: Store, templates: map<string, CacheEntry<Json>>, templateId: string,
                      options: LoadOptions, now: int): (Result<Json, LoadError>, map<string, CacheEntry<Json>>)
  {
    var (cached, afterGet) := if options.useCache then CacheGet(templates, templateId, now) else (None, templates);
    if cached.Some? && Truthy(cached.value) then (Ok(cached.value), afterGet)
    else
      match ReadConfig(store, templateId, options.validateSchema)
      case Err(e) => (Err(e), afterGet)
      case Ok(config) => (Ok(config), if options.useCache then CachePut(afterGet, templateId, config, now) else afterGet)
  }

  // ---------------------------------------------------------------- properties of loading a configuration

  /** With validation on, a configuration read from the store has passed it. */
  lemma ReadConfigValidated(store: Store, templateId: string)
    requires ReadConfig(store, templateId, true).Ok?
    ensures templateId in store.configs
    ensures store.parse(store.configs[templateId]) == Ok(ReadConfig(store, templateId, true).value)
    ensures Validate(ReadConfig(store, templateId, true).value).Ok?
    ensures Validate(ReadConfig(store, templateId, true).value).value.isValid
  {
  }

  /** A missing configuration file is a `TemplateError` naming the id. */
  lemma MissingConfig(store: Store, templateId: string, validateSchema: bool)
    requires templateId !in store.configs
    ensures ReadConfig(store, templateId, validateSchema) == Err(TemplateError("模板配置文件不存在: " + templateId))
  {
  }

  /** With `useCache` off the cache is neither read nor written. */
  lemma ConfigWithoutCache(store: Store, templates: map<string, CacheEntry<Json>>, templateId: string,
                           options: LoadOptions, now: int)
    requires !options.useCache
    ensures LoadConfig(store, templates, templateId, options, now)
      == (ReadConfig(store, templateId, options.validateSchema), templates)
  {
  }

  /** A live, truthy cached configuration is returned without looking at the store. */
  lemma CachedConfigServed(store: Store, templates: map<string, CacheEntry<Json>>, templateId: string,
                           options: LoadOptions, now: int)
    requires options.useCache && Live(templates, templateId, now) && Truthy(templates[templateId].data)
    ensures LoadConfig(store, templates, templateId, options, now) == (Ok(templates[templateId].data), templates)
  {
  }

  /**
   * A configuration read from the store is served, even if the store has
   * changed since, for the next ten minutes.
   */
  lemma ConfigReloadWithinTtl(store: Store, store': Store, templates: map<string, CacheEntry<Json>>,
                              templateId: string, options: LoadOptions, now: int, later: int)
    requires options.useCache
    requires !(Live(templates, templateId, now) && Truthy(templates[templateId].data))
    requires ReadConfig(store, templateId, options.validateSchema).Ok?
    requires Truthy(ReadConfig(store, templateId, options.validateSchema).value)
    requires now <= later <= now + DefaultTtl
    ensures var (r, t) := LoadConfig(store, templates, templateId, options, now);
      LoadConfig(store', t, templateId, options, later) == (r, t)
  {
    var config := ReadConfig(store, templateId, options.validateSchema).value;
    var afterGet := CacheGet(templates, templateId, now).1;
    var t := CachePut(afterGet, templateId, config, now);
    assert LoadConfig(store, templates, templateId, options, now) == (Ok(config), t);
    assert Live(t, templateId, later) && t[templateId].data == config;
    CachedConfigServed(store', t, templateId, options, later);
  }

  /** Loading a configuration never touches the entries of other ids. */
  lemma LoadConfigKeepsOthers(store: Store, templates: map<string, CacheEntry<Json>>, templateId: string,
                              options: LoadOptions, now: int, other: string)
    requires other != templateId
    ensures var t := LoadConfig(store, templates, templateId, options, now).1;
      (other in t <==> other in templates) && (other in t ==> t[other] == templates[other])
  {
  }

  // ---------------------------------------------------------------- rule files

  /**
   * `loadRuleFile(rulePath, useCache)` on the file map of the cache. An
   * empty file is falsy, so it is read again every time.
   */
  function LoadRule(store: Store, files: map<string, CacheEntry<string>>, rulePath: string,
                    useCache: bool, now: int): (Result<string, LoadError>, map<string, CacheEntry<string>>)
  {
    var (cached, afterGet) := if useCache then CacheGet(files, rulePath, now) else (None, files);
    if cached.Some? && cached.value != "" then (Ok(cached.value), afterGet)
    else if rulePath !in store.rules then (Err(TemplateError("规则文件不存在: " + rulePath)), afterGet)
    else
      var content := store.rules[rulePath];
      (Ok(content), if useCache then CachePut(afterGet, rulePath, content, now) else afterGet)
  }

  /** Without the cache, a rule file is exactly the stored text, or a `TemplateError` when absent. */
  lemma RuleWithoutCache(store: Store, files: map<string, CacheEntry<string>>, rulePath: string, now: int)
    ensures LoadRule(store, files, rulePath, false, now)
      == (if rulePath in store.rules then Ok(store.rules[rulePath])
          else Err(TemplateError("规则文件不存在: " + rulePath)), files)
  {
  }

  /**
   * Whatever the cache holds, a loaded rule file is a text the store holds
   * or held: the cached text, or the stored one.
   */
  lemma RuleComesFromStoreOrCache(store: Store, files: map<string, CacheEntry<string>>, rulePath: string,
                                  useCache: bool, now: int)
    requires LoadRule(store, files, rulePath, useCache, now).0.Ok?
    ensures var content := LoadRule(store, files, rulePath, useCache, now).0.value;
      (rulePath in store.rules && content == store.rules[rulePath])
      || (useCache && Live(files, rulePath, now) && content == files[rulePath].data && content != "")
  {
  }

  /** An empty rule file is never served from the cache. */
  lemma EmptyRuleReread(store: Store, files: map<string, CacheEntry<string>>, rulePath: string, now: int)
    requires Live(files, rulePath, now) && files[rulePath].data == ""
    ensures LoadRule(store, files, rulePath, true, now).0
      == if rulePath in store.rules then Ok(store.rules[rulePath]) else Err(TemplateError("规则文件不存在: " + rulePath))
  {
  }

  // ---------------------------------------------------------------- all configurations

  /** `path.basename(file, '.json')`. */
  function TemplateIdOf(file: string): string
  {
    var b := Basename(file);
    if |b| > 5 && b[|b| - 5..] == ".json" then b[..|b| - 5] else b
  }

  /**
   * `getAllTemplateConfigs(options)` over the directory listing: each file's
   * configuration, loaded in turn; failures and falsy configurations are
   * skipped.
   */
  function AllConfigs(store: Store, templates: map<string, CacheEntry<Json>>, listing: seq<string>,
                      options: LoadOptions, now: int): (seq<Json>, map<string, CacheEntry<Json>>)
    decreases |listing|
  {
    if listing == [] then ([], templates)
    else
      var (configs, t) := AllConfigs(store, templates, listing[..|listing| - 1], options, now);
      var (r, t') := LoadConfig(store, t, TemplateIdOf(listing[|listing| - 1]), options, now);
      (if r.Ok? && Truthy(r.value) then configs + [r.value] else configs, t')
  }

  /** The configurations that read and pass, in listing order (the cache aside). */
  function Readable(store: Store, listing: seq<string>, validateSchema: bool): seq<Json>
    decreases |listing|
  {
    if listing == [] then []
    else
      var r := ReadConfig(store, TemplateIdOf(listing[|listing| - 1]), validateSchema);
      Readable(store, listing[..|listing| - 1], validateSchema) + (if r.Ok? && Truthy(r.value) then [r.value] else [])
  }

  /** One more listed file, loaded without the cache, adds what reading it gives and leaves the cache alone. */
  lemma AllConfigsStep(store: Store, templates: map<string, CacheEntry<Json>>, listing: seq<string>,
                       options: LoadOptions, now: int)
    requires !options.useCache && listing != []
    requires AllConfigs(store, templates, listing[..|listing| - 1], options, now)
      == (Readable(store, listing[..|listing| - 1], options.validateSchema), templates)
    ensures AllConfigs(store, templates, listing, options, now)
      == (Readable(store, listing, options.validateSchema), templates)
  {
    var prefix := listing[..|listing| - 1];
    var id := TemplateIdOf(listing[|listing| - 1]);
    ConfigWithoutCache(store, templates, id, options, now);
    var r := ReadConfig(store, id, options.validateSchema);
    var kept := Readable(store, prefix, options.validateSchema);
    assert AllConfigs(store, templates, listing, options, now)
      == (if r.Ok? && Truthy(r.value) then kept + [r.value] else kept, templates);
    assert Readable(store, listing, options.validateSchema)
      == kept + (if r.Ok? && Truthy(r.value) then [r.value] else []);
    if !(r.Ok? && Truthy(r.value)) {
      assert kept + [] == kept;
    }
  }

  /**
   * Without the cache, `getAllTemplateConfigs` keeps exactly the files
   * whose configuration reads, parses and validates to a truthy value, in
   * listing order, and leaves the cache alone.
   */
  lemma {:induction false} AllConfigsWithoutCache(store: Store, templates: map<string, CacheEntry<Json>>,
                                                  listing: seq<string>, options: LoadOptions, now: int)
    requires !options.useCache
    ensures AllConfigs(store, templates, listing, options, now)
      == (Readable(store, listing, options.validateSchema), templates)
    decreases |listing|
  {
    if listing != [] {
      AllConfigsWithoutCache(store, templates, listing[..|listing| - 1], options, now);
      AllConfigsStep(store, templates, listing, options, now);
    }
  }

  /** At most one configuration per listed file, each of them truthy. */
  lemma {:induction false} AllConfigsBound(store: Store, templates: map<string, CacheEntry<Json>>,
                                           listing: seq<string>, options: LoadOptions, now: int)
    ensures |AllConfigs(store, templates, listing, options, now).0| <= |listing|
    ensures forall c :: c in AllConfigs(store, templates, listing, options, now).0 ==> Truthy(c)
    decreases |listing|
  {
    if listing != [] {
      AllConfigsBound(store, templates, listing[..|listing| - 1], options, now);
    }
  }

  // ---------------------------------------------------------------- the loaders as methods

  /** The part of `loadTemplateConfig` inside its `try`, validating with the imperative validator. */
  method ReadTemplateConfig(store: Store, templateId: string, validateSchema: bool) returns (r: Result<Json, LoadError>)
    ensures r == ReadConfig(store, templateId, validateSchema)
  {
    if templateId !in store.configs {
      return Err(TemplateError("模板配置文件不存在: " + templateId));
    }
    var parsed := store.parse(store.configs[templateId]);
    if parsed.Err? {
      return Err(TemplateError("解析模板配置失败: " + templateId + " - " + parsed.error));
    }
    var config := parsed.value;
    if validateSchema {
      var validation := ValidateTemplateConfig(config);
      if validation.Err? {
        return Err(TemplateError("解析模板配置失败: " + templateId + " - " + validation.error));
      }
      if !validation.value.isValid {
        return Err(TemplateValidationError("模板配置验证失败: " + Join(Messages(validation.value.errors), ", ")));
      }
    }
    return Ok(config);
  }

  method LoadTemplateConfig(store: Store, cache: TemplateCache, templateId: string, options: LoadOptions, now: int)
    returns (r: Result<Json, LoadError>)
    modifies cache
    ensures (r, cache.templates) == LoadConfig(store, old(cache.templates), templateId, options, now)
    ensures cache.files == old(cache.files)
  {
    if options.useCache {
      var cached := cache.GetTemplate(templateId, now);
      if cached.Some? && Truthy(cached.value) {
        return Ok(cached.value);
      }
    }
    r := ReadTemplateConfig(store, templateId, options.validateSchema);
    if r.Ok? && options.useCache {
      cache.SetTemplate(templateId, r.value, now);
    }
  }

  method LoadRuleFile(store: Store, cache: TemplateCache, rulePath: string, useCache: bool, now: int)
    returns (r: Result<string, LoadError>)
    modifies cache
    ensures (r, cache.files) == LoadRule(store, old(cache.files), rulePath, useCache, now)
    ensures cache.templates == old(cache.templates)
  {
    if useCache {
      var cached := cache.GetFile(rulePath, now);
      if cached.Some? && cached.value != "" {
        return Ok(cached.value);
      }
    }
    if rulePath !in store.rules {
      return Err(TemplateError("规则文件不存在: " + rulePath));
    }
    var content := store.rules[rulePath];
    if useCache {
      cache.SetFile(rulePath, content, now);
    }
    return Ok(content);
  }

  /** `getAllTemplateConfigs`, one file after the other. */
  method GetAllTemplateConfigs(store: Store, cache: TemplateCache, listing: seq<string>, options: LoadOptions, now: int)
    returns (configs: seq<Json>)
    modifies cache
    ensures (configs, cache.templates) == AllConfigs(store, old(cache.templates), listing, options, now)
    ensures cache.files == old(cache.files)
  {
    configs := [];
    var i := 0;
    while i < |listing|
      invariant 0 <= i <= |listing|
      invariant (configs, cache.templates) == AllConfigs(store, old(cache.templates), listing[..i], options, now)
      invariant cache.files == old(cache.files)
    {
      assert listing[..i + 1][..i] == listing[..i];
      var r := LoadTemplateConfig(store, cache, TemplateIdOf(listing[i]), options, now);
      if r.Ok? && Truthy(r.value) {
        configs := configs + [r.value];
      }
      i := i + 1;
    }
    assert listing[..i] == listing;
  }

  /** `clearCache()`. */
  method ClearCache(cache: TemplateCache)
    modifies cache
    ensures cache.Size() == CacheSize(0, 0)
  {
    cache.Clear();
  }

  /** `getCacheStats()`. */
  method GetCacheStats(cache: TemplateCache) returns (s: CacheSize)
    ensures s == CacheSize(|cache.templates|, |cache.files|)
  {
    s := cache.Size();
  }
}
