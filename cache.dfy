/**
 * The loader's cache: two maps with a time to live, one for template
 * configurations and one for rule file contents. An entry is evicted lazily,
 * when a read finds it expired. The clock is a parameter `now` (milliseconds).
 */
module Cache {
  import opened Wrappers
  import opened Json

  /** Ten minutes, in milliseconds. */
  const DefaultTtl: int := 10 * 60 * 1000

  datatype CacheEntry<T> = CacheEntry(data: T, timestamp: int, expiresAt: int)

  datatype CacheSize = CacheSize(templates: nat, files: nat)

  /** An entry is served while `now` has not passed its expiry time. */
  predicate Live<T>(m: map<string, CacheEntry<T>>, key: string, now: int)
  {
    key in m && now <= m[key].expiresAt
  }

  /** `get(key, cache)` at time `now`: the data, and the map after evicting an expired entry. */
  function CacheGet<T>(m: map<string, CacheEntry<T>>, key: string, now: int): (r: (Option<T>, map<string, CacheEntry<T>>))
    ensures r.0.Some? <==> Live(m, key, now)
    ensures r.0.Some? ==> r.0.value == m[key].data
    ensures key !in r.1 <==> !Live(m, key, now)
    ensures forall k :: k != key ==> (k in r.1 <==> k in m) && (k in m ==> r.1[k] == m[k])
  {
    if key !in m then (None, m)
    else if now > m[key].expiresAt then (None, m - {key})
    else (Some(m[key].data), m)
  }

  /** `set(key, data, cache)` at time `now`, with the default time to live. */
  function CachePut<T>(m: map<string, CacheEntry<T>>, key: string, data: T, now: int): (r: map<string, CacheEntry<T>>)
    ensures key in r && r[key] == CacheEntry(data, now, now + DefaultTtl)
    ensures forall k :: k != key ==> (k in r <==> k in m) && (k in m ==> r[k] == m[k])
  {
    m[key := CacheEntry(data, now, now + DefaultTtl)]
  }

  /** What is stored at `now` is served until `now + DefaultTtl`, and not after. */
  lemma PutThenGet<T>(m: map<string, CacheEntry<T>>, key: string, data: T, now: int, later: int)
    ensures CacheGet(CachePut(m, key, data, now), key, later).0
      == if later <= now + DefaultTtl then Some(data) else None
  {
  }

  /** Storing under one key leaves what every other key serves unchanged. */
  lemma PutKeepsOthers<T>(m: map<string, CacheEntry<T>>, key: string, other: string, data: T, now: int, later: int)
    requires other != key
    ensures CacheGet(CachePut(m, key, data, now), other, later).0 == CacheGet(m, other, later).0
  {
  }

  /** A read that finds nothing leaves nothing behind: the next read finds nothing either. */
  lemma MissIsFinal<T>(m: map<string, CacheEntry<T>>, key: string, now: int, later: int)
    requires CacheGet(m, key, now).0.None?
    ensures CacheGet(CacheGet(m, key, now).1, key, later).0.None?
  {
  }

  /** Reading never adds entries. */
  lemma GetShrinks<T>(m: map<string, CacheEntry<T>>, key: string, now: int)
    ensures CacheGet(m, key, now).1.Keys <= m.Keys
    ensures |CacheGet(m, key, now).1| <= |m|
  {
    var r := CacheGet(m, key, now).1;
    assert r.Keys <= m.Keys;
    if key in m && now > m[key].expiresAt {
      assert r == m - {key};
      assert m.Keys == r.Keys + {key};
    }
  }

  class TemplateCache {
    var templates: map<string, CacheEntry<Json>>
    var files: map<string, CacheEntry<string>>

    constructor()
      ensures templates == map[] && files == map[]
    {
      templates := map[];
      files := map[];
    }

    method GetTemplate(templateId: string, now: int) returns (r: Option<Json>)
      modifies this
      ensures (r, templates) == CacheGet(old(templates), templateId, now)
      ensures files == old(files)
    {
      var (data, m) := CacheGet(templates, templateId, now);
      templates := m;
      r := data;
    }

    method SetTemplate(templateId: string, config: Json, now: int)
      modifies this
      ensures templates == CachePut(old(templates), templateId, config, now)
      ensures files == old(files)
    {
      templates := CachePut(templates, templateId, config, now);
    }

    method GetFile(filePath: string, now: int) returns (r: Option<string>)
      modifies this
      ensures (r, files) == CacheGet(old(files), filePath, now)
      ensures templates == old(templates)
    {
      var (data, m) := CacheGet(files, filePath, now);
      files := m;
      r := data;
    }

    method SetFile(filePath: string, content: string, now: int)
      modifies this
      ensures files == CachePut(old(files), filePath, content, now)
      ensures templates == old(templates)
    {
      files := CachePut(files, filePath, content, now);
    }

    method Clear()
      modifies this
      ensures templates == map[] && files == map[]
    {
      templates := map[];
      files := map[];
    }

    /** The number of entries in each map, expired ones included. */
    function Size(): (s: CacheSize)
      reads this
      ensures s.templates == |templates| && s.files == |files|
    {
      CacheSize(|templates|, |files|)
    }
  }
}
