/** The process-wide cache both providers reach through
    `SamlSettings.CacheProvider`: `Insert` stores a value under a key,
    `Remove` takes the value out and returns it (a destructive read). The
    single-use rule for artifacts (section 3.5.3 of SAML 2.0 Core) rests on
    that pop. */
module ArtifactCache {
  import opened Outcomes
  import opened Saml

  /** What the pages keep in the cache: message XML, or on the SP the
      resource URL saved under a relay state. */
  datatype CacheValue = XmlValue(xml: Xml) | UrlValue(url: string)

  /** A stored value and the expiry it was inserted with (expiry itself is
      the cache's business and is not modelled). */
  datatype Entry = Entry(value: CacheValue, ttlSeconds: nat)

  type CacheMap = map<string, Entry>

  /** `new TimeSpan(1, 0, 0)`: artifacts are cached for one hour. */
  const OneHour: nat := 3600

  function Find(m: CacheMap, key: string): Option<CacheValue>
  {
    if key in m then Some(m[key].value) else None
  }

  datatype CacheOp = InsertOp(key: string, value: CacheValue, ttlSeconds: nat) | RemoveOp(key: string)

  /** The effect of one cache call. */
  function Apply(m: CacheMap, op: CacheOp): (m': CacheMap)
    ensures op.InsertOp? ==> m'.Keys == m.Keys + {op.key} && m'[op.key] == Entry(op.value, op.ttlSeconds)
    ensures op.RemoveOp? ==> m'.Keys == m.Keys - {op.key}
    ensures forall k :: k in m && k != op.key ==> k in m' && m'[k] == m[k]
  {
    match op
    case InsertOp(k, v, ttl) => m[k := Entry(v, ttl)]
    case RemoveOp(k) => m - {k}
  }

  /** The cache after a sequence of calls. */
  function Replay(m: CacheMap, ops: seq<CacheOp>): CacheMap
    decreases |ops|
  {
    if ops == [] then m else Replay(Apply(m, ops[0]), ops[1..])
  }

  /** How many of the `Remove(key)` calls in `ops` return a value. */
  function Hits(m: CacheMap, ops: seq<CacheOp>, key: string): nat
    decreases |ops|
  {
    if ops == [] then 0
    else (if ops[0] == RemoveOp(key) && key in m then 1 else 0) + Hits(Apply(m, ops[0]), ops[1..], key)
  }

  /** How many of the calls in `ops` insert under `key`. */
  function Inserts(ops: seq<CacheOp>, key: string): nat
    decreases |ops|
  {
    if ops == [] then 0
    else (if ops[0].InsertOp? && ops[0].key == key then 1 else 0) + Inserts(ops[1..], key)
  }

  /** Single use: over any sequence of calls, the removals of a key that
      return a value, plus the entry still there at the end, never outnumber
      the insertions under that key plus the entry there at the start. So
      an artifact inserted once is handed out at most once. */
  lemma {:induction false} SingleUse(m: CacheMap, ops: seq<CacheOp>, key: string)
    ensures Hits(m, ops, key) + (if key in Replay(m, ops) then 1 else 0)
         <= Inserts(ops, key) + (if key in m then 1 else 0)
    decreases |ops|
  {
    if ops != [] {
      SingleUse(Apply(m, ops[0]), ops[1..], key);
    }
  }

  /** Round trip and pop: a removal right after an insertion returns the
      inserted value; a second removal of the same key returns nothing. */
  lemma InsertThenRemoveTwice(m: CacheMap, key: string, v: CacheValue, ttl: nat)
    ensures Find(Apply(m, InsertOp(key, v, ttl)), key) == Some(v)
    ensures Find(Apply(Apply(m, InsertOp(key, v, ttl)), RemoveOp(key)), key) == None
  {
  }

  /** The shared cache object. */
  class CacheProvider {
    var entries: CacheMap

    constructor ()
      ensures entries == map[]
    {
      entries := map[];
    }

    /** Stores `value` under `key`, replacing what was there. */
    method Insert(key: string, value: CacheValue, ttlSeconds: nat)
      modifies this
      ensures entries == Apply(old(entries), InsertOp(key, value, ttlSeconds))
    {
      entries := entries[key := Entry(value, ttlSeconds)];
    }

    /** Takes the value under `key` out of the cache and returns it; None
      when there is none (the null of the source). */
    method Remove(key: string) returns (value: Option<CacheValue>)
      modifies this
      ensures value == Find(old(entries), key)
      ensures entries == Apply(old(entries), RemoveOp(key))
    {
      value := Find(entries, key);
      entries := entries - {key};
    }
  }
}
