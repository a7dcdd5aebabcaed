/**
 * API-key validation against a usage quota, and the usage counter kept in the key store
 * (blingo/lib/rate-limit.ts).
 *
 * The store (the `api_keys` table behind `supabaseAdmin`) is a map from record id to record,
 * held by the class `KeyStore`; whether the store is configured at all is a constant of that
 * store. What a query answers is a `Lookup`: not configured, a fault, or the rows found.
 */
module RateLimit {
  import opened Wrappers
  import opened Text

  /** DEFAULT_RATE_LIMIT: the one quota every key has. */
  const DefaultRateLimit: int := 1000

  /** PostgreSQL's "undefined function" code, which the client reports when the increment RPC is missing. */
  const UndefinedFunctionCode: string := "42883"

  /** One row of the `api_keys` table (ApiKeyData in the source). */
  datatype ApiKeyData = ApiKeyData(id: string, name: string, key: string, usage: int, userId: Option<string>)

  /**
   * How a store call can fail: an error returned by the client, or an exception it threw. A
   * thrown value that is not an Error is `Thrown("Unknown error")`, the text the source puts in its place.
   */
  datatype StoreFault = QueryError(message: string) | Thrown(message: string)

  /** What a store query answers. */
  datatype Lookup<T> = NotConfigured | Faulted(fault: StoreFault) | Rows(value: T)

  /** ValidateApiKeyResult. */
  datatype ValidateResult = ValidateResult(valid: bool, error: Option<string>, keyData: Option<ApiKeyData>, rateLimited: bool)

  /** RateLimitResult. */
  datatype RateLimitResult = RateLimitResult(allowed: bool, usage: int, limit: int, remaining: int, error: Option<string>)

  /** The result of getUsageStats, without its floating-point `percentUsed`. */
  datatype UsageStats = UsageStats(usage: int, limit: int, remaining: int)

  function Max(a: int, b: int): int {
    if a >= b then a else b
  }

  function Rejected(message: string): ValidateResult {
    ValidateResult(false, Some(message), None, false)
  }

  function RateLimitMessage(usage: int, limit: int): string {
    "Rate limit exceeded. You have used " + IntToString(usage) + "/" + IntToString(limit)
    + " requests. Please upgrade your plan or wait for the limit to reset."
  }

  /**
   * validateApiKeyWithRateLimit: `lookup` is what the select-by-key query answers; it is not
   * consulted at all for an empty key.
   */
  function ValidateApiKeyWithRateLimit(apiKey: string, limit: int, lookup: Lookup<Option<ApiKeyData>>): (r: ValidateResult)
    // a valid result always carries the record, and only a found record can be valid or rate-limited
    ensures r.valid ==> r.keyData.Some? && r.error.None? && !r.rateLimited
    ensures !r.valid ==> r.error.Some?
    ensures (r.valid || r.rateLimited) <==> apiKey != "" && lookup.Rows? && lookup.value.Some?
    ensures r.keyData.Some? ==> lookup == Rows(r.keyData)
    // the error cases, in the order the source tests them
    ensures apiKey == "" ==> r == Rejected("API key is required")
    ensures apiKey != "" && lookup.NotConfigured? ==> r == Rejected("Database not configured")
    ensures apiKey != "" && lookup.Faulted? && lookup.fault.QueryError? ==>
      r == Rejected("Database error: " + lookup.fault.message)
    ensures apiKey != "" && lookup == Rows(None) ==> r == Rejected("Invalid API key")
    // the quota boundary
    ensures apiKey != "" && lookup.Rows? && lookup.value.Some? ==>
      r.keyData == lookup.value
      && (r.valid <==> lookup.value.value.usage < limit)
      && (r.rateLimited <==> limit <= lookup.value.value.usage)
  {
    if apiKey == "" then Rejected("API key is required")
    else match lookup
      case NotConfigured => Rejected("Database not configured")
      case Faulted(fault) => FaultRejection(fault)
      case Rows(None) => Rejected("Invalid API key")
      case Rows(Some(data)) => QuotaVerdict(data, limit)
  }

  /** A store fault during validation: a query error is reported as such, a thrown network failure as a connection problem. */
  function FaultRejection(fault: StoreFault): (r: ValidateResult)
    ensures !r.valid && !r.rateLimited && r.keyData.None? && r.error.Some?
    ensures fault.QueryError? ==> r == Rejected("Database error: " + fault.message)
    ensures fault.Thrown? && Contains(fault.message, "fetch failed") ==>
      r == Rejected("Network error connecting to database. This might be a firewall/proxy issue.")
    ensures fault.Thrown? && !Contains(fault.message, "fetch failed") ==> r == Rejected("Validation error: " + fault.message)
  {
    match fault
    case QueryError(message) => Rejected("Database error: " + message)
    case Thrown(message) =>
      if Contains(message, "fetch failed")
      then Rejected("Network error connecting to database. This might be a firewall/proxy issue.")
      else Rejected("Validation error: " + message)
  }

  /** A found key against the quota: valid below it, rate-limited (with its record) at or above it. */
  function QuotaVerdict(data: ApiKeyData, limit: int): (r: ValidateResult)
    ensures r.keyData == Some(data)
    ensures r.valid <==> data.usage < limit
    ensures r.rateLimited <==> limit <= data.usage
    ensures r.valid ==> r.error.None?
    ensures !r.valid ==> r.error == Some(RateLimitMessage(data.usage, limit))
  {
    if data.usage >= limit
    then ValidateResult(false, Some(RateLimitMessage(data.usage, limit)), Some(data), true)
    else ValidateResult(true, None, Some(data), false)
  }

  /** checkRateLimit: `lookup` is what the select-usage-by-id query answers (`None`: no data). */
  function CheckRateLimit(limit: int, lookup: Lookup<Option<int>>): (r: RateLimitResult)
    ensures r.limit == limit
    ensures r.error.Some? <==> !r.allowed
    // fails open: no store, or a store fault, lets the call through with nothing used
    ensures !lookup.Rows? ==> r == RateLimitResult(true, 0, limit, limit, None)
    ensures lookup.Rows? ==>
      r.usage == lookup.value.GetOr(0)
      && (r.allowed <==> r.usage < limit)
      && r.remaining == Max(0, limit - r.usage)
    ensures r.remaining >= 0 || !lookup.Rows?
  {
    match lookup
    case Rows(data) =>
      var usage := data.GetOr(0);
      var allowed := usage < limit;
      RateLimitResult(allowed, usage, limit, Max(0, limit - usage),
        if allowed then None else Some("Rate limit exceeded (" + IntToString(usage) + "/" + IntToString(limit) + ")"))
    case _ => RateLimitResult(true, 0, limit, limit, None)
  }

  /** getUsageStats: no statistics without a store, on a fault, or without a row. */
  function GetUsageStats(limit: int, lookup: Lookup<Option<int>>): (r: Option<UsageStats>)
    ensures r.Some? <==> lookup.Rows? && lookup.value.Some?
    ensures r.Some? ==>
      r.value.usage == lookup.value.value && r.value.limit == limit
      && r.value.remaining == Max(0, limit - r.value.usage) && r.value.remaining >= 0
  {
    match lookup
    case Rows(Some(usage)) => Some(UsageStats(usage, limit, Max(0, limit - usage)))
    case _ => None
  }

  /** The table's invariants: each record is stored under its own id, and no two records share a key. */
  ghost predicate WellFormed(rows: map<string, ApiKeyData>) {
    && (forall id :: id in rows ==> rows[id].id == id)
    && (forall a, b :: a in rows && b in rows && rows[a].key == rows[b].key ==> a == b)
  }

  /** The record whose `key` column equals `key` (the `.eq("key", apiKey).maybeSingle()` query). */
  function FindByKey(rows: map<string, ApiKeyData>, key: string): (r: Option<ApiKeyData>)
    requires WellFormed(rows)
    ensures r.Some? ==> r.value.id in rows && rows[r.value.id] == r.value && r.value.key == key
    ensures r.None? ==> forall id :: id in rows ==> rows[id].key != key
  {
    if exists id :: id in rows && rows[id].key == key then
      var id :| id in rows && rows[id].key == key;
      Some(rows[id])
    else
      None
  }

  /** The table after one increment of `id`'s usage counter; every other record is untouched. */
  function Incremented(rows: map<string, ApiKeyData>, id: string): (r: map<string, ApiKeyData>)
    ensures r.Keys == rows.Keys
    ensures forall k :: k in rows && k != id ==> r[k] == rows[k]
    ensures id in rows ==> r[id] == rows[id].(usage := rows[id].usage + 1)
    ensures WellFormed(rows) ==> WellFormed(r)
  {
    if id in rows then rows[id := rows[id].(usage := rows[id].usage + 1)] else rows
  }

  /** The table after resetting `id`'s usage counter to zero; every other record is untouched. */
  function UsageReset(rows: map<string, ApiKeyData>, id: string): (r: map<string, ApiKeyData>)
    ensures r.Keys == rows.Keys
    ensures forall k :: k in rows && k != id ==> r[k] == rows[k]
    ensures id in rows ==> r[id].usage == 0 && r[id] == rows[id].(usage := 0)
    ensures WellFormed(rows) ==> WellFormed(r)
  {
    if id in rows then rows[id := rows[id].(usage := 0)] else rows
  }

  /** The table after `n` increments of the same id: its usage is up by exactly `n`, every other record, and an absent id, change nothing. */
  function IncrementedTimes(rows: map<string, ApiKeyData>, id: string, n: nat): (r: map<string, ApiKeyData>)
    ensures r.Keys == rows.Keys
    ensures id in rows ==> r[id] == rows[id].(usage := rows[id].usage + n)
    ensures forall k :: k in rows && k != id ==> r[k] == rows[k]
  {
    if n == 0 then rows else Incremented(IncrementedTimes(rows, id, n - 1), id)
  }

  /**
   * The quota boundary: a key at limit-1 passes validation, one increment brings it to the
   * limit, and from then on it is rate-limited.
   */
  lemma QuotaBoundary(rows: map<string, ApiKeyData>, id: string, limit: int)
    requires id in rows && rows[id].key != "" && rows[id].usage == limit - 1
    ensures ValidateApiKeyWithRateLimit(rows[id].key, limit, Rows(Some(rows[id]))).valid
    ensures var after := Incremented(rows, id)[id];
      after.usage == limit
      && ValidateApiKeyWithRateLimit(after.key, limit, Rows(Some(after))).rateLimited
      && !ValidateApiKeyWithRateLimit(after.key, limit, Rows(Some(after))).valid
  {
  }

  /** The key store: the `api_keys` table and whether the server has credentials for it. */
  class KeyStore {
    const configured: bool
    var rows: map<string, ApiKeyData>

    ghost predicate Valid()
      reads this
    {
      WellFormed(rows)
    }

    constructor (configured: bool, rows: map<string, ApiKeyData>)
      requires WellFormed(rows)
      ensures Valid() && this.configured == configured && this.rows == rows
    {
      this.configured := configured;
      this.rows := rows;
    }

    /** What the select-by-key query answers, `fault` being the failure the store reports, if any. */
    function KeyLookup(key: string, fault: Option<StoreFault>): (r: Lookup<Option<ApiKeyData>>)
      reads this
      requires Valid()
      ensures !configured ==> r.NotConfigured?
      ensures configured && fault.Some? ==> r == Faulted(fault.value)
      ensures configured && fault.None? ==> r == Rows(FindByKey(rows, key))
    {
      if !configured then NotConfigured
      else if fault.Some? then Faulted(fault.value)
      else Rows(FindByKey(rows, key))
    }

    /**
     * What the select-usage-by-id query answers. `.single()` reports a missing row as an error,
     * which the callers treat like any other fault.
     */
    function UsageLookup(keyId: string, fault: Option<StoreFault>): (r: Lookup<Option<int>>)
      reads this
      ensures !configured ==> r.NotConfigured?
      ensures configured && fault.None? && keyId in rows ==> r == Rows(Some(rows[keyId].usage))
      ensures r.Rows? ==> configured && keyId in rows
    {
      if !configured then NotConfigured
      else if fault.Some? then Faulted(fault.value)
      else if keyId in rows then Rows(Some(rows[keyId].usage))
      else Faulted(QueryError("JSON object requested, multiple (or no) rows returned"))
    }

    /**
     * checkRateLimit and getUsageStats asked of this store: a stored key is judged by its own
     * usage; without a store, on a fault or for an unknown id the check fails open and there
     * are no statistics.
     */
    lemma QuotaOfStoredKey(keyId: string, limit: int, fault: Option<StoreFault>)
      ensures configured && fault.None? && keyId in rows ==>
        var usage := rows[keyId].usage;
        && CheckRateLimit(limit, UsageLookup(keyId, fault)).usage == usage
        && (CheckRateLimit(limit, UsageLookup(keyId, fault)).allowed <==> usage < limit)
        && GetUsageStats(limit, UsageLookup(keyId, fault)) == Some(UsageStats(usage, limit, Max(0, limit - usage)))
      ensures !(configured && fault.None? && keyId in rows) ==>
        && CheckRateLimit(limit, UsageLookup(keyId, fault)) == RateLimitResult(true, 0, limit, limit, None)
        && GetUsageStats(limit, UsageLookup(keyId, fault)).None?
    {
    }

    /**
     * incrementUsage. The atomic RPC is tried first; when the database reports it undefined,
     * the usage is read and written back plus one (`io` says whether that read and that write
     * went through, their failures being ignored, and whether one of them threw instead, which
     * the surrounding catch reports as false). Any other RPC failure reports false.
     */
    method IncrementUsage(keyId: string, rpc: RpcReply, io: FallbackIo) returns (ok: bool)
      requires Valid()
      modifies this
      ensures Valid()
      ensures ok == (!configured || rpc.RpcOk? || (rpc == RpcError(UndefinedFunctionCode) && !io.threw))
      ensures rows == if configured && (rpc.RpcOk? || (rpc == RpcError(UndefinedFunctionCode) && FallbackWrote(io)))
                      then Incremented(old(rows), keyId) else old(rows)
    {
      if !configured {
        return true;
      }
      match rpc {
        case RpcOk =>
          rows := Incremented(rows, keyId);
          ok := true;
        case RpcError(code) =>
          if code == UndefinedFunctionCode {
            if io.threw {
              return false;
            }
            if io.readOk && keyId in rows {
              var current := rows[keyId].usage;
              if io.writeOk {
                rows := rows[keyId := rows[keyId].(usage := current + 1)];
              }
            }
            ok := true;
          } else {
            ok := false;
          }
        case RpcThrew =>
          ok := false;
      }
    }

    /** resetUsage: sets one record's usage to zero; without a store it reports success and does nothing. */
    method ResetUsage(keyId: string, fault: Option<StoreFault>) returns (ok: bool)
      requires Valid()
      modifies this
      ensures Valid()
      ensures ok == (!configured || fault.None?)
      ensures rows == if configured && fault.None? then UsageReset(old(rows), keyId) else old(rows)
    {
      if !configured {
        return true;
      }
      if fault.Some? {
        return false;
      }
      rows := UsageReset(rows, keyId);
      ok := true;
    }
  }

  /** What the `increment_api_key_usage` RPC call answers. */
  datatype RpcReply = RpcOk | RpcError(code: string) | RpcThrew

  /**
   * Whether the fallback's read and its write went through (a failure they report is ignored),
   * and whether one of them threw instead, leaving the record as it was.
   */
  datatype FallbackIo = FallbackIo(readOk: bool, writeOk: bool, threw: bool)

  /** The fallback wrote the incremented usage back. */
  predicate FallbackWrote(io: FallbackIo) {
    io.readOk && io.writeOk && !io.threw
  }
}
