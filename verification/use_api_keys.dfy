/**
 * The dashboard's key list (blingo/app/dashboards/_hooks/useApiKeys.ts): the list of the
 * user's keys, a loading flag and an error message, changed by fetching, creating, renaming
 * and deleting keys.
 *
 * The hook's state is the class `ApiKeyList`; each operation is a method that changes it.
 * What the store answers for each call (the rows, the new row's id, whether a change went
 * through) and the freshly generated key value are inputs.
 */
module UseApiKeys {
  import opened Wrappers
  import opened Text

  /** An entry of the list (ApiKey). */
  datatype ApiKey = ApiKey(id: string, name: string, key: string, usage: int)

  /** A row of the `api_keys` table, with the columns the list does not keep. */
  datatype KeyRow = KeyRow(id: string, name: string, key: string, usage: int, userId: Option<string>, createdAt: string)

  /** `totalUsage`: the usages added up from the front, as `reduce` does. */
  function TotalUsage(keys: seq<ApiKey>): (total: int)
    ensures keys == [] ==> total == 0
    // with no negative counter the total bounds every entry's usage from above
    ensures (forall k :: 0 <= k < |keys| ==> 0 <= keys[k].usage) ==>
      0 <= total && forall k :: 0 <= k < |keys| ==> keys[k].usage <= total
  {
    if keys == [] then 0 else TotalUsage(keys[..|keys| - 1]) + keys[|keys| - 1].usage
  }

  /** Adding an entry in front adds its usage to the total. */
  lemma {:induction false} TotalUsagePrepend(k: ApiKey, keys: seq<ApiKey>)
    ensures TotalUsage([k] + keys) == k.usage + TotalUsage(keys)
    decreases |keys|
  {
    if keys != [] {
      assert ([k] + keys)[..|keys|] == [k] + keys[..|keys| - 1];
      TotalUsagePrepend(k, keys[..|keys| - 1]);
    } else {
      assert [k] + keys == [k];
      assert [k][..0] == [];
    }
  }

  /** The total of a concatenation is the sum of the totals. */
  lemma {:induction false} TotalUsageAppend(a: seq<ApiKey>, b: seq<ApiKey>)
    ensures TotalUsage(a + b) == TotalUsage(a) + TotalUsage(b)
    decreases |b|
  {
    if b == [] {
      assert a + b == a;
    } else {
      assert (a + b)[..|a + b| - 1] == a + b[..|b| - 1];
      TotalUsageAppend(a, b[..|b| - 1]);
    }
  }

  /** The list entry for a table row: the same id, name, key and usage. */
  function FromRow(row: KeyRow): (k: ApiKey)
    ensures k.id == row.id && k.name == row.name && k.key == row.key && k.usage == row.usage
  {
    ApiKey(row.id, row.name, row.key, row.usage)
  }

  /** The list for the fetched rows, in the same order. */
  function FromRows(rows: seq<KeyRow>): (r: seq<ApiKey>)
    ensures |r| == |rows| && forall i :: 0 <= i < |rows| ==> r[i] == FromRow(rows[i])
  {
    seq(|rows|, i requires 0 <= i < |rows| => FromRow(rows[i]))
  }

  /** The `map` of updateKey: every entry with the id gets the new name; nothing else changes. */
  function Renamed(keys: seq<ApiKey>, id: string, name: string): (r: seq<ApiKey>)
    ensures |r| == |keys|
    ensures forall i :: 0 <= i < |keys| ==>
      r[i] == if keys[i].id == id then keys[i].(name := name) else keys[i]
  {
    if keys == [] then []
    else [if keys[0].id == id then keys[0].(name := name) else keys[0]] + Renamed(keys[1..], id, name)
  }

  /** Renaming keeps the total usage. */
  lemma {:induction false} RenamedKeepsTotal(keys: seq<ApiKey>, id: string, name: string)
    ensures TotalUsage(Renamed(keys, id, name)) == TotalUsage(keys)
    decreases |keys|
  {
    if keys != [] {
      var r := Renamed(keys, id, name);
      var last := |keys| - 1;
      assert r[..last] == Renamed(keys[..last], id, name);
      RenamedKeepsTotal(keys[..last], id, name);
    }
  }

  /** The `filter` of deleteKey: the entries without the id, in their order. */
  function Removed(keys: seq<ApiKey>, id: string): (r: seq<ApiKey>)
    ensures |r| <= |keys|
    ensures forall i :: 0 <= i < |r| ==> r[i].id != id && r[i] in keys
    ensures forall k :: k in keys && k.id != id ==> k in r
  {
    if keys == [] then []
    else if keys[0].id == id then Removed(keys[1..], id)
    else [keys[0]] + Removed(keys[1..], id)
  }

  /** What deleting takes off the total: the usage of the removed entries. */
  function UsageOf(keys: seq<ApiKey>, id: string): int {
    if keys == [] then 0 else (if keys[0].id == id then keys[0].usage else 0) + UsageOf(keys[1..], id)
  }

  /** Deleting takes exactly the removed entries' usage off the total. */
  lemma {:induction false} RemovedTotal(keys: seq<ApiKey>, id: string)
    ensures TotalUsage(Removed(keys, id)) + UsageOf(keys, id) == TotalUsage(keys)
    decreases |keys|
  {
    if keys != [] {
      var head, tail := keys[0], keys[1..];
      RemovedTotal(tail, id);
      assert keys == [head] + tail;
      TotalUsagePrepend(head, tail);
      if head.id != id {
        assert Removed(keys, id) == [head] + Removed(tail, id);
        TotalUsagePrepend(head, Removed(tail, id));
      } else {
        assert Removed(keys, id) == Removed(tail, id);
      }
    }
  }

  /** Deleting keeps the order of what is left: the survivors of a prefix come first. */
  lemma {:induction false} RemovedDistributes(a: seq<ApiKey>, b: seq<ApiKey>, id: string)
    ensures Removed(a + b, id) == Removed(a, id) + Removed(b, id)
    decreases |a|
  {
    if a == [] {
      assert a + b == b;
    } else {
      assert (a + b)[1..] == a[1..] + b;
      RemovedDistributes(a[1..], b, id);
    }
  }

  /** Deleting an id twice is deleting it once. */
  lemma {:induction false} RemovedIdempotent(keys: seq<ApiKey>, id: string)
    ensures Removed(Removed(keys, id), id) == Removed(keys, id)
    decreases |keys|
  {
    if keys != [] {
      RemovedIdempotent(keys[1..], id);
      if keys[0].id != id {
        assert ([keys[0]] + Removed(keys[1..], id))[1..] == Removed(keys[1..], id);
      }
    }
  }

  /** The record createKey inserts. */
  datatype NewRecord = NewRecord(name: string, key: string, usage: int)

  const LoadFailed: string := "Failed to load API keys. Check your Supabase connection."
  const CreateFailed: string := "Failed to create API key."
  const UpdateFailed: string := "Failed to update API key."
  const DeleteFailed: string := "Failed to delete API key."

  /** The hook's state. */
  class ApiKeyList {
    var apiKeys: seq<ApiKey>
    var isLoading: bool
    var error: Option<string>

    /** The state on mount: no keys yet, loading, no error. */
    constructor ()
      ensures apiKeys == [] && isLoading && error.None?
    {
      apiKeys := [];
      isLoading := true;
      error := None;
    }

    function Total(): int
      reads this
    {
      TotalUsage(apiKeys)
    }

    /** fetchApiKeys: `rows` are the rows the store answers, newest first, or `None` when it fails. */
    method FetchApiKeys(rows: Option<seq<KeyRow>>)
      modifies this
      ensures !isLoading
      ensures rows.Some? ==> apiKeys == FromRows(rows.value) && error.None?
      ensures rows.None? ==> apiKeys == old(apiKeys) && error == Some(LoadFailed)
    {
      isLoading := true;
      error := None;
      match rows {
        case Some(data) =>
          apiKeys := FromRows(data);
        case None =>
          error := Some(LoadFailed);
      }
      isLoading := false;
    }

    /** clearError. */
    method ClearError()
      modifies this
      ensures error.None? && apiKeys == old(apiKeys) && isLoading == old(isLoading)
    {
      error := None;
    }

    /**
     * createKey: a blank name is refused before anything is sent. Otherwise the record sent to
     * the store is returned in `sent`; `freshKey` is the generated key value and `newId` the id
     * the store gives the inserted row (`None` when the insert fails).
     */
    method CreateKey(name: string, freshKey: string, newId: Option<string>) returns (ok: bool, sent: Option<NewRecord>)
      modifies this
      ensures isLoading == old(isLoading)
      ensures sent.None? <==> Trim(name) == ""
      ensures sent.None? ==> !ok && apiKeys == old(apiKeys) && error == old(error)
      ensures sent.Some? ==> sent.value == NewRecord(Trim(name), freshKey, 0)
      ensures sent.Some? && newId.Some? ==>
        ok && error.None? && apiKeys == [ApiKey(newId.value, sent.value.name, freshKey, 0)] + old(apiKeys)
        && Total() == old(Total())
      ensures sent.Some? && newId.None? ==> !ok && apiKeys == old(apiKeys) && error == Some(CreateFailed)
    {
      var trimmed := Trim(name);
      if trimmed == "" {
        return false, None;
      }
      error := None;
      var record := NewRecord(trimmed, freshKey, 0);
      sent := Some(record);
      match newId {
        case Some(id) =>
          var entry := ApiKey(id, record.name, record.key, record.usage);
          TotalUsagePrepend(entry, apiKeys);
          apiKeys := [entry] + apiKeys;
          ok := true;
        case None =>
          error := Some(CreateFailed);
          ok := false;
      }
    }

    /**
     * updateKey: a blank name is refused before anything is sent. Otherwise the trimmed name
     * sent to the store is returned in `sent`; `stored` says whether the store took it.
     */
    method UpdateKey(id: string, name: string, stored: bool) returns (ok: bool, sent: Option<string>)
      modifies this
      ensures isLoading == old(isLoading)
      ensures sent.None? <==> Trim(name) == ""
      ensures sent.None? ==> !ok && apiKeys == old(apiKeys) && error == old(error)
      ensures sent.Some? ==> sent.value == Trim(name)
      ensures sent.Some? && stored ==>
        ok && error.None? && apiKeys == Renamed(old(apiKeys), id, sent.value) && Total() == old(Total())
      ensures sent.Some? && !stored ==> !ok && apiKeys == old(apiKeys) && error == Some(UpdateFailed)
    {
      var trimmed := Trim(name);
      if trimmed == "" {
        return false, None;
      }
      error := None;
      sent := Some(trimmed);
      if stored {
        RenamedKeepsTotal(apiKeys, id, trimmed);
        apiKeys := Renamed(apiKeys, id, trimmed);
        ok := true;
      } else {
        error := Some(UpdateFailed);
        ok := false;
      }
    }

    /** deleteKey: `stored` says whether the store deleted the row. */
    method DeleteKey(id: string, stored: bool) returns (ok: bool)
      modifies this
      ensures isLoading == old(isLoading)
      ensures ok == stored
      ensures stored ==>
        error.None? && apiKeys == Removed(old(apiKeys), id) && Total() == old(Total()) - UsageOf(old(apiKeys), id)
      ensures !stored ==> apiKeys == old(apiKeys) && error == Some(DeleteFailed)
    {
      error := None;
      if stored {
        RemovedTotal(apiKeys, id);
        apiKeys := Removed(apiKeys, id);
        ok := true;
      } else {
        error := Some(DeleteFailed);
        ok := false;
      }
    }
  }
}
