/**
 * The in-memory signal key store that `useSupabaseAuthState` hands to the protocol library:
 * `creds.keys` maps a key category to a map from key id to the stored value, and the
 * `keys.get` / `keys.set` callbacks read and merge into it.
 */
module KeyStore {
  import opened Wrappers
  import opened JsValues

  /** The category whose values `get` rebuilds with `AppStateSyncKeyData.fromObject`. */
  const AppStateSyncKey: string := "app-state-sync-key"

  /** One category's records, by key id. */
  type IdMap = map<string, JsValue>

  /** `creds.keys`: key category -> key id -> stored value. */
  type KeyTable = map<string, IdMap>

  /**
   * The root credential record. `fields` are the record's other properties (identity keys,
   * registration id, counters, ...); `keys` is absent when the record has no `keys` property.
   */
  datatype Creds = Creds(fields: map<string, JsValue>, keys: Option<KeyTable>)

  /** `creds.keys?.[category]?.[id]`: `undefined` wherever a link of the chain is missing. */
  function Stored(keys: Option<KeyTable>, category: string, id: string): JsValue {
    if keys.Some? && category in keys.value && id in keys.value[category]
    then keys.value[category][id]
    else Undefined
  }

  /** The value `get` hands out for a stored value; `fromObject` is the library's conversion. */
  function Deliver(category: string, v: JsValue, fromObject: JsValue -> JsValue): JsValue {
    if category == AppStateSyncKey then fromObject(v) else v
  }

  /** The object `keys.get(category, ids)` returns for the key table `keys`. */
  function Fetched(keys: Option<KeyTable>, category: string, ids: seq<string>,
                   fromObject: JsValue -> JsValue): map<string, JsValue>
  {
    map id | id in ids && Truthy(Stored(keys, category, id)) :: Deliver(category, Stored(keys, category, id), fromObject)
  }

  /** The category map that `set` merges into: the existing one, or a new empty one. */
  function CategoryOrEmpty(table: KeyTable, category: string): IdMap {
    if category in table then table[category] else map[]
  }

  /**
   * `creds.keys` after `keys.set(data)` on a present table: every category of `data` is merged
   * into its map with `Object.assign`, so the ids of `data` win and every other entry stays.
   */
  function Merge(table: KeyTable, data: KeyTable): (r: KeyTable)
    ensures r.Keys == table.Keys + data.Keys
    ensures forall t, i :: t in data && i in data[t] ==> i in r[t] && r[t][i] == data[t][i]
    ensures forall t, i :: t in data && t in table && i in table[t] && i !in data[t] ==>
              i in r[t] && r[t][i] == table[t][i]
    ensures forall t :: t in data ==> r[t].Keys == CategoryOrEmpty(table, t).Keys + data[t].Keys
    ensures forall t :: t in table && t !in data ==> r[t] == table[t]
  {
    map t | t in table.Keys + data.Keys :: if t in data then CategoryOrEmpty(table, t) + data[t] else table[t]
  }

  /** The credential record and the key callbacks built on it. */
  class AuthState {
    var creds: Creds

    constructor (creds: Creds)
      ensures this.creds == creds
    {
      this.creds := creds;
    }

    /**
     * `keys.get(category, ids)`: collects, id by id, the truthy stored values of the requested
     * ids, converted for the app-state-sync-key category. Reads `creds` and changes nothing.
     */
    method Get(category: string, ids: seq<string>, fromObject: JsValue -> JsValue)
      returns (data: map<string, JsValue>)
      ensures data == Fetched(creds.keys, category, ids, fromObject)
    {
      data := map[];
      var k := 0;
      while k < |ids|
        invariant 0 <= k <= |ids|
        invariant data == Fetched(creds.keys, category, ids[..k], fromObject)
      {
        var id := ids[k];
        var value := Stored(creds.keys, category, id);
        assert ids[..k + 1] == ids[..k] + [id];
        if Truthy(value) {
          data := data[id := Deliver(category, value, fromObject)];
        }
        k := k + 1;
      }
      assert ids[..k] == ids;
    }

    /**
     * `keys.set(data)`: for each category of `data`, creates an empty map when the category is
     * missing and merges `data`'s entries into it. Indexing an absent `creds.keys` throws
     * (`ok` is false) on the first category, before anything has changed; with no category
     * the loop does not run and nothing throws.
     */
    method Set(data: KeyTable) returns (ok: bool)
      modifies this
      ensures ok <==> old(creds).keys.Some? || data == map[]
      ensures ok && old(creds).keys.Some? ==>
                creds == old(creds).(keys := Some(Merge(old(creds).keys.value, data)))
      ensures !ok || old(creds).keys.None? ==> creds == old(creds)
    {
      if data != map[] && creds.keys.None? {
        return false;
      }
      ok := true;
      if creds.keys.None? {
        return;
      }
      ghost var start := creds.keys.value;
      var todo := data.Keys;
      while todo != {}
        invariant todo <= data.Keys
        invariant creds == old(creds).(keys := creds.keys) && creds.keys.Some?
        invariant creds.keys.value.Keys == start.Keys + (data.Keys - todo)
        invariant forall t :: t in data && t !in todo ==>
                    creds.keys.value[t] == CategoryOrEmpty(start, t) + data[t]
        invariant forall t :: t in start && (t !in data || t in todo) ==>
                    creds.keys.value[t] == start[t]
        decreases todo
      {
        var category :| category in todo;
        var table := creds.keys.value;
        if category !in table {
          table := table[category := map[]];
        }
        table := table[category := table[category] + data[category]];
        creds := creds.(keys := Some(table));
        todo := todo - {category};
      }
      assert creds.keys.value == Merge(start, data);
    }
  }

  /** `get` yields an id only when it was requested and its stored value is truthy. */
  lemma GetOnlyTruthyRequested(keys: Option<KeyTable>, category: string, ids: seq<string>,
                               fromObject: JsValue -> JsValue, id: string)
    ensures id in Fetched(keys, category, ids, fromObject) <==>
              id in ids && keys.Some? && category in keys.value && id in keys.value[category] &&
              Truthy(keys.value[category][id])
  {
  }

  /** A missing `creds.keys` or a missing category yields an empty object, not an error. */
  lemma GetMissingIsEmpty(keys: Option<KeyTable>, category: string, ids: seq<string>,
                          fromObject: JsValue -> JsValue)
    requires keys.None? || category !in keys.value
    ensures Fetched(keys, category, ids, fromObject) == map[]
  {
  }

  /** Asking for three ids of which only the second is stored yields that one id alone. */
  lemma GetOnlyStoredExample(a: string, b: string, c: string, v: JsValue, fromObject: JsValue -> JsValue)
    requires Truthy(v)
    ensures var table := map["pre-key" := map[b := v]];
            Fetched(Some(table), "pre-key", [a, b, c], fromObject) == map[b := v]
  {
  }

  /** Outside the app-state-sync-key category `get` returns the stored values themselves. */
  lemma GetReturnsStored(table: KeyTable, category: string, ids: seq<string>,
                         fromObject: JsValue -> JsValue, id: string)
    requires category != AppStateSyncKey
    requires id in Fetched(Some(table), category, ids, fromObject)
    ensures Fetched(Some(table), category, ids, fromObject)[id] == table[category][id]
  {
  }

  /** In the app-state-sync-key category `get` returns the conversion of the stored value. */
  lemma GetConvertsAppStateKeys(table: KeyTable, ids: seq<string>,
                                fromObject: JsValue -> JsValue, id: string)
    requires id in Fetched(Some(table), AppStateSyncKey, ids, fromObject)
    ensures Fetched(Some(table), AppStateSyncKey, ids, fromObject)[id] == fromObject(table[AppStateSyncKey][id])
  {
  }

  /** Setting a truthy value and then getting it back returns exactly that value. */
  lemma SetThenGetTruthy(table: KeyTable, data: KeyTable, category: string, id: string,
                         ids: seq<string>, fromObject: JsValue -> JsValue)
    requires category in data && id in data[category] && Truthy(data[category][id])
    requires id in ids
    ensures var r := Fetched(Some(Merge(table, data)), category, ids, fromObject);
            id in r && r[id] == Deliver(category, data[category][id], fromObject)
  {
  }

  /** Setting a falsy value (a `null` deletion) makes a later `get` omit the id. */
  lemma SetThenGetFalsy(table: KeyTable, data: KeyTable, category: string, id: string,
                        ids: seq<string>, fromObject: JsValue -> JsValue)
    requires category in data && id in data[category] && !Truthy(data[category][id])
    ensures id !in Fetched(Some(Merge(table, data)), category, ids, fromObject)
  {
  }

  /** `get` of an id that `set` did not write answers as it did before the `set`. */
  lemma SetKeepsOtherGets(table: KeyTable, data: KeyTable, category: string, ids: seq<string>,
                          fromObject: JsValue -> JsValue)
    requires forall id :: id in ids ==> category !in data || id !in data[category]
    ensures Fetched(Some(Merge(table, data)), category, ids, fromObject) ==
            Fetched(Some(table), category, ids, fromObject)
  {
  }

  /** Applying the same `set` twice leaves the table as applying it once. */
  lemma MergeIdempotent(table: KeyTable, data: KeyTable)
    ensures Merge(Merge(table, data), data) == Merge(table, data)
  {
    var once := Merge(table, data);
    forall t | t in data
      ensures CategoryOrEmpty(once, t) + data[t] == once[t]
    {
    }
  }
}
