/**
 * The map-backed key-value stores: `goMapStore` of store/gomap.go and the
 * older `kvStore` of store/store.go. Each is a Go map written in place; here
 * the map is the field `kv`. The `context.Context` argument of gomap.go is
 * ignored by the source and is not modelled.
 */
module Store {
  import opened Wrappers

  /** store.ErrKeyNotFound, the one error a store reports. */
  datatype StoreError = ErrKeyNotFound

  class GoMapStore {
    var kv: map<string, string>

    /** `NewGoMapStore`: an empty map. */
    constructor NewGoMapStore()
      ensures kv == map[]
    {
      kv := map[];
    }

    /** `Put`: set key to value, overwriting; other keys keep their values; never fails. */
    method Put(key: string, value: string) returns (err: Option<StoreError>)
      modifies this
      ensures kv == old(kv)[key := value]
      ensures err == None
    {
      kv := kv[key := value];
      err := None;
    }

    /** `Get`: the stored value, or "" with ErrKeyNotFound when key is absent. */
    method Get(key: string) returns (val: string, err: Option<StoreError>)
      ensures err == None <==> key in kv
      ensures key in kv ==> val == kv[key]
      ensures key !in kv ==> val == "" && err == Some(ErrKeyNotFound)
    {
      if key in kv {
        return kv[key], None;
      }
      return "", Some(ErrKeyNotFound);
    }

    /** `Exists`: whether key is present; never fails. */
    method Exists(key: string) returns (ok: bool, err: Option<StoreError>)
      ensures ok <==> key in kv
      ensures err == None
    {
      ok := key in kv;
      err := None;
    }

    /** `Delete`: remove key if present (a missing key is a no-op); never fails. */
    method Delete(key: string) returns (err: Option<StoreError>)
      modifies this
      ensures kv == old(kv) - {key}
      ensures err == None
    {
      kv := kv - {key};
      err := None;
    }
  }

  class KVStore {
    var kv: map<string, string>

    /** `NewKVStore`: an empty map. */
    constructor NewKVStore()
      ensures kv == map[]
    {
      kv := map[];
    }

    /** `Put`: set key to value, overwriting; never fails. */
    method Put(key: string, value: string) returns (err: Option<StoreError>)
      modifies this
      ensures kv == old(kv)[key := value]
      ensures err == None
    {
      kv := kv[key := value];
      err := None;
    }

    /** `Get`: the stored value, or "" for an absent key, and never an error. */
    method Get(key: string) returns (val: string, err: Option<StoreError>)
      ensures val == (if key in kv then kv[key] else "")
      ensures err == None
    {
      if key in kv {
        return kv[key], None;
      }
      return "", None;
    }

    /** `Exists`: whether key is present; never fails. */
    method Exists(key: string) returns (ok: bool, err: Option<StoreError>)
      ensures ok <==> key in kv
      ensures err == None
    {
      ok := key in kv;
      err := None;
    }
  }

  /**
   * The scenario of store/gomap_test.go: put key1, read it back, read a
   * missing key, test presence of key1 and key2, delete key1, test it again.
   */
  method GoMapStoreTest() returns (val1: string, err1: Option<StoreError>, val2: string, err2: Option<StoreError>,
                                   exists1: bool, exists2: bool, exists3: bool)
    ensures val1 == "value1" && err1 == None
    ensures val2 == "" && err2 == Some(ErrKeyNotFound)
    ensures exists1 && !exists2 && !exists3
  {
    var store := new GoMapStore.NewGoMapStore();
    var err := store.Put("key1", "value1");
    val1, err1 := store.Get("key1");
    val2, err2 := store.Get("notfoundkey");
    exists1, err := store.Exists("key1");
    exists2, err := store.Exists("key2");
    err := store.Delete("key1");
    exists3, err := store.Exists("key1");
  }

  /**
   * The same steps against store/store.go's `kvStore`, which has no Delete:
   * a missing key reads as "" with no error.
   */
  method KVStoreTest() returns (val1: string, err1: Option<StoreError>, val2: string, err2: Option<StoreError>,
                                exists1: bool, exists2: bool)
    ensures val1 == "value1" && err1 == None
    ensures val2 == "" && err2 == None
    ensures exists1 && !exists2
  {
    var store := new KVStore.NewKVStore();
    var err := store.Put("key1", "value1");
    val1, err1 := store.Get("key1");
    val2, err2 := store.Get("notfoundkey");
    exists1, err := store.Exists("key1");
    exists2, err := store.Exists("key2");
  }
}
