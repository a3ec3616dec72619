/** `StorageService`: one collection of serialized records kept under one key of
    the browser's key/value store, read and written back whole on every call. */
module Storage {
  import opened Wrappers
  import opened Json
  import Seqs
  import AppConfig

  /** What `JSON.parse` makes of the string stored under a key: the array of
      records, or a parse failure. */
  datatype Entry = Parsed(items: seq<JsonObject>) | Unparseable

  /** The browser's `localStorage`, already parsed per key. */
  class LocalStorage {
    var entries: map<string, Entry>

    constructor ()
      ensures entries == map[]
    {
      entries := map[];
    }
  }

  /** `item.id`. */
  function IdOf(item: JsonObject): Field {
    Get(item, "id")
  }

  /** `getAll()` on a snapshot of the store: the parsed array, or `[]` when the key
      is absent or its value does not parse. */
  function ItemsAt(entries: map<string, Entry>, key: string): (r: seq<JsonObject>)
    ensures key !in entries ==> r == []
    ensures key in entries && entries[key].Unparseable? ==> r == []
    ensures key in entries && entries[key].Parsed? ==> r == entries[key].items
  {
    if key in entries && entries[key].Parsed? then entries[key].items else []
  }

  /** `items.findIndex(i => i.id === id)`: the first position whose id is `id`
      (JavaScript's `undefined === undefined` included), or -1. */
  function IndexOf(items: seq<JsonObject>, id: Field): (r: int)
    ensures -1 <= r < |items|
    ensures r == -1 <==> forall j :: 0 <= j < |items| ==> IdOf(items[j]) != id
    ensures 0 <= r ==> IdOf(items[r]) == id
    ensures 0 <= r ==> forall j :: 0 <= j < r ==> IdOf(items[j]) != id
  {
    if items == [] then -1
    else if IdOf(items[0]) == id then 0
    else
      var k := IndexOf(items[1..], id);
      if k == -1 then -1 else k + 1
  }

  /** `items.find(item => item.id === id) || null`. */
  function Find(items: seq<JsonObject>, id: string): (r: Option<JsonObject>)
  {
    var k := IndexOf(items, Some(id));
    if k == -1 then None else Some(items[k])
  }

  /** `getById` returns the first record with that id, and null exactly when
      there is none. */
  lemma FindFirst(items: seq<JsonObject>, id: string)
    ensures Find(items, id).None? <==> forall j :: 0 <= j < |items| ==> IdOf(items[j]) != Some(id)
    ensures Find(items, id).Some? ==>
              exists k :: 0 <= k < |items| && Find(items, id).value == items[k] &&
                          IdOf(items[k]) == Some(id) &&
                          forall j :: 0 <= j < k ==> IdOf(items[j]) != Some(id)
  {
    var k := IndexOf(items, Some(id));
    if k != -1 {
      assert Find(items, id).value == items[k];
    }
  }

  /** The upsert at the heart of `save`: replace at the first matching index,
      otherwise append. */
  function Upsert(items: seq<JsonObject>, item: JsonObject): seq<JsonObject> {
    var index := IndexOf(items, IdOf(item));
    if index >= 0 then items[index := item] else items + [item]
  }

  /** Saving over an existing id replaces the first record with that id and
      nothing else: same length, every other position unchanged. */
  lemma UpsertReplaces(items: seq<JsonObject>, item: JsonObject)
    requires exists j :: 0 <= j < |items| && IdOf(items[j]) == IdOf(item)
    ensures var r, k := Upsert(items, item), IndexOf(items, IdOf(item));
            |r| == |items| && 0 <= k && r[k] == item
            && (forall j :: 0 <= j < |items| && j != k ==> r[j] == items[j])
            && (forall j :: 0 <= j < k ==> IdOf(items[j]) != IdOf(item))
  {
  }

  /** Saving a new id appends it after the unchanged existing records. */
  lemma UpsertAppends(items: seq<JsonObject>, item: JsonObject)
    requires forall j :: 0 <= j < |items| ==> IdOf(items[j]) != IdOf(item)
    ensures Upsert(items, item) == items + [item]
  {
  }

  /** After a save, `getById` of the saved id finds exactly the saved record:
      `save` writes the first match and `getById` reads the first match. */
  lemma {:induction false} FindAfterUpsert(items: seq<JsonObject>, item: JsonObject, id: string)
    requires IdOf(item) == Some(id)
    ensures Find(Upsert(items, item), id) == Some(item)
  {
    var k := IndexOf(items, Some(id));
    var r := Upsert(items, item);
    if k >= 0 {
      assert r[k] == item;
      assert forall j :: 0 <= j < k ==> r[j] == items[j];
      IndexOfIsFirst(r, Some(id), k);
    } else {
      assert r[|items|] == item;
      assert forall j :: 0 <= j < |items| ==> r[j] == items[j];
      IndexOfIsFirst(r, Some(id), |items|);
    }
  }

  /** A position holding `id` with no earlier `id` is what `findIndex` returns. */
  lemma IndexOfIsFirst(items: seq<JsonObject>, id: Field, k: nat)
    requires k < |items| && IdOf(items[k]) == id
    requires forall j :: 0 <= j < k ==> IdOf(items[j]) != id
    ensures IndexOf(items, id) == k
  {
  }

  /** No two records of the collection share an id. */
  predicate UniqueIds(items: seq<JsonObject>) {
    forall i, j :: 0 <= i < j < |items| ==> IdOf(items[i]) != IdOf(items[j])
  }

  /** `save` keeps the ids of a collection unique. */
  lemma UpsertKeepsIdsUnique(items: seq<JsonObject>, item: JsonObject)
    requires UniqueIds(items)
    ensures UniqueIds(Upsert(items, item))
  {
    var r := Upsert(items, item);
    var k := IndexOf(items, IdOf(item));
    if k >= 0 {
      assert forall j :: 0 <= j < |r| ==> IdOf(r[j]) == IdOf(items[j]);
    }
  }

  /** `items.filter(item => item.id !== id)`. */
  function WithoutId(items: seq<JsonObject>, id: string): (r: seq<JsonObject>)
    ensures forall j :: 0 <= j < |r| ==> IdOf(r[j]) != Some(id)
  {
    Seqs.Filter(item => IdOf(item) != Some(id), items)
  }

  /** `remove` drops every record with the id, keeps every other record as
      often as it was there, and shrinks the collection exactly when one matched. */
  lemma WithoutIdRemoves(items: seq<JsonObject>, id: string, x: JsonObject)
    ensures multiset(WithoutId(items, id))[x]
              == if IdOf(x) == Some(id) then 0 else multiset(items)[x]
    ensures (|WithoutId(items, id)| < |items|) <==>
            (exists j :: 0 <= j < |items| && IdOf(items[j]) == Some(id))
  {
    Seqs.FilterCounts(item => IdOf(item) != Some(id), items, x);
    Seqs.FilterShorter(item => IdOf(item) != Some(id), items);
  }

  /** The records `remove` keeps stay in their stored order. */
  lemma WithoutIdKeepsOrder(front: seq<JsonObject>, back: seq<JsonObject>, id: string)
    ensures WithoutId(front + back, id) == WithoutId(front, id) + WithoutId(back, id)
  {
    Seqs.FilterAppend(item => IdOf(item) != Some(id), front, back);
  }

  /** Removing an id that is not stored gives back the same collection. */
  lemma WithoutAbsentId(items: seq<JsonObject>, id: string)
    requires forall j :: 0 <= j < |items| ==> IdOf(items[j]) != Some(id)
    ensures WithoutId(items, id) == items
  {
    Seqs.FilterKeepsAll(item => IdOf(item) != Some(id), items);
  }

  /** After a remove, `getById` of the removed id finds nothing. */
  lemma FindAfterWithoutId(items: seq<JsonObject>, id: string)
    ensures Find(WithoutId(items, id), id) == None
  {
  }

  class StorageService {
    const store: LocalStorage
    const storageKey: string

    /** `new StorageService(entityName)`: the key is `config.getStorageKey(entityName)`. */
    constructor (config: AppConfig.Config, store: LocalStorage, entityName: string)
      ensures this.store == store
      ensures storageKey == config.GetStorageKey(entityName)
    {
      this.store := store;
      storageKey := config.GetStorageKey(entityName);
    }

    /** `getAll()`: never fails; an absent or unparseable value reads as `[]`. */
    function GetAll(): (r: seq<JsonObject>)
      reads this, store
      ensures storageKey !in store.entries ==> r == []
      ensures storageKey in store.entries && store.entries[storageKey].Unparseable? ==> r == []
      ensures storageKey in store.entries && store.entries[storageKey].Parsed? ==>
                r == store.entries[storageKey].items
    {
      ItemsAt(store.entries, storageKey)
    }

    /** `getById(id)`: the first stored record with that id, or null. */
    function GetById(id: string): (r: Option<JsonObject>)
      reads this, store
      ensures r.None? <==> forall j :: 0 <= j < |GetAll()| ==> IdOf(GetAll()[j]) != Some(id)
      ensures r.Some? ==> r.value in GetAll() && IdOf(r.value) == Some(id)
    {
      FindFirst(GetAll(), id);
      Find(GetAll(), id)
    }

    /** `save(item)`: upserts by id and writes the whole collection back; a failing
        write (`writeFails`, e.g. quota exceeded) reports false and stores nothing. */
    method Save(item: JsonObject, writeFails: bool) returns (ok: bool)
      modifies store
      ensures ok == !writeFails
      ensures ok ==> store.entries == old(store.entries)[storageKey := Parsed(Upsert(old(GetAll()), item))]
      ensures !ok ==> store.entries == old(store.entries)
    {
      var items := GetAll();
      var index := IndexOf(items, IdOf(item));
      if index >= 0 {
        items := items[index := item];
      } else {
        items := items + [item];
      }
      if writeFails {
        ok := false;
      } else {
        store.entries := store.entries[storageKey := Parsed(items)];
        ok := true;
      }
    }

    /** `remove(id)`: when some record has the id, writes back the others and
        reports true (false if the write fails); otherwise writes nothing and
        reports false. */
    method Remove(id: string, writeFails: bool) returns (ok: bool)
      modifies store
      ensures ok <==> !writeFails && exists j :: 0 <= j < |old(GetAll())| && IdOf(old(GetAll())[j]) == Some(id)
      ensures ok ==> store.entries == old(store.entries)[storageKey := Parsed(WithoutId(old(GetAll()), id))]
      ensures !ok ==> store.entries == old(store.entries)
    {
      var items := GetAll();
      var filteredItems := WithoutId(items, id);
      Seqs.FilterShorter(item => IdOf(item) != Some(id), items);
      if |filteredItems| < |items| && !writeFails {
        store.entries := store.entries[storageKey := Parsed(filteredItems)];
        ok := true;
      } else {
        ok := false;
      }
    }

    /** `clear()`: deletes the key, so a later `getAll()` is `[]`; a failing
        removal (`removeFails`) reports false and changes nothing. */
    method Clear(removeFails: bool) returns (ok: bool)
      modifies store
      ensures ok == !removeFails
      ensures ok ==> store.entries == old(store.entries) - {storageKey} && GetAll() == []
      ensures !ok ==> store.entries == old(store.entries)
    {
      if removeFails {
        ok := false;
      } else {
        store.entries := store.entries - {storageKey};
        ok := true;
      }
    }

    /** `filter(filterFn)`: the stored records satisfying the predicate, in order. */
    function Filter(filterFn: JsonObject -> bool): (r: seq<JsonObject>)
      reads this, store
      ensures forall j :: 0 <= j < |r| ==> filterFn(r[j]) && r[j] in GetAll()
      ensures forall j :: 0 <= j < |GetAll()| && filterFn(GetAll()[j]) ==> GetAll()[j] in r
    {
      Seqs.Filter(filterFn, GetAll())
    }
  }
}
