/** server.js's `storage` object, the MTProto client's session persistence: one
    JSON file holding an object from keys to values.  The file is `None` while it
    does not exist, `Some(m)` once it holds the object `m`; `writes` lists every
    object written to it, in order. */
module SessionStore {
  import opened Wrappers

  /** What `storage.get` returns: `null` when there is no file, `undefined` when the
      object lacks the key, the value otherwise. */
  datatype Got<V> = Null | Undefined | Found(value: V)

  type File<V> = Option<map<string, V>>

  /** The specification of `get`. */
  function Lookup<V>(file: File<V>, key: string): Got<V> {
    match file
    case None => Null
    case Some(data) => if key in data then Found(data[key]) else Undefined
  }

  /** The object `set` writes: the stored one, or `{}` when there is none, with
      `key` assigned. */
  function Assign<V>(file: File<V>, key: string, value: V): (data: map<string, V>)
    ensures key in data && data[key] == value
    ensures file.None? ==> data.Keys == {key}
    ensures file.Some? ==> data.Keys == file.value.Keys + {key}
    ensures forall k :: k in data && k != key ==> file.Some? && data[k] == file.value[k]
  {
    var data := if file.Some? then file.value else map[];
    data[key := value]
  }

  /** The file after `remove`: unchanged when absent, otherwise the stored object
      without `key`. */
  function Delete<V>(file: File<V>, key: string): (after: File<V>)
    ensures after.None? <==> file.None?
    ensures after.Some? ==> after.value.Keys == file.value.Keys - {key}
    ensures after.Some? ==> forall k :: k in after.value ==> after.value[k] == file.value[k]
  {
    match file
    case None => None
    case Some(data) => Some(data - {key})
  }

  class Storage<V> {
    var file: File<V>
    var writes: seq<map<string, V>>

    constructor (initial: File<V>)
      ensures file == initial && writes == []
    {
      file := initial;
      writes := [];
    }

    method Get(key: string) returns (r: Got<V>)
      ensures r == Lookup(file, key)
    {
      if file.None? {
        return Null;
      }
      var data := file.value;
      r := if key in data then Found(data[key]) else Undefined;
    }

    method Set(key: string, value: V)
      modifies this
      ensures file == Some(Assign(old(file), key, value))
      ensures writes == old(writes) + [file.value]
    {
      var data: map<string, V> := map[];
      if file.Some? {
        data := file.value;
      }
      data := data[key := value];
      file := Some(data);
      writes := writes + [data];
    }

    method Remove(key: string)
      modifies this
      ensures file == Delete(old(file), key)
      ensures writes == if old(file).None? then old(writes) else old(writes) + [file.value]
    {
      if file.Some? {
        var data := file.value;
        data := data - {key};
        file := Some(data);
        writes := writes + [data];
      }
    }
  }

  /** Without a file every key reads as `null`; with one, a missing key reads as
      `undefined`, which is a different answer. */
  lemma GetDistinguishesNullFromUndefined<V>(data: map<string, V>, key: string)
    requires key !in data
    ensures Lookup<V>(None, key) == Null
    ensures Lookup(Some(data), key) == Undefined
    ensures Lookup<V>(None, key) != Lookup(Some(data), key)
  {
  }

  /** `get` after `set` reads the value just set; every other key reads as before,
      except that on a file that did not exist its `null` becomes `undefined`. */
  lemma GetAfterSet<V>(file: File<V>, key: string, value: V, other: string)
    ensures Lookup(Some(Assign(file, key, value)), key) == Found(value)
    ensures other != key ==>
              Lookup(Some(Assign(file, key, value)), other)
              == if file.None? then Undefined else Lookup(file, other)
  {
  }

  /** `set` on a file that does not exist creates exactly `{key: value}`. */
  lemma SetOnAbsentFile<V>(key: string, value: V)
    ensures Assign(None, key, value) == map[key := value]
  {
  }

  /** `remove` on a missing file leaves it missing; on a present one, `get` of the
      key reads `undefined` and every other key reads as before. */
  lemma GetAfterRemove<V>(file: File<V>, key: string, other: string)
    ensures file.None? ==> Delete(file, key) == None
    ensures file.Some? ==> Lookup(Delete(file, key), key) == Undefined
    ensures other != key ==> Lookup(Delete(file, key), other) == Lookup(file, other)
  {
  }

  /** `remove` undoes a `set` of a key the object did not have. */
  lemma RemoveUndoesSet<V>(data: map<string, V>, key: string, value: V)
    requires key !in data
    ensures Delete(Some(Assign(Some(data), key, value)), key) == Some(data)
  {
    assert Assign(Some(data), key, value) - {key} == data;
  }
}
