/**
 * The identity-keyed store `aim::CoroSpecificStorage`: one value per
 * coroutine, created on first access and erased explicitly.
 *
 * The source reads the current coroutine id through a getter object on every
 * call; here that id is a parameter of each operation.  The mutex is not
 * modelled: the store is used sequentially.
 */
module Storage {

  /** Identity of a coroutine as `this_coro::get_id()` returns it; `NoCoro`
      is the empty id seen when no coroutine is running (the ambient context). */
  datatype CoroId = NoCoro | Coro(n: nat)

  /** The map after `get()` for `id` (`std::map::operator[]`): an absent key
      gets a default-constructed value, a present key is left as it is. */
  function GetOrCreate<Data>(datas: map<CoroId, Data>, id: CoroId, default: Data): (r: map<CoroId, Data>)
    ensures r.Keys == datas.Keys + {id}
    ensures id !in datas ==> r[id] == default
    ensures forall k :: k in datas ==> r[k] == datas[k]
  {
    if id in datas then datas else datas[id := default]
  }

  /** The map after `erase()` for `id` (`std::map::erase(key)`). */
  function Erased<Data>(datas: map<CoroId, Data>, id: CoroId): (r: map<CoroId, Data>)
    ensures r.Keys == datas.Keys - {id}
    ensures forall k :: k in r ==> r[k] == datas[k]
  {
    datas - {id}
  }

  /** `get()` for an id without an entry inserts the default value and the map grows by one. */
  lemma GetAbsentInserts<Data>(datas: map<CoroId, Data>, id: CoroId, default: Data)
    requires id !in datas
    ensures var r := GetOrCreate(datas, id, default);
            id in r && r[id] == default && |r| == |datas| + 1
  {
  }

  /** `get()` for an id with an entry returns that entry and leaves the map as it is. */
  lemma GetPresentKeeps<Data>(datas: map<CoroId, Data>, id: CoroId, default: Data)
    requires id in datas
    ensures GetOrCreate(datas, id, default) == datas
  {
  }

  /** `erase()` removes exactly `id`: all other keys and values stay, the map
      shrinks by one when `id` had an entry and is unchanged otherwise. */
  lemma EraseFrame<Data>(datas: map<CoroId, Data>, id: CoroId)
    ensures var r := Erased(datas, id);
            && r.Keys == datas.Keys - {id}
            && (forall k :: k in r ==> r[k] == datas[k])
            && (id in datas ==> |r| == |datas| - 1)
            && (id !in datas ==> r == datas)
  {
  }

  /** `get()` then `erase()` for an id that had no entry gives back the original map. */
  lemma GetThenEraseRestores<Data>(datas: map<CoroId, Data>, id: CoroId, default: Data)
    requires id !in datas
    ensures Erased(GetOrCreate(datas, id, default), id) == datas
  {
  }

  /** `aim::CoroSpecificStorage<CoroIdGetter, Data>`: a map from coroutine id to
      one `Data`.  `defaultData` is the value-initialised `Data` that
      `operator[]` inserts for a new key. */
  class CoroSpecificStorage<Data> {
    var datas: map<CoroId, Data>
    const defaultData: Data

    constructor (defaultData: Data)
      ensures this.defaultData == defaultData && datas == map[]
    {
      this.defaultData := defaultData;
      datas := map[];
    }

    /** `get()`: the entry of `id`, created with the default value if absent. */
    method Get(id: CoroId) returns (d: Data)
      modifies this
      ensures datas == GetOrCreate(old(datas), id, defaultData)
      ensures d == (if id in old(datas) then old(datas)[id] else defaultData)
    {
      if id !in datas {
        datas := datas[id := defaultData];
      }
      d := datas[id];
    }

    /** Assignment through the reference `get()` returns (`get() = d`):
        creating the entry first makes no difference once it is overwritten. */
    method Put(id: CoroId, d: Data)
      modifies this
      ensures datas == old(datas)[id := d]
    {
      var _ := Get(id);
      datas := datas[id := d];
    }

    /** `erase()`: removes the entry of `id`, if there is one. */
    method Erase(id: CoroId)
      modifies this
      ensures datas == Erased(old(datas), id)
    {
      datas := datas - {id};
    }
  }
}
