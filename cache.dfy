/**
 * The Redis cache as the proxy handlers see it: a key either holds bytes,
 * holds something whose bytes cannot be read, or is missing. Expiry and
 * the client itself are not part of this model.
 */
module ResponseCache {
  import opened Posts

  datatype Entry = Stored(body: Body) | Unreadable

  /** What a Get returns: no command (miss), a command whose Bytes() fails, or bytes. */
  datatype Lookup = Miss | Undecodable | Hit(body: Body)

  class Cache {
    var entries: map<string, Entry>

    constructor (initial: map<string, Entry>)
      ensures entries == initial
    {
      entries := initial;
    }

    function Find(key: string): (r: Lookup)
      reads this
      ensures r.Hit? <==> key in entries && entries[key].Stored?
      ensures r.Miss? <==> key !in entries
    {
      if key !in entries then Miss
      else match entries[key]
        case Stored(b) => Hit(b)
        case Unreadable => Undecodable
    }

    method Get(key: string) returns (r: Lookup)
      ensures r == Find(key)
    {
      r := Find(key);
    }

    /**
     * A Set; `accepted` is whether Redis took the write. Every caller logs
     * and drops a refused write, and the key then keeps what it held.
     */
    method Set(key: string, body: Body, accepted: bool)
      modifies this
      ensures entries == if accepted then old(entries)[key := Stored(body)] else old(entries)
    {
      if accepted {
        entries := entries[key := Stored(body)];
      }
    }
  }
}
