/**
 * The Redis list commands the message cache issues (LPUSH, LTRIM, LRANGE),
 * over a keyspace that maps each key to its list. A key that holds no list
 * reads as the empty list, and Redis deletes a key whose list becomes empty.
 */
module RedisLists {

  /** The lists stored in Redis, by key. */
  type Keyspace<T> = map<string, seq<T>>

  /** The list at `key`; a missing key is an empty list. */
  function ListAt<T>(ks: Keyspace<T>, key: string): seq<T>
  {
    if key in ks then ks[key] else []
  }

  /** Redis reads a negative index from the end of the list: -1 is the last element. */
  function Resolve(index: int, len: nat): int
  {
    if index < 0 then len + index else index
  }

  /**
   * The elements at positions `start` through `stop`, both inclusive, after
   * Redis resolves negative indices and clamps both ends to the list: the
   * range LRANGE returns and LTRIM keeps.
   */
  function Range<T>(list: seq<T>, start: int, stop: int): (r: seq<T>)
    ensures |r| <= |list|
  {
    var len := |list|;
    var first := if Resolve(start, len) < 0 then 0 else Resolve(start, len);
    var last := if Resolve(stop, len) >= len then len - 1 else Resolve(stop, len);
    if first > last || first >= len then [] else list[first..last + 1]
  }

  /** A range that starts at the head is a prefix: at most `stop + 1` elements, in list order. */
  lemma RangeFromZero<T>(list: seq<T>, stop: nat)
    ensures Range(list, 0, stop) == list[..if stop < |list| then stop + 1 else |list|]
  {
  }

  /** LRANGE key 0 -1 is the whole list. */
  lemma RangeAll<T>(list: seq<T>)
    ensures Range(list, 0, -1) == list
  {
  }

  /** LPUSH key v: `v` becomes the head of the list, creating the key if needed. */
  function LPush<T>(ks: Keyspace<T>, key: string, v: T): (r: Keyspace<T>)
    ensures key in r && r[key] == [v] + ListAt(ks, key)
    ensures forall k :: k != key ==> ListAt(r, k) == ListAt(ks, k)
  {
    ks[key := [v] + ListAt(ks, key)]
  }

  /** LTRIM key start stop: keep only the range; an emptied list deletes its key. */
  function LTrim<T>(ks: Keyspace<T>, key: string, start: int, stop: int): (r: Keyspace<T>)
    ensures ListAt(r, key) == Range(ListAt(ks, key), start, stop)
    ensures key in r <==> Range(ListAt(ks, key), start, stop) != []
    ensures forall k :: k != key ==> ListAt(r, k) == ListAt(ks, k)
  {
    var kept := Range(ListAt(ks, key), start, stop);
    if kept == [] then ks - {key} else ks[key := kept]
  }

  /** LRANGE key start stop: a read that leaves the keyspace as it is. */
  function LRange<T>(ks: Keyspace<T>, key: string, start: int, stop: int): (r: seq<T>)
    ensures |r| <= |ListAt(ks, key)|
  {
    Range(ListAt(ks, key), start, stop)
  }
}
