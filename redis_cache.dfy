/**
 * The Redis state that `cache_message` in app/redis_cache/redis_messages.py
 * updates in place; what the updates mean is stated in module RedisMessages.
 */
module RedisMessageCache {
  import opened JsonValues
  import opened RedisLists
  import opened RedisKeys
  import opened RedisMessages

  /** The Redis keyspace as `cache_message` changes it. */
  class MessageCache {
    /** Every Redis list, by key. */
    var keyspace: Keyspace<string>
    /** `json.dumps`. */
    const dumps: Json -> string

    /** A cache over an empty Redis database. */
    constructor (dumps: Json -> string)
      ensures keyspace == map[] && this.dumps == dumps
    {
      keyspace := map[];
      this.dumps := dumps;
    }

    /** `cache_message(chat_id, message)`: LPUSH the JSON text, then LTRIM to positions 0 through 49. */
    method CacheMessage(chatId: int, message: Json)
      modifies this
      ensures keyspace == Cached(old(keyspace), chatId, dumps(message))
      ensures ListAt(keyspace, MessagesKey(chatId))[0] == dumps(message)
      ensures |ListAt(keyspace, MessagesKey(chatId))| <= Capacity
    {
      var key := MessagesKey(chatId);
      keyspace := LPush(keyspace, key, dumps(message));
      keyspace := LTrim(keyspace, key, 0, Capacity - 1);
      CachedIsHead(old(keyspace), chatId, dumps(message));
      CachedEvictsOldest(old(keyspace), chatId, dumps(message));
    }
  }
}
