/**
 * The recent-message cache of app/redis_cache/redis_messages.py: one Redis
 * list per chat, newest message first, trimmed to the 50 newest, holding
 * each message as its JSON text.
 */
module RedisMessages {
  import opened JsonValues
  import opened RedisLists
  import opened RedisKeys

  /** `LTRIM key 0 49` keeps positions 0 through 49: the 50 newest messages. */
  const Capacity: nat := 50

  /** `json.loads` undoes `json.dumps`: every message decodes back to itself. */
  ghost predicate RoundTrips(dumps: Json -> string, loads: string -> Json)
  {
    forall m :: loads(dumps(m)) == m
  }

  /** `s` newest first: the order in which successive LPUSHes leave `s`. */
  function NewestFirst<T>(s: seq<T>): (r: seq<T>)
    ensures |r| == |s|
  {
    if |s| == 0 then [] else [s[|s| - 1]] + NewestFirst(s[..|s| - 1])
  }

  /** The keyspace after `cache_message(chat_id, message)`, where `encoded` is `json.dumps(message)`. */
  function Cached(ks: Keyspace<string>, chatId: int, encoded: string): (r: Keyspace<string>)
    ensures ListAt(r, MessagesKey(chatId)) == Pushed(ListAt(ks, MessagesKey(chatId)), encoded)
    ensures forall key :: key != MessagesKey(chatId) ==> ListAt(r, key) == ListAt(ks, key)
  {
    var key := MessagesKey(chatId);
    LTrim(LPush(ks, key, encoded), key, 0, Capacity - 1)
  }

  /** `cache_message` for each text of `encoded` in turn, all to one chat. */
  function CachedAll(ks: Keyspace<string>, chatId: int, encoded: seq<string>): Keyspace<string>
  {
    if |encoded| == 0 then ks
    else Cached(CachedAll(ks, chatId, encoded[..|encoded| - 1]), chatId, encoded[|encoded| - 1])
  }

  /** A chat's list after one `cache_message`: the text pushed at the head, then positions 0 through 49 kept. */
  function Pushed(list: seq<string>, encoded: string): seq<string>
  {
    Range([encoded] + list, 0, Capacity - 1)
  }

  /** A chat's list after `cache_message` of each text of `encoded` in turn. */
  function PushedAll(list: seq<string>, encoded: seq<string>): seq<string>
  {
    if |encoded| == 0 then list
    else Pushed(PushedAll(list, encoded[..|encoded| - 1]), encoded[|encoded| - 1])
  }

  /** `[json.loads(msg) for msg in messages]`: each stored text decoded, in stored order. */
  function DecodeAll(texts: seq<string>, loads: string -> Json): (r: seq<Json>)
    ensures |r| == |texts| && forall i :: 0 <= i < |texts| ==> r[i] == loads(texts[i])
  {
    seq(|texts|, i requires 0 <= i < |texts| => loads(texts[i]))
  }

  /**
   * `get_cached_messages(chat_id)`: `LRANGE key 0 -1`, then `json.loads` of each
   * element. A chat never cached has no key and reads as empty.
   */
  function GetCachedMessages(ks: Keyspace<string>, chatId: int, loads: string -> Json): (r: seq<Json>)
    ensures r == DecodeAll(ListAt(ks, MessagesKey(chatId)), loads)
    ensures MessagesKey(chatId) !in ks ==> r == []
  {
    RangeAll(ListAt(ks, MessagesKey(chatId)));
    DecodeAll(LRange(ks, MessagesKey(chatId), 0, -1), loads)
  }

  /**
   * Below capacity a push only prepends; at capacity it also drops the last,
   * oldest, element.
   */
  lemma PushedEvictsOldest(list: seq<string>, encoded: string)
    ensures Pushed(list, encoded) == if |list| < Capacity then [encoded] + list else [encoded] + list[..Capacity - 1]
  {
    RangeFromZero([encoded] + list, Capacity - 1);
    if |list| >= Capacity {
      assert ([encoded] + list)[..Capacity] == [encoded] + list[..Capacity - 1];
    }
  }

  /** The message just cached is at the head of its chat's list. */
  lemma CachedIsHead(ks: Keyspace<string>, chatId: int, encoded: string)
    ensures var list := ListAt(Cached(ks, chatId, encoded), MessagesKey(chatId));
            |list| > 0 && list[0] == encoded
  {
    PushedEvictsOldest(ListAt(ks, MessagesKey(chatId)), encoded);
  }

  /**
   * Caching below capacity only prepends; at capacity it also drops the
   * last, oldest, element. Either way the list ends up at most 50 long.
   */
  lemma CachedEvictsOldest(ks: Keyspace<string>, chatId: int, encoded: string)
    ensures var before := ListAt(ks, MessagesKey(chatId));
            ListAt(Cached(ks, chatId, encoded), MessagesKey(chatId))
            == if |before| < Capacity then [encoded] + before else [encoded] + before[..Capacity - 1]
    ensures |ListAt(Cached(ks, chatId, encoded), MessagesKey(chatId))| <= Capacity
  {
    PushedEvictsOldest(ListAt(ks, MessagesKey(chatId)), encoded);
  }

  /** Caching for chat `c` leaves the list of every other chat `d` as it was. */
  lemma CachedOtherChats(ks: Keyspace<string>, c: int, d: int, encoded: string)
    requires c != d
    ensures ListAt(Cached(ks, c, encoded), MessagesKey(d)) == ListAt(ks, MessagesKey(d))
  {
    MessagesKeyInjective(c, d);
  }

  /** A run of `cache_message` calls for one chat acts on that chat's list as the same run of pushes. */
  lemma {:induction false} CachedAllList(ks: Keyspace<string>, chatId: int, encoded: seq<string>)
    ensures ListAt(CachedAll(ks, chatId, encoded), MessagesKey(chatId)) == PushedAll(ListAt(ks, MessagesKey(chatId)), encoded)
  {
    if |encoded| > 0 {
      CachedAllList(ks, chatId, encoded[..|encoded| - 1]);
    }
  }

  /**
   * After a run of pushes the list holds the pushed texts newest first,
   * followed by what it held before, cut to the 50 newest.
   */
  lemma {:induction false} PushedAllNewestFirst(before: seq<string>, encoded: seq<string>)
    requires |before| <= Capacity
    ensures var n := |encoded| + |before|;
            PushedAll(before, encoded) == (NewestFirst(encoded) + before)[..if n < Capacity then n else Capacity]
  {
    if |encoded| > 0 {
      var init, last := encoded[..|encoded| - 1], encoded[|encoded| - 1];
      var xs := NewestFirst(init) + before;
      var k := if |xs| < Capacity then |xs| else Capacity;
      var j := if k + 1 < Capacity then k + 1 else Capacity;
      var list := PushedAll(before, init);
      assert list == xs[..k] by {
        PushedAllNewestFirst(before, init);
      }
      assert PushedAll(before, encoded) == ([last] + list)[..j] by {
        PushedEvictsOldest(list, last);
        if k == Capacity {
          assert ([last] + list)[..j] == [last] + list[..Capacity - 1];
        }
      }
      PrependPrefix(last, xs, k, j);
      assert NewestFirst(encoded) + before == [last] + xs;
    }
  }

  /** Cutting the tail before or after prepending gives the same prefix. */
  lemma PrependPrefix<T>(v: T, xs: seq<T>, k: nat, j: nat)
    requires k <= |xs| && j <= k + 1
    ensures ([v] + xs[..k])[..j] == ([v] + xs)[..j]
  {
    assert forall i :: 0 <= i < j ==> ([v] + xs[..k])[i] == ([v] + xs)[i];
  }

  /** Pushing m1..m60 to one chat leaves exactly m60..m11, newest first, whatever the list held. */
  lemma SixtyPushes(ks: Keyspace<string>, chatId: int, encoded: seq<string>)
    requires |ListAt(ks, MessagesKey(chatId))| <= Capacity
    requires |encoded| == 60
    ensures var list := ListAt(CachedAll(ks, chatId, encoded), MessagesKey(chatId));
            |list| == 50 && forall i :: 0 <= i < 50 ==> list[i] == encoded[59 - i]
  {
    var before := ListAt(ks, MessagesKey(chatId));
    var list := ListAt(CachedAll(ks, chatId, encoded), MessagesKey(chatId));
    CachedAllList(ks, chatId, encoded);
    PushedAllNewestFirst(before, encoded);
    var newest := NewestFirst(encoded);
    assert list == (newest + before)[..Capacity];
    forall i | 0 <= i < 50 ensures list[i] == encoded[59 - i] {
      NewestFirstAt(encoded, i);
      assert list[i] == newest[i];
    }
  }

  /** Position `i` of the newest-first order is the `i`-th element counting back from the last. */
  lemma {:induction false} NewestFirstAt<T>(s: seq<T>, i: nat)
    requires i < |s|
    ensures NewestFirst(s)[i] == s[|s| - 1 - i]
  {
    if i > 0 {
      NewestFirstAt(s[..|s| - 1], i - 1);
    }
  }

  /**
   * Read-back: after caching `m`, the chat's messages read as `m` followed
   * by the up to 49 messages that were there before.
   */
  lemma ReadAfterCache(ks: Keyspace<string>, chatId: int, m: Json, dumps: Json -> string, loads: string -> Json)
    requires RoundTrips(dumps, loads)
    ensures var before := GetCachedMessages(ks, chatId, loads);
            GetCachedMessages(Cached(ks, chatId, dumps(m)), chatId, loads)
            == [m] + before[..if |before| < Capacity then |before| else Capacity - 1]
  {
    CachedEvictsOldest(ks, chatId, dumps(m));
  }

  /** `encoded` holds the JSON texts of `ms`, in order. */
  ghost predicate EncodesAll(encoded: seq<string>, ms: seq<Json>, dumps: Json -> string)
  {
    |encoded| == |ms| && forall i :: 0 <= i < |ms| ==> encoded[i] == dumps(ms[i])
  }

  /**
   * Messages cached one after another into a chat that had none read back as
   * themselves, newest first, at most 50 of them.
   */
  lemma ReadAfterCacheAll(ks: Keyspace<string>, chatId: int, ms: seq<Json>, encoded: seq<string>,
                          dumps: Json -> string, loads: string -> Json)
    requires RoundTrips(dumps, loads) && EncodesAll(encoded, ms, dumps)
    requires MessagesKey(chatId) !in ks
    ensures GetCachedMessages(CachedAll(ks, chatId, encoded), chatId, loads)
            == NewestFirst(ms)[..if |ms| < Capacity then |ms| else Capacity]
  {
    CachedAllFromEmpty(ks, chatId, encoded);
    DecodeNewestFirst(ms, encoded, dumps, loads, if |ms| < Capacity then |ms| else Capacity);
  }

  /** Decoding the `k` newest encodings of `ms` gives the `k` newest messages of `ms`. */
  lemma DecodeNewestFirst(ms: seq<Json>, encoded: seq<string>, dumps: Json -> string, loads: string -> Json, k: nat)
    requires RoundTrips(dumps, loads) && EncodesAll(encoded, ms, dumps)
    requires k <= |ms|
    ensures DecodeAll(NewestFirst(encoded)[..k], loads) == NewestFirst(ms)[..k]
  {
    var r := DecodeAll(NewestFirst(encoded)[..k], loads);
    forall i | 0 <= i < k ensures r[i] == NewestFirst(ms)[i] {
      DecodedAt(ms, encoded, dumps, loads, i);
    }
  }

  /** A chat with no list, after a run of pushes, holds the 50 newest texts, newest first. */
  lemma CachedAllFromEmpty(ks: Keyspace<string>, chatId: int, encoded: seq<string>)
    requires MessagesKey(chatId) !in ks
    ensures ListAt(CachedAll(ks, chatId, encoded), MessagesKey(chatId))
            == NewestFirst(encoded)[..if |encoded| < Capacity then |encoded| else Capacity]
  {
    CachedAllList(ks, chatId, encoded);
    PushedAllNewestFirst([], encoded);
    assert NewestFirst(encoded) + [] == NewestFirst(encoded);
  }

  /** Decoding position `i` of the newest-first encodings of `ms` gives position `i` of `ms` newest first. */
  lemma DecodedAt(ms: seq<Json>, encoded: seq<string>, dumps: Json -> string, loads: string -> Json, i: nat)
    requires RoundTrips(dumps, loads) && EncodesAll(encoded, ms, dumps)
    requires i < |ms|
    ensures loads(NewestFirst(encoded)[i]) == NewestFirst(ms)[i]
  {
    var j := |ms| - 1 - i;
    assert NewestFirst(encoded)[i] == encoded[j] by { NewestFirstAt(encoded, i); }
    assert NewestFirst(ms)[i] == ms[j] by { NewestFirstAt(ms, i); }
    assert loads(dumps(ms[j])) == ms[j];
  }
}
