/**
 * The Redis key of a chat's cached messages, `chat:{chat_id}:messages`,
 * built with Python's `str` of an integer.
 */
module RedisKeys {

  /** The decimal digit character of `d`. */
  function DigitChar(d: nat): (c: char)
    requires d < 10
    ensures '0' <= c <= '9'
  {
    (48 + d) as char
  }

  /** The decimal digits of `n`, most significant first, with no leading zero. */
  function Digits(n: nat): (s: string)
    ensures 1 <= |s|
    ensures forall i :: 0 <= i < |s| ==> '0' <= s[i] <= '9'
    ensures n < 10 <==> |s| == 1
  {
    if n < 10 then [DigitChar(n)] else Digits(n / 10) + [DigitChar(n % 10)]
  }

  /** Python's `str(n)` for an integer: a minus sign before the digits of a negative number. */
  function IntToString(n: int): (s: string)
    ensures 1 <= |s|
    ensures s[0] == '-' <==> n < 0
  {
    if n < 0 then "-" + Digits(-n) else Digits(n)
  }

  /** `f"chat:{chat_id}:messages"`. */
  function MessagesKey(chatId: int): (key: string)
    ensures |key| == 14 + |IntToString(chatId)|
    ensures key[..5] == "chat:" && key[|key| - 9..] == ":messages"
    ensures key[5..|key| - 9] == IntToString(chatId)
  {
    "chat:" + IntToString(chatId) + ":messages"
  }

  /** Different numbers have different digit strings. */
  lemma {:induction false} DigitsInjective(a: nat, b: nat)
    requires Digits(a) == Digits(b)
    ensures a == b
  {
    var s := Digits(a);
    assert s[|s| - 1] == DigitChar(a % 10) == DigitChar(b % 10);
    if a >= 10 {
      assert Digits(a / 10) == s[..|s| - 1] == Digits(b / 10);
      DigitsInjective(a / 10, b / 10);
    }
  }

  /** Different integers print differently. */
  lemma IntToStringInjective(a: int, b: int)
    requires IntToString(a) == IntToString(b)
    ensures a == b
  {
    if a < 0 {
      assert Digits(-a) == IntToString(a)[1..] == IntToString(b)[1..] == Digits(-b);
      DigitsInjective(-a, -b);
    } else {
      DigitsInjective(a, b);
    }
  }

  /** Two chats share a cache key exactly when they are the same chat. */
  lemma MessagesKeyInjective(a: int, b: int)
    ensures MessagesKey(a) == MessagesKey(b) <==> a == b
  {
    if MessagesKey(a) == MessagesKey(b) {
      var ka, kb := MessagesKey(a), MessagesKey(b);
      assert IntToString(a) == ka[5..|ka| - 9];
      assert IntToString(b) == kb[5..|kb| - 9];
      IntToStringInjective(a, b);
    }
  }
}
