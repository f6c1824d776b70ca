/**
 The keys of the streaming server's subscription table, server/streaming/subscription.go:14-32.
 A key is the bot id, the separator SEP and the decimal resource type.
 */
module SubKeys {
  import opened Wrappers
  import opened Strings

  const SEP := "[:bot-ws-sub-key:]"

  newtype int32 = i: int | -0x8000_0000 <= i < 0x8000_0000

  /** Go's int32(n) of an int64: keep the low 32 bits. */
  function Truncate32(n: int): int32 {
    ((n + 0x8000_0000) % 0x1_0000_0000 - 0x8000_0000) as int32
  }

  lemma TruncateInRange(i: int32)
    ensures Truncate32(i as int) == i
  {
  }

  /** Beyond the 32 bits it is the number that differs by a multiple of 2^32. */
  lemma TruncateModulo(n: int)
    ensures (n - Truncate32(n) as int) % 0x1_0000_0000 == 0
  {
    var m := n + 0x8000_0000;
    assert n - Truncate32(n) as int == m / 0x1_0000_0000 * 0x1_0000_0000;
  }

  /** BotAndWsConnectionsSubKey */
  function SubKey(botId: string, resourceType: int32): string {
    botId + SEP + PrintInt(resourceType as int)
  }

  /** parseSubKey; None stands for its error results. */
  function ParseSubKey(key: string): Option<(string, int32)> {
    ParseTokens(Split(key, SEP))
  }

  function ParseTokens(tokens: seq<string>): Option<(string, int32)> {
    if |tokens| != 2 then None
    else match ParseInt64(tokens[1])
         case None => None
         case Some(num) => Some((tokens[0], Truncate32(num)))
  }

  /** Splitting a key gives the bot id and the number back iff the bot id does not contain
      SEP. '[' opens SEP, occurs nowhere else in it and in no number. */
  lemma SplitSubKey(botId: string, resourceType: int32)
    ensures var tokens := Split(SubKey(botId, resourceType), SEP);
            if Contains(botId, SEP) then |tokens| > 2
            else tokens == [botId, PrintInt(resourceType as int)]
  {
    assert Borderless(SEP);
    if Contains(botId, SEP) {
      SplitOfLongJoin(botId, SEP, PrintInt(resourceType as int));
    } else {
      SplitOfJoin(botId, SEP, PrintInt(resourceType as int));
    }
  }

  lemma ParseTokensOfPair(botId: string, resourceType: int32)
    ensures ParseTokens([botId, PrintInt(resourceType as int)]) == Some((botId, resourceType))
  {
    var number := PrintInt(resourceType as int);
    ParsePrintInt(resourceType as int);
    TruncateInRange(resourceType);
    assert [botId, number][1] == number;
  }

  /** Round trip: parsing a printed key succeeds, and returns what was printed, exactly
      when the bot id does not contain SEP. */
  lemma KeyRoundTrip(botId: string, resourceType: int32)
    ensures ParseSubKey(SubKey(botId, resourceType))
            == if Contains(botId, SEP) then None else Some((botId, resourceType))
  {
    SplitSubKey(botId, resourceType);
    ParseTokensOfPair(botId, resourceType);
  }

  /** The number a key ends with is what follows its last ']'. */
  lemma ShorterNumber(bot1: string, type1: int32, bot2: string, type2: int32)
    requires |PrintInt(type1 as int)| < |PrintInt(type2 as int)|
    ensures SubKey(bot1, type1) != SubKey(bot2, type2)
  {
    var n1, n2 := PrintInt(type1 as int), PrintInt(type2 as int);
    var k1, k2 := SubKey(bot1, type1), SubKey(bot2, type2);
    assert SEP[|SEP| - 1] == ']';
    assert k1[|k1| - |n1| - 1] == ']';
    assert |k2| - |n1| - 1 >= |k2| - |n2|;
    assert k2[|k2| - |n1| - 1] == n2[|n2| - |n1| - 1];
    assert n2[|n2| - |n1| - 1] in n2;
  }

  /** Keys are injective in both components, whatever the bot ids contain. */
  lemma KeyInjective(bot1: string, type1: int32, bot2: string, type2: int32)
    requires SubKey(bot1, type1) == SubKey(bot2, type2)
    ensures bot1 == bot2 && type1 == type2
  {
    var n1, n2 := PrintInt(type1 as int), PrintInt(type2 as int);
    var key := SubKey(bot1, type1);
    if |n1| < |n2| {
      ShorterNumber(bot1, type1, bot2, type2);
    } else if |n2| < |n1| {
      ShorterNumber(bot2, type2, bot1, type1);
    } else {
      assert key[|key| - |n1|..] == n1 && key[|key| - |n2|..] == n2;
      ParsePrintInt(type1 as int);
      ParsePrintInt(type2 as int);
      assert key[..|key| - |n1| - |SEP|] == bot1 && key[..|key| - |n2| - |SEP|] == bot2;
    }
  }
}
