/**
 * GetTriggerIDs of reader/trigger_lookup.h: a fixed table from a
 * case-insensitive "[year][trigger]" token to a set of STAR trigger ids.
 */
module TriggerLookup {
  /** ::tolower in the C locale: only 'A'..'Z' change. */
  function LowerChar(c: char): (r: char)
    ensures 'A' <= c <= 'Z' ==> 'a' <= r <= 'z'
    ensures !('A' <= c <= 'Z') ==> r == c
  {
    if 'A' <= c <= 'Z' then ((c as int) - ('A' as int) + ('a' as int)) as char else c
  }

  function Lowercase(s: string): (r: string)
    ensures |r| == |s|
    ensures forall i :: 0 <= i < |s| ==> r[i] == LowerChar(s[i])
  {
    seq(|s|, i requires 0 <= i < |s| => LowerChar(s[i]))
  }

  /** The trigger sets the table hands out, named after their tokens. */
  const Y7All: set<nat> := {200620, 200621, 200211, 200212, 200220, 200221, 200222, 200001, 200003, 200013}
  const Y7Ht: set<nat> := {200620, 200621, 200211, 200212, 200220, 200221, 200222}
  const Y7Mb: set<nat> := {200001, 200003, 200013}
  const Y10All: set<nat> := {260504, 260514, 260524}
  const Y10Ht: set<nat> := {260504, 260514, 260524}
  const Y11All: set<nat> := {350512, 350502, 350513, 350503, 350514, 350504}
  const Y11Ht: set<nat> := {350512, 350502, 350513, 350503, 350514, 350504}
  const Y11Npe15: set<nat> := {350512, 350502}
  const Y11Npe18: set<nat> := {350513, 350503}
  const Y11Npe25: set<nat> := {350514, 350504}
  const Y11Mb: set<nat> := {}
  const Y14All: set<nat> := {450202, 450212, 450203, 450213, 450010, 450020, 450008, 450018, 450011, 450021}
  const Y14Ht: set<nat> := {450202, 450212, 450203, 450213}
  const Y14Ht2: set<nat> := {450202, 450212}
  const Y14Ht3: set<nat> := {450203, 450213}
  const Y14Mb: set<nat> := {450010, 450020, 450008, 450018, 450011, 450021}
  const Y14VpdMb30: set<nat> := {450010, 450020}
  const Y14VpdMb5: set<nat> := {450008, 450018}
  const Y14MbMon: set<nat> := {450011, 450021}
  const Y6PpAll: set<nat> := {117211, 117212, 127212, 127213, 137213, 117221, 127221, 137221, 137222}
  const Y6PpHt: set<nat> := {117211, 117212, 127212, 127213, 137213}
  const Y6PpJp: set<nat> := {117221, 127221, 137221, 137222}
  const Y8PpAll: set<nat> := {220500, 220510, 220520, 220000}
  const Y8PpHt0: set<nat> := {220500}
  const Y8PpHt1: set<nat> := {220510}
  const Y8PpHt2: set<nat> := {220520}
  const Y8PpMb: set<nat> := {220000}
  const Y8PpHt: set<nat> := {220500, 220510, 220520}
  const Y9PpAll: set<nat> := {240530, 240540, 240550, 240560, 240570, 240410, 240411, 240650, 240651, 250652}
  const Y9PpHt: set<nat> := {240530, 240540, 240550, 240560, 240570}
  const Y9PpJp: set<nat> := {240410, 240411, 240650, 240651, 250652}
  const Y12PpAll: set<nat> := {370541, 370542, 370351, 370621, 370601, 370611, 370621, 370011, 370341}
  const Y12PpHt: set<nat> := {370541, 370542, 370351}
  const Y12PpJp2: set<nat> := {370621}
  const Y12PpJp: set<nat> := {370601, 370611, 370621}
  const Y12PpMb: set<nat> := {370011}
  const Y12PpHm: set<nat> := {370341}
  const Y8DAuAll: set<nat> := {210500, 210501, 210510, 210511, 210520, 210521, 210541, 210020}
  const Y8DAuHt0: set<nat> := {210500, 210501}
  const Y8DAuHt1: set<nat> := {210510, 210511}
  const Y8DAuHt2: set<nat> := {210520, 210521}
  const Y8DAuHt4: set<nat> := {210541}
  const Y8DAuHt: set<nat> := {210500, 210501, 210510, 210511, 210520, 210521, 210541}
  const Y8DAuMb: set<nat> := {210020}
  const Y15PAuAll: set<nat> := {500205, 500215, 500405, 500412, 500904, 500008, 500018}
  const Y15PAuTriggered: set<nat> := {500205, 500215, 500401, 500411}
  const Y15PAuMb: set<nat> := {500904, 500008, 500018}
  const Y15PAuHt2: set<nat> := {500205, 500215}
  const Y15PAuJp2: set<nat> := {500401, 500411}
  const Y15PAuVpdMb: set<nat> := {500904}
  const Y15PAuBbcMb: set<nat> := {500008, 500018}
  const Y18ZrZrVpdMb30: set<nat> := {600001, 600011, 600021, 600031}
  const Y18RuRuVpdMb30: set<nat> := {600001, 600011, 600021, 600031}
  const Y18ZrZrBHt2: set<nat> := {600203, 600213}
  const Y18RuRuBHt2: set<nat> := {600203, 600213}
  const Y18ZrZrBHt2L2Gamma: set<nat> := {600204, 600214}
  const Y18RuRuBHt2L2Gamma: set<nat> := {600204, 600214}

  /** The source's chain of token comparisons, for a token already in lower case; any other token yields the empty set. */
  function Table(token: string): set<nat>
  {
    if token == "y7all" then Y7All
    else if token == "y7ht" then Y7Ht
    else if token == "y7mb" then Y7Mb
    else if token == "y10all" then Y10All
    else if token == "y10ht" then Y10Ht
    else if token == "y11all" then Y11All
    else if token == "y11ht" then Y11Ht
    else if token == "y11npe15" then Y11Npe15
    else if token == "y11npe18" then Y11Npe18
    else if token == "y11npe25" then Y11Npe25
    else if token == "y11mb" then Y11Mb
    else if token == "y14all" then Y14All
    else if token == "y14ht23" || token == "y14ht" then Y14Ht
    else if token == "y14ht2" then Y14Ht2
    else if token == "y14ht3" then Y14Ht3
    else if token == "y14mb" then Y14Mb
    else if token == "y14vpdmb30" then Y14VpdMb30
    else if token == "y14vpdmb5" then Y14VpdMb5
    else if token == "y14mbmon" then Y14MbMon
    else if token == "y6ppall" then Y6PpAll
    else if token == "y6ppht" then Y6PpHt
    else if token == "y6ppjp" then Y6PpJp
    else if token == "y8ppall" then Y8PpAll
    else if token == "y8ppht0" then Y8PpHt0
    else if token == "y8ppht1" then Y8PpHt1
    else if token == "y8ppht2" then Y8PpHt2
    else if token == "y8ppmb" then Y8PpMb
    else if token == "y8ppht" then Y8PpHt
    else if token == "y9ppall" then Y9PpAll
    else if token == "y9ppht" then Y9PpHt
    else if token == "y9ppjp" then Y9PpJp
    else if token == "y12ppall" then Y12PpAll
    else if token == "y12ppht" then Y12PpHt
    else if token == "y12ppjp2" then Y12PpJp2
    else if token == "y12ppjp" then Y12PpJp
    else if token == "y12ppmb" then Y12PpMb
    else if token == "y12pphm" then Y12PpHm
    else if token == "y8dauall" then Y8DAuAll
    else if token == "y8dauht0" then Y8DAuHt0
    else if token == "y8dauht1" then Y8DAuHt1
    else if token == "y8dauht2" then Y8DAuHt2
    else if token == "y8dauht4" then Y8DAuHt4
    else if token == "y8dauht" then Y8DAuHt
    else if token == "y8daumb" then Y8DAuMb
    else if token == "y15pauall" then Y15PAuAll
    else if token == "y15pautriggered" then Y15PAuTriggered
    else if token == "y15paumb" then Y15PAuMb
    else if token == "y15pauht2" then Y15PAuHt2
    else if token == "y15paujp2" then Y15PAuJp2
    else if token == "y15pauvpdmb" then Y15PAuVpdMb
    else if token == "y15paubbcmb" then Y15PAuBbcMb
    else if token == "y18zrzrvpdmb30" then Y18ZrZrVpdMb30
    else if token == "y18ruruvpdmb30" then Y18RuRuVpdMb30
    else if token == "y18zrzrbht2" then Y18ZrZrBHt2
    else if token == "y18rurubht2" then Y18RuRuBHt2
    else if token == "y18zrzrbht2l2gamma" then Y18ZrZrBHt2L2Gamma
    else if token == "y18rurubht2l2gamma" then Y18RuRuBHt2L2Gamma
    else {}
  }


  /** GetTriggerIDs: look the lower-cased token up. */
  function GetTriggerIDs(token: string): set<nat>
  {
    Table(Lowercase(token))
  }

  /** Lower-casing twice is lower-casing once. */
  lemma LowercaseIdempotent(s: string)
    ensures Lowercase(Lowercase(s)) == Lowercase(s)
  {
  }

  /** The lookup does not depend on letter case: a token and its lower-case form give the same ids. */
  lemma LookupIgnoresCase(token: string)
    ensures GetTriggerIDs(token) == GetTriggerIDs(Lowercase(token))
  {
    LowercaseIdempotent(token);
  }

  /** A token with no capital letters is looked up as it is. */
  lemma LowerTokenLookup(token: string)
    requires forall i :: 0 <= i < |token| ==> !('A' <= token[i] <= 'Z')
    ensures GetTriggerIDs(token) == Table(token)
  {
    assert Lowercase(token) == token;
  }

  /** "y11mb" names no trigger and "y14ht23" is another name for "y14ht" */
  lemma SpecialEntries()
    ensures GetTriggerIDs("y11mb") == {}
    ensures GetTriggerIDs("y14ht23") == GetTriggerIDs("y14ht") == Y14Ht
  {
    LowerTokenLookup("y11mb");
    LowerTokenLookup("y14ht23");
    LowerTokenLookup("y14ht");
  }

  /** The y12 "all" listing names 370621 twice; the set holds eight ids. */
  lemma Y12AllHasEightIds()
    ensures |Y12PpAll| == 8
  {
    assert Y12PpAll == {370541, 370542, 370351, 370621, 370601, 370611, 370011, 370341};
  }

  /** The combined sets are the unions of their parts. */
  lemma CombinedSetsAreUnions()
    ensures Y7All == Y7Ht + Y7Mb
    ensures Y10All == Y10Ht
    ensures Y11All == Y11Ht == Y11Npe15 + Y11Npe18 + Y11Npe25
    ensures Y14All == Y14Ht + Y14Mb
    ensures Y14Ht == Y14Ht2 + Y14Ht3
    ensures Y14Mb == Y14VpdMb30 + Y14VpdMb5 + Y14MbMon
    ensures Y6PpAll == Y6PpHt + Y6PpJp
    ensures Y8PpAll == Y8PpHt + Y8PpMb
    ensures Y8PpHt == Y8PpHt0 + Y8PpHt1 + Y8PpHt2
    ensures Y9PpAll == Y9PpHt + Y9PpJp
    ensures Y12PpAll == Y12PpHt + Y12PpJp + Y12PpMb + Y12PpHm
    ensures Y12PpJp2 <= Y12PpJp
    ensures Y8DAuAll == Y8DAuHt + Y8DAuMb
    ensures Y8DAuHt == Y8DAuHt0 + Y8DAuHt1 + Y8DAuHt2 + Y8DAuHt4
    ensures Y15PAuTriggered == Y15PAuHt2 + Y15PAuJp2
    ensures Y15PAuMb == Y15PAuVpdMb + Y15PAuBbcMb
    ensures Y18ZrZrVpdMb30 == Y18RuRuVpdMb30
    ensures Y18ZrZrBHt2 == Y18RuRuBHt2
    ensures Y18ZrZrBHt2L2Gamma == Y18RuRuBHt2L2Gamma
  {
  }

  /**
   * y15pauall is not the union of the triggered and minimum-bias sets its
   * siblings define: it holds 500405 and 500412, which no other y15 token
   * names, and lacks the JP2 ids 500401 and 500411.
   */
  lemma Y15AllDiffersFromParts()
    ensures 500401 in Y15PAuJp2 && 500401 !in Y15PAuAll
    ensures 500405 in Y15PAuAll && 500405 !in Y15PAuTriggered + Y15PAuMb
  {
  }
}
